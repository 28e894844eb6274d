/** Hook groups merged into a host's JSON settings and removed again. */
module HookSettings {
  import opened Outcomes
  import opened Json

  // `cli/native_hook_json_merge.py` and `cli/native_hook_json_remove.py`. Contents are parsed
  // values: printing and parsing again is taken to be the identity.

  datatype Rejection = SettingsInvalid | SettingsConflict

  /** One entry of a validated `hooks` object. */
  datatype Event = Event(name: string, groups: seq<Json>)

  // ------------------------------------------------------------- validation

  predicate IsGroup(group: Json) {
    && group.Obj?
    && Get(group.fields, "hooks", Null).List?
    && forall i :: 0 <= i < |HandlersOf(group)| ==> HandlersOf(group)[i].Obj?
  }

  function HandlersOf(group: Json): seq<Json>
    requires group.Obj? && Get(group.fields, "hooks", Null).List?
  {
    Get(group.fields, "hooks", Null).items
  }

  predicate IsHooks(hooks: Json) {
    && hooks.Obj?
    && forall i :: 0 <= i < |hooks.fields| ==> hooks.fields[i].value.List? && AllGroups(hooks.fields[i].value.items)
  }

  predicate AllGroups(groups: seq<Json>) { forall j :: 0 <= j < |groups| ==> IsGroup(groups[j]) }

  /** `_groups`: the validated entries in order. */
  function EventsOf(hooks: Json): (events: seq<Event>)
    requires IsHooks(hooks)
    ensures |events| == |hooks.fields|
    ensures forall i :: 0 <= i < |events| ==>
      events[i] == Event(hooks.fields[i].key, hooks.fields[i].value.items)
  {
    seq(|hooks.fields|, i requires 0 <= i < |hooks.fields| => Event(hooks.fields[i].key, hooks.fields[i].value.items))
  }

  function HooksJson(events: seq<Event>): Json {
    Obj(seq(|events|, i requires 0 <= i < |events| => Field(events[i].name, List(events[i].groups))))
  }

  predicate DistinctNames(events: seq<Event>) {
    forall i, j :: 0 <= i < j < |events| ==> events[i].name != events[j].name
  }

  predicate AllEventGroups(events: seq<Event>) { forall i :: 0 <= i < |events| ==> AllGroups(events[i].groups) }

  // ------------------------------------------------------- lists of events

  predicate Names(events: seq<Event>, name: string) {
    exists i :: 0 <= i < |events| && events[i].name == name
  }

  /** `hooks.get(name, [])`. */
  function GroupsOf(events: seq<Event>, name: string): seq<Json> {
    if events == [] then []
    else if events[0].name == name then events[0].groups
    else GroupsOf(events[1..], name)
  }

  /** `hooks[name] = groups`, which also covers `setdefault` followed by appends. */
  function WithGroups(events: seq<Event>, name: string, groups: seq<Json>): seq<Event> {
    if events == [] then [Event(name, groups)]
    else if events[0].name == name then [Event(name, groups)] + events[1..]
    else [events[0]] + WithGroups(events[1..], name, groups)
  }

  function WithoutEvent(events: seq<Event>, name: string): seq<Event> {
    if events == [] then []
    else if events[0].name == name then events[1..]
    else [events[0]] + WithoutEvent(events[1..], name)
  }

  lemma {:induction false} NamedAt(events: seq<Event>, name: string, i: nat, groups: seq<Json>)
    requires i < |events| && events[i].name == name && DistinctNames(events)
    ensures GroupsOf(events, name) == events[i].groups
    ensures WithGroups(events, name, groups) == events[i := Event(name, groups)]
    ensures WithoutEvent(events, name) == events[..i] + events[i + 1..]
  {
    if i > 0 {
      var rest, event := events[1..], Event(name, groups);
      assert events[0].name != events[i].name;
      NamedAt(rest, name, i - 1, groups);
      assert [events[0]] + rest[i - 1 := event] == events[i := event];
      assert [events[0]] + (rest[..i - 1] + rest[i..]) == events[..i] + events[i + 1..];
    }
  }

  lemma {:induction false} NotNamed(events: seq<Event>, name: string, groups: seq<Json>)
    requires !Names(events, name)
    ensures GroupsOf(events, name) == []
    ensures WithGroups(events, name, groups) == events + [Event(name, groups)]
    ensures WithoutEvent(events, name) == events
  {
    if events != [] {
      assert forall i :: 0 <= i < |events[1..]| ==> events[1..][i] == events[i + 1];
      NotNamed(events[1..], name, groups);
    }
  }

  // ------------------------------------------------------------------ merge

  predicate RunsCommand(handler: Json, command: string) {
    && handler.Obj?
    && Get(handler.fields, "type", Null) == Str("command")
    && Get(handler.fields, "command", Null) == Str(command)
  }

  /** Some handler of the group runs the command. */
  predicate Carries(group: Json, command: string) {
    IsGroup(group) && exists i :: 0 <= i < |HandlersOf(group)| && RunsCommand(HandlersOf(group)[i], command)
  }

  function Carriers(groups: seq<Json>, command: string): seq<Json> {
    if groups == [] then []
    else (if Carries(groups[0], command) then [groups[0]] else []) + Carriers(groups[1..], command)
  }

  /** A group the client generates: one handler with a non-empty command. */
  predicate IsGenerated(group: Json) {
    && IsGroup(group) && |HandlersOf(group)| == 1
    && var handler := HandlersOf(group)[0];
      && Get(handler.fields, "type", Null) == Str("command")
      && Get(handler.fields, "command", Null).Str? && Get(handler.fields, "command", Null).text != ""
  }

  function CommandOf(group: Json): string
    requires IsGenerated(group)
  {
    Get(HandlersOf(group)[0].fields, "command", Null).text
  }

  /** One generated group against the groups saved for its event. */
  function AddGroup(target: seq<Json>, group: Json): Result<seq<Json>, Rejection> {
    if !IsGenerated(group) then Err(SettingsInvalid)
    else
      var matches := Carriers(target, CommandOf(group));
      if matches == [] then Ok(target + [group])
      else if |matches| != 1 || !PyEq(matches[0], group) then Err(SettingsConflict)
      else Ok(target)
  }

  function AddGroups(target: seq<Json>, groups: seq<Json>): Result<seq<Json>, Rejection>
    decreases |groups|
  {
    if groups == [] then Ok(target)
    else
      match AddGroups(target, groups[..|groups| - 1])
      case Err(e) => Err(e)
      case Ok(sofar) => AddGroup(sofar, groups[|groups| - 1])
  }

  datatype Merged = Merged(events: seq<Event>, additions: nat)

  function AddEvent(sofar: Merged, event: Event): Result<Merged, Rejection> {
    var target := GroupsOf(sofar.events, event.name);
    match AddGroups(target, event.groups)
    case Err(e) => Err(e)
    case Ok(groups) =>
      AddGroupsExtends(target, event.groups);
      Ok(Merged(WithGroups(sofar.events, event.name, groups), sofar.additions + |groups| - |target|))
  }

  function AddEvents(existing: seq<Event>, generated: seq<Event>): Result<Merged, Rejection>
    decreases |generated|
  {
    if generated == [] then Ok(Merged(existing, 0))
    else
      match AddEvents(existing, generated[..|generated| - 1])
      case Err(e) => Err(e)
      case Ok(sofar) => AddEvent(sofar, generated[|generated| - 1])
  }

  lemma {:induction false} AddGroupsExtends(target: seq<Json>, groups: seq<Json>)
    ensures var r := AddGroups(target, groups);
      r.Ok? ==> |target| <= |r.value| && r.value[..|target|] == target
    decreases |groups|
  {
    if groups != [] { AddGroupsExtends(target, groups[..|groups| - 1]); }
  }

  /** `json.loads(...).get("hooks", {})`. */
  function SavedHooks(document: Json): Json
    requires document.Obj?
  {
    Get(document.fields, "hooks", Obj([]))
  }

  predicate IsFragment(fragment: Json) {
    && fragment.Obj? && |fragment.fields| == 1 && fragment.fields[0].key == "hooks"
    && IsHooks(fragment.fields[0].value)
  }

  function GeneratedEvents(fragment: Json): seq<Event>
    requires IsFragment(fragment)
  {
    EventsOf(fragment.fields[0].value)
  }

  /** `fits` tells whether a document prints within the size limit. */
  function Merge(document: Json, fragment: Json, fits: Json -> bool): Result<(Json, nat), Rejection> {
    if !document.Obj? || !IsFragment(fragment) || !IsHooks(SavedHooks(document)) then Err(SettingsInvalid)
    else
      match AddEvents(EventsOf(SavedHooks(document)), GeneratedEvents(fragment))
      case Err(e) => Err(e)
      case Ok(merged) =>
        if merged.additions == 0 then Ok((document, 0))
        else
          var result := Obj(Put(document.fields, "hooks", HooksJson(merged.events)));
          if fits(result) then Ok((result, merged.additions)) else Err(SettingsInvalid)
  }

  lemma {:induction false} FirstGroupErrorDecides(target: seq<Json>, groups: seq<Json>, i: nat)
    requires i <= |groups| && AddGroups(target, groups[..i]).Err?
    ensures AddGroups(target, groups) == AddGroups(target, groups[..i])
    decreases |groups|
  {
    if i == |groups| {
      assert groups[..i] == groups;
    } else {
      var front := groups[..|groups| - 1];
      assert front[..i] == groups[..i];
      FirstGroupErrorDecides(target, front, i);
    }
  }

  lemma {:induction false} FirstEventErrorDecides(existing: seq<Event>, generated: seq<Event>, i: nat)
    requires i <= |generated| && AddEvents(existing, generated[..i]).Err?
    ensures AddEvents(existing, generated) == AddEvents(existing, generated[..i])
    decreases |generated|
  {
    if i == |generated| {
      assert generated[..i] == generated;
    } else {
      var front := generated[..|generated| - 1];
      assert front[..i] == generated[..i];
      FirstEventErrorDecides(existing, front, i);
    }
  }

  method FindCarriers(target: seq<Json>, command: string) returns (matches: seq<Json>)
    ensures matches == Carriers(target, command)
  {
    matches := [];
    for i := 0 to |target|
      invariant matches + Carriers(target[i..], command) == Carriers(target, command)
    {
      assert target[i..][1..] == target[i + 1..];
      if Carries(target[i], command) { matches := matches + [target[i]]; }
    }
  }

  /** The inner loop: one event's groups appended to `target`. */
  method AppendGroups(saved: seq<Json>, groups: seq<Json>) returns (r: Result<(seq<Json>, nat), Rejection>)
    ensures match AddGroups(saved, groups)
            case Err(e) => r == Err(e)
            case Ok(target) => r.Ok? && r.value.0 == target && |target| == |saved| + r.value.1
  {
    var target, additions: nat := saved, 0;
    for i := 0 to |groups|
      invariant AddGroups(saved, groups[..i]) == Ok(target)
      invariant |target| == |saved| + additions
    {
      var group := groups[i];
      assert groups[..i + 1][..i] == groups[..i];
      if !IsGenerated(group) {
        FirstGroupErrorDecides(saved, groups, i + 1);
        return Err(SettingsInvalid);
      }
      var matches := FindCarriers(target, CommandOf(group));
      if matches != [] {
        if |matches| != 1 || !PyEq(matches[0], group) {
          FirstGroupErrorDecides(saved, groups, i + 1);
          return Err(SettingsConflict);
        }
      } else {
        target := target + [group];
        additions := additions + 1;
      }
    }
    assert groups[..|groups|] == groups;
    r := Ok((target, additions));
  }

  lemma NextEvent(existing: seq<Event>, generated: seq<Event>, i: nat)
    requires i < |generated| && AddEvents(existing, generated[..i]).Ok?
    ensures AddEvents(existing, generated[..i + 1]) == AddEvent(AddEvents(existing, generated[..i]).value, generated[i])
  {
    assert generated[..i + 1][..i] == generated[..i];
  }

  method AppendEvent(sofar: Merged, event: Event) returns (r: Result<Merged, Rejection>)
    ensures r == AddEvent(sofar, event)
  {
    var added := AppendGroups(GroupsOf(sofar.events, event.name), event.groups);
    if added.Err? { return Err(added.error); }
    r := Ok(Merged(WithGroups(sofar.events, event.name, added.value.0), sofar.additions + added.value.1));
  }

  /** The outer loop: one generated event after another. */
  method AppendEvents(saved: seq<Event>, generated: seq<Event>) returns (r: Result<Merged, Rejection>)
    ensures r == AddEvents(saved, generated)
  {
    var merged := Merged(saved, 0);
    for i := 0 to |generated|
      invariant AddEvents(saved, generated[..i]) == Ok(merged)
    {
      NextEvent(saved, generated, i);
      var added := AppendEvent(merged, generated[i]);
      if added.Err? {
        FirstEventErrorDecides(saved, generated, i + 1);
        return Err(added.error);
      }
      merged := added.value;
    }
    assert generated[..|generated|] == generated;
    r := Ok(merged);
  }

  /** `merge`: appends to a copy of the document and counts the additions. */
  method MergeSettings(document: Json, fragment: Json, fits: Json -> bool) returns (r: Result<(Json, nat), Rejection>)
    ensures r == Merge(document, fragment, fits)
  {
    if !document.Obj? || !IsFragment(fragment) || !IsHooks(SavedHooks(document)) { return Err(SettingsInvalid); }
    var merged := AppendEvents(EventsOf(SavedHooks(document)), GeneratedEvents(fragment));
    if merged.Err? { return Err(merged.error); }
    if merged.value.additions == 0 { return Ok((document, 0)); }
    var result := Obj(Put(document.fields, "hooks", HooksJson(merged.value.events)));
    if !fits(result) { return Err(SettingsInvalid); }
    r := Ok((result, merged.value.additions));
  }

  // ------------------------------------------------- what a merge guarantees

  /** Exactly one saved group runs the generated command, and it equals the generated group. */
  predicate Present(target: seq<Json>, group: Json) {
    && IsGenerated(group)
    && var matches := Carriers(target, CommandOf(group));
      |matches| == 1 && PyEq(matches[0], group)
  }

  lemma {:induction false} CarriersOfAppend(target: seq<Json>, group: Json, command: string)
    ensures Carriers(target + [group], command)
         == Carriers(target, command) + if Carries(group, command) then [group] else []
    decreases target
  {
    if target == [] {
      assert [group][1..] == [];
      assert target + [group] == [group];
    } else {
      var all, last := target + [group], if Carries(group, command) then [group] else [];
      var first := if Carries(target[0], command) then [target[0]] else [];
      assert all[0] == target[0] && all[1..] == target[1..] + [group];
      CarriersOfAppend(target[1..], group, command);
      Associate(first, Carriers(target[1..], command), last);
    }
  }

  lemma Associate(a: seq<Json>, b: seq<Json>, c: seq<Json>)
    ensures a + (b + c) == a + b + c
  {
  }

  /** A generated group carries its own command and no other. */
  lemma CarriesOnlyItsCommand(group: Json, command: string)
    requires IsGenerated(group)
    ensures Carries(group, command) <==> command == CommandOf(group)
  {
    var handlers := HandlersOf(group);
    assert handlers[0].Obj?;
    if command == CommandOf(group) { assert RunsCommand(handlers[0], command); }
  }

  lemma AddGroupMakesPresent(target: seq<Json>, group: Json)
    requires Loaded(group) && AddGroup(target, group).Ok?
    ensures Present(AddGroup(target, group).value, group)
  {
    CarriersOfAppend(target, group, CommandOf(group));
    CarriesOnlyItsCommand(group, CommandOf(group));
    EqualToItself(group);
  }

  lemma AddGroupAppends(target: seq<Json>, group: Json)
    requires AddGroup(target, group).Ok?
    ensures var r := AddGroup(target, group).value; r == target || r == target + [group]
  {
  }

  lemma AddGroupKeepsPresent(target: seq<Json>, group: Json, other: Json)
    requires Present(target, other) && AddGroup(target, group).Ok?
    ensures Present(AddGroup(target, group).value, other)
  {
    CarriersOfAppend(target, group, CommandOf(other));
    CarriesOnlyItsCommand(group, CommandOf(other));
  }

  predicate AllLoaded(groups: seq<Json>) { forall j :: 0 <= j < |groups| ==> Loaded(groups[j]) }

  /** After a successful merge of one event every generated group is there exactly once, and
      the only new groups are generated ones. */
  lemma {:induction false} AddGroupsMakesPresent(target: seq<Json>, groups: seq<Json>)
    requires AllLoaded(groups) && AddGroups(target, groups).Ok?
    ensures var r := AddGroups(target, groups).value;
      && |target| <= |r| && r[..|target|] == target
      && (forall k :: |target| <= k < |r| ==> r[k] in groups)
      && (forall j :: 0 <= j < |groups| ==> Present(r, groups[j]))
    decreases |groups|
  {
    AddGroupsExtends(target, groups);
    if groups != [] {
      var front, last := groups[..|groups| - 1], groups[|groups| - 1];
      AddGroupsMakesPresent(target, front);
      var sofar, r := AddGroups(target, front).value, AddGroups(target, groups).value;
      AddGroupMakesPresent(sofar, last);
      AddGroupAppends(sofar, last);
      forall j | 0 <= j < |groups| ensures Present(r, groups[j]) {
        if j < |front| {
          assert groups[j] == front[j];
          AddGroupKeepsPresent(sofar, last, front[j]);
        }
      }
      forall k | |target| <= k < |r| ensures r[k] in groups {
        if k < |sofar| { assert r[k] == sofar[k] && sofar[k] in front; } else { assert r[k] == last; }
      }
    }
  }

  /** Groups that are all present are merged without a change. */
  lemma {:induction false} PresentGroupsAddNothing(target: seq<Json>, groups: seq<Json>)
    requires forall j :: 0 <= j < |groups| ==> Present(target, groups[j])
    ensures AddGroups(target, groups) == Ok(target)
    decreases |groups|
  {
    if groups != [] {
      assert Present(target, groups[|groups| - 1]);
      PresentGroupsAddNothing(target, groups[..|groups| - 1]);
    }
  }

  predicate GeneratedOk(generated: seq<Event>) {
    DistinctNames(generated) && forall i :: 0 <= i < |generated| ==> AllLoaded(generated[i].groups)
  }

  function BaseGroups(existing: seq<Event>, i: nat): seq<Json> { if i < |existing| then existing[i].groups else [] }

  /** How the event at position `i` of the result relates to the settings before: its prior
      groups come first and unchanged, and whatever follows was generated for that event. */
  predicate GrownEvent(existing: seq<Event>, generated: seq<Event>, result: seq<Event>, i: nat)
    requires i < |result|
  {
    var base := BaseGroups(existing, i);
    && (i < |existing| ==> result[i].name == existing[i].name)
    && |base| <= |result[i].groups| && result[i].groups[..|base|] == base
    && (forall j :: 0 <= j < |generated| && generated[j].name == result[i].name ==>
        GrownBy(generated[j], result[i].groups, base))
    && (!Names(generated, result[i].name) ==> i < |existing| && result[i].groups == base)
  }

  predicate GrownBy(event: Event, groups: seq<Json>, base: seq<Json>) {
    && |base| <= |groups|
    && (forall k :: |base| <= k < |groups| ==> groups[k] in event.groups)
    && (forall m :: 0 <= m < |event.groups| ==> Present(groups, event.groups[m]))
  }

  /** Merging only appends: positions, names and prior groups stay, new events go last. */
  predicate Grown(existing: seq<Event>, generated: seq<Event>, result: seq<Event>) {
    && DistinctNames(result) && |existing| <= |result|
    && (forall i :: 0 <= i < |result| ==> GrownEvent(existing, generated, result, i))
    && (forall j :: 0 <= j < |generated| ==> Names(result, generated[j].name))
  }

  lemma NothingGrows(existing: seq<Event>)
    requires DistinctNames(existing)
    ensures Grown(existing, [], existing)
  {
  }

  lemma FrontOk(generated: seq<Event>)
    requires GeneratedOk(generated) && generated != []
    ensures GeneratedOk(generated[..|generated| - 1])
    ensures generated[..|generated| - 1] + [generated[|generated| - 1]] == generated
  {
  }

  lemma {:induction false} AddEventsGrows(existing: seq<Event>, generated: seq<Event>)
    requires DistinctNames(existing) && GeneratedOk(generated)
    requires AddEvents(existing, generated).Ok?
    ensures Grown(existing, generated, AddEvents(existing, generated).value.events)
    decreases |generated|
  {
    if generated == [] {
      NothingGrows(existing);
    } else {
      var front, event := generated[..|generated| - 1], generated[|generated| - 1];
      FrontOk(generated);
      AddEventsGrows(existing, front);
      AddEventGrows(existing, front, AddEvents(existing, front).value.events, event, AddEvents(existing, generated).value.events);
    }
  }

  lemma AddEventGrows(existing: seq<Event>, front: seq<Event>, before: seq<Event>, event: Event, after: seq<Event>)
    requires Grown(existing, front, before) && GeneratedOk(front + [event])
    requires var groups := AddGroups(GroupsOf(before, event.name), event.groups);
      groups.Ok? && after == WithGroups(before, event.name, groups.value)
    ensures Grown(existing, front + [event], after)
  {
    var target := GroupsOf(before, event.name);
    var groups := AddGroups(target, event.groups).value;
    LastNameIsNew(front, event);
    assert AllLoaded((front + [event])[|front|].groups);
    AddGroupsMakesPresent(target, event.groups);
    var at := PositionOf(before, event.name, groups);
    forall i | 0 <= i < |after| ensures GrownEvent(existing, front + [event], after, i) {
      if i == at {
        TouchedEventGrows(existing, front, before, event, after, at, groups);
      } else {
        UntouchedEventGrows(existing, front, before, event, after, i);
      }
    }
    forall j | 0 <= j < |front + [event]| ensures Names(after, (front + [event])[j].name) {
      if j < |front| {
        assert Names(before, front[j].name);
        var i :| 0 <= i < |before| && before[i].name == front[j].name;
        assert after[i].name == front[j].name;
      } else {
        assert after[at].name == event.name;
      }
    }
  }

  lemma LastNameIsNew(front: seq<Event>, event: Event)
    requires DistinctNames(front + [event])
    ensures !Names(front, event.name)
  {
    var all := front + [event];
    assert all[|front|] == event && forall j :: 0 <= j < |front| ==> all[j] == front[j];
  }

  lemma NamesOfAppend(front: seq<Event>, event: Event, name: string)
    ensures Names(front + [event], name) <==> Names(front, name) || name == event.name
  {
    var all := front + [event];
    assert all[|front|] == event && forall j :: 0 <= j < |front| ==> all[j] == front[j];
    if j :| 0 <= j < |front| && front[j].name == name { assert all[j].name == name; }
  }

  lemma TouchedEventGrows(existing: seq<Event>, front: seq<Event>, before: seq<Event>, event: Event,
                          after: seq<Event>, at: nat, groups: seq<Json>)
    requires Grown(existing, front, before) && !Names(front, event.name)
    requires at <= |before| && at < |after| && after[at] == Event(event.name, groups)
    requires var target := if at < |before| then before[at].groups else [];
      GrownBy(event, groups, target) && groups[..|target|] == target
    requires at < |before| ==> before[at].name == event.name
    ensures GrownEvent(existing, front + [event], after, at)
  {
    var generated := front + [event];
    NamesOfAppend(front, event, event.name);
    if at < |before| {
      assert GrownEvent(existing, front, before, at);
    }
    forall j | 0 <= j < |generated| && generated[j].name == event.name
      ensures GrownBy(generated[j], groups, BaseGroups(existing, at))
    {
      assert j == |front|;
    }
  }

  lemma UntouchedEventGrows(existing: seq<Event>, front: seq<Event>, before: seq<Event>, event: Event,
                            after: seq<Event>, i: nat)
    requires Grown(existing, front, before)
    requires i < |before| && i < |after| && after[i] == before[i] && before[i].name != event.name
    ensures GrownEvent(existing, front + [event], after, i)
  {
    assert GrownEvent(existing, front, before, i);
    NamesOfAppend(front, event, before[i].name);
    var generated := front + [event];
    forall j | 0 <= j < |generated| && generated[j].name == after[i].name
      ensures GrownBy(generated[j], after[i].groups, BaseGroups(existing, i))
    {
      assert j < |front| && generated[j] == front[j];
    }
  }

  /** Where an event's groups are written: in place, or after the last event. */
  lemma PositionOf(events: seq<Event>, name: string, groups: seq<Json>) returns (at: nat)
    requires DistinctNames(events)
    ensures at <= |events|
    ensures at < |events| ==> events[at].name == name && GroupsOf(events, name) == events[at].groups
                              && WithGroups(events, name, groups) == events[at := Event(name, groups)]
    ensures at == |events| ==> !Names(events, name) && GroupsOf(events, name) == []
                               && WithGroups(events, name, groups) == events + [Event(name, groups)]
  {
    if i :| 0 <= i < |events| && events[i].name == name {
      NamedAt(events, name, i, groups);
      at := i;
    } else {
      NotNamed(events, name, groups);
      at := |events|;
    }
  }

  lemma PresentEventAddsNothing(existing: seq<Event>, generated: seq<Event>, result: seq<Event>, j: nat)
    requires Grown(existing, generated, result) && j < |generated|
    ensures AddEvent(Merged(result, 0), generated[j]) == Ok(Merged(result, 0))
  {
    var event := generated[j];
    assert Names(result, event.name);
    var i :| 0 <= i < |result| && result[i].name == event.name;
    assert GrownEvent(existing, generated, result, i);
    assert GrownBy(event, result[i].groups, BaseGroups(existing, i));
    SameGroupsWritten(result, event.name, i);
    PresentGroupsAddNothing(result[i].groups, event.groups);
  }

  lemma SameGroupsWritten(events: seq<Event>, name: string, i: nat)
    requires DistinctNames(events) && i < |events| && events[i].name == name
    ensures GroupsOf(events, name) == events[i].groups && WithGroups(events, name, events[i].groups) == events
  {
    NamedAt(events, name, i, events[i].groups);
    assert events[i := Event(name, events[i].groups)] == events;
  }

  lemma {:induction false} GrownEventsAddNothing(existing: seq<Event>, generated: seq<Event>, result: seq<Event>, upTo: nat)
    requires Grown(existing, generated, result) && upTo <= |generated|
    ensures AddEvents(result, generated[..upTo]) == Ok(Merged(result, 0))
    decreases upTo
  {
    if upTo > 0 {
      GrownEventsAddNothing(existing, generated, result, upTo - 1);
      PresentEventAddsNothing(existing, generated, result, upTo - 1);
      NextEvent(result, generated, upTo - 1);
    }
  }

  predicate Settings(document: Json) { Loaded(document) && document.Obj? }

  predicate Fragment(fragment: Json) { Loaded(fragment) && IsFragment(fragment) }

  lemma LoadedHooksAreDistinct(hooks: Json)
    requires Loaded(hooks) && IsHooks(hooks)
    ensures DistinctNames(EventsOf(hooks)) && GeneratedOk(EventsOf(hooks))
    ensures HooksJson(EventsOf(hooks)) == hooks
  {
    forall i | 0 <= i < |hooks.fields| ensures AllLoaded(hooks.fields[i].value.items) {
      assert Loaded(hooks.fields[i].value);
    }
    var back := HooksJson(EventsOf(hooks));
    forall i | 0 <= i < |hooks.fields| ensures back.fields[i] == hooks.fields[i] {
      assert hooks.fields[i].value == List(hooks.fields[i].value.items);
    }
    assert back.fields == hooks.fields;
  }

  lemma SavedHooksAreLoaded(document: Json)
    requires Settings(document)
    ensures Loaded(SavedHooks(document))
  {
    if i :| 0 <= i < |document.fields| && document.fields[i].key == "hooks" {
      GetFinds(document.fields, "hooks", Obj([]), i);
    } else {
      GetMisses(document.fields, "hooks", Obj([]));
    }
  }

  lemma EventsRoundTrip(events: seq<Event>)
    requires AllEventGroups(events)
    ensures IsHooks(HooksJson(events)) && EventsOf(HooksJson(events)) == events
  {
    var hooks := HooksJson(events);
    forall i | 0 <= i < |hooks.fields| ensures AllGroups(hooks.fields[i].value.items) {
      assert AllGroups(events[i].groups);
    }
    assert forall i :: 0 <= i < |events| ==> EventsOf(hooks)[i] == events[i];
  }

  /** The document's fields with an empty `hooks` object added when it had none. */
  function KeepingHooks(document: Json): seq<Field>
    requires document.Obj?
  {
    if HasKey(document.fields, "hooks") then document.fields else document.fields + [Field("hooks", Obj([]))]
  }

  /** Where the saved hooks are, and that writing them changes nothing else. */
  lemma HooksWritten(document: Json, hooks: Json)
    requires Settings(document)
    ensures var fields := Put(document.fields, "hooks", hooks);
      && Get(fields, "hooks", Obj([])) == hooks
      && |document.fields| <= |fields| <= |document.fields| + 1
      && (forall i :: 0 <= i < |document.fields| ==> fields[i].key == document.fields[i].key)
      && (forall i :: 0 <= i < |document.fields| && document.fields[i].key != "hooks" ==> fields[i] == document.fields[i])
      && (|fields| > |document.fields| ==> fields[|document.fields|] == Field("hooks", hooks) && !HasKey(document.fields, "hooks"))
      && Put(fields, "hooks", SavedHooks(document)) == KeepingHooks(document)
      && DistinctKeys(fields)
  {
    if i :| 0 <= i < |document.fields| && document.fields[i].key == "hooks" {
      GetFinds(document.fields, "hooks", Obj([]), i);
      assert HasKey(document.fields, "hooks") && document.fields[i] == Field("hooks", SavedHooks(document));
      HooksReplaced(document.fields, hooks, SavedHooks(document), i);
    } else {
      assert !HasKey(document.fields, "hooks");
      HooksAppended(document.fields, hooks);
      GetMisses(document.fields, "hooks", Obj([]));
    }
  }

  lemma HooksReplaced(fields: seq<Field>, hooks: Json, saved: Json, i: nat)
    requires DistinctKeys(fields) && i < |fields| && fields[i] == Field("hooks", saved)
    ensures Put(fields, "hooks", hooks) == fields[i := Field("hooks", hooks)] && DistinctKeys(Put(fields, "hooks", hooks))
    ensures Get(Put(fields, "hooks", hooks), "hooks", Obj([])) == hooks
    ensures Put(Put(fields, "hooks", hooks), "hooks", saved) == fields
  {
    PutReplaces(fields, "hooks", hooks, i);
    var written := fields[i := Field("hooks", hooks)];
    GetFinds(written, "hooks", Obj([]), i);
    PutReplaces(written, "hooks", saved, i);
  }

  lemma HooksAppended(fields: seq<Field>, hooks: Json)
    requires DistinctKeys(fields) && !HasKey(fields, "hooks")
    ensures Put(fields, "hooks", hooks) == fields + [Field("hooks", hooks)]
    ensures Get(Put(fields, "hooks", hooks), "hooks", Obj([])) == hooks
    ensures Put(Put(fields, "hooks", hooks), "hooks", Obj([])) == fields + [Field("hooks", Obj([]))]
    ensures DistinctKeys(Put(fields, "hooks", hooks))
  {
    GetMisses(fields, "hooks", hooks);
    var written := fields + [Field("hooks", hooks)];
    GetFinds(written, "hooks", Obj([]), |fields|);
    PutReplaces(written, "hooks", Obj([]), |fields|);
  }

  lemma GrownGroupsAreGroups(existing: seq<Event>, generated: seq<Event>, result: seq<Event>)
    requires Grown(existing, generated, result) && AllEventGroups(existing) && AllEventGroups(generated)
    ensures AllEventGroups(result)
  {
    forall i, k | 0 <= i < |result| && 0 <= k < |result[i].groups| ensures IsGroup(result[i].groups[k]) {
      assert GrownEvent(existing, generated, result, i);
      var base := BaseGroups(existing, i);
      if k < |base| {
        assert result[i].groups[k] == result[i].groups[..|base|][k] == base[k];
        assert i < |existing| && AllGroups(existing[i].groups);
      } else {
        var j :| 0 <= j < |generated| && generated[j].name == result[i].name;
        assert GrownBy(generated[j], result[i].groups, base);
        assert AllGroups(generated[j].groups);
      }
    }
  }

  lemma MergedEvents(document: Json, fragment: Json, fits: Json -> bool)
    requires Settings(document) && Fragment(fragment) && Merge(document, fragment, fits).Ok?
    ensures IsHooks(SavedHooks(document))
    ensures var before := EventsOf(SavedHooks(document)); var generated := GeneratedEvents(fragment);
      && DistinctNames(before) && GeneratedOk(generated)
      && AddEvents(before, generated).Ok?
      && var after := AddEvents(before, generated).value.events;
        Grown(before, generated, after) && AllEventGroups(after)
  {
    SavedHooksAreLoaded(document);
    LoadedHooksAreDistinct(SavedHooks(document));
    LoadedHooksAreDistinct(fragment.fields[0].value);
    var before, generated := EventsOf(SavedHooks(document)), GeneratedEvents(fragment);
    AddEventsGrows(before, generated);
    GrownGroupsAreGroups(before, generated, AddEvents(before, generated).value.events);
  }

  /** Every generated group is among the groups of its event exactly once. */
  predicate AllPresent(events: seq<Event>, generated: seq<Event>) {
    forall j, m :: 0 <= j < |generated| && 0 <= m < |generated[j].groups| ==>
      Present(GroupsOf(events, generated[j].name), generated[j].groups[m])
  }

  lemma GrownArePresent(existing: seq<Event>, generated: seq<Event>, result: seq<Event>)
    requires Grown(existing, generated, result)
    ensures AllPresent(result, generated)
  {
    forall j, m | 0 <= j < |generated| && 0 <= m < |generated[j].groups|
      ensures Present(GroupsOf(result, generated[j].name), generated[j].groups[m])
    {
      assert Names(result, generated[j].name);
      var i :| 0 <= i < |result| && result[i].name == generated[j].name;
      assert GrownEvent(existing, generated, result, i);
      assert GrownBy(generated[j], result[i].groups, BaseGroups(existing, i));
      NamedAt(result, generated[j].name, i, []);
    }
  }

  lemma {:induction false} GroupsAfterWrite(events: seq<Event>, name: string, groups: seq<Json>, other: string)
    ensures GroupsOf(WithGroups(events, name, groups), other) == if other == name then groups else GroupsOf(events, other)
    decreases events
  {
    if events != [] && events[0].name != name { GroupsAfterWrite(events[1..], name, groups, other); }
  }

  /** A merge that counts no addition leaves every event the groups it had. */
  lemma {:induction false} NothingAddedSameGroups(existing: seq<Event>, generated: seq<Event>, name: string)
    requires AddEvents(existing, generated).Ok? && AddEvents(existing, generated).value.additions == 0
    ensures GroupsOf(AddEvents(existing, generated).value.events, name) == GroupsOf(existing, name)
    decreases |generated|
  {
    if generated != [] {
      var front, event := generated[..|generated| - 1], generated[|generated| - 1];
      var before := AddEvents(existing, front).value.events;
      var target := GroupsOf(before, event.name);
      var groups := AddGroups(target, event.groups).value;
      AddGroupsExtends(target, event.groups);
      NothingAddedSameGroups(existing, front, name);
      assert groups == groups[..|target|] == target;
      GroupsAfterWrite(before, event.name, groups, name);
    }
  }

  lemma MergedArePresent(existing: seq<Event>, generated: seq<Event>)
    requires AddEvents(existing, generated).Ok? && Grown(existing, generated, AddEvents(existing, generated).value.events)
    ensures var merged := AddEvents(existing, generated).value;
      AllPresent(if merged.additions == 0 then existing else merged.events, generated)
  {
    var merged := AddEvents(existing, generated).value;
    GrownArePresent(existing, generated, merged.events);
    if merged.additions == 0 {
      forall j | 0 <= j < |generated| ensures GroupsOf(merged.events, generated[j].name) == GroupsOf(existing, generated[j].name) {
        NothingAddedSameGroups(existing, generated, generated[j].name);
      }
    }
  }

  /** Merging keeps every other key at its place with its value, grows the hooks only by
      appending generated groups, and leaves each of these there exactly once, whether it
      added any or not. */
  lemma MergeOnlyAppends(document: Json, fragment: Json, fits: Json -> bool)
    requires Settings(document) && Fragment(fragment) && Merge(document, fragment, fits).Ok?
    ensures var (result, additions) := Merge(document, fragment, fits).value;
      && result.Obj? && IsHooks(SavedHooks(document)) && IsHooks(SavedHooks(result))
      && |document.fields| <= |result.fields| <= |document.fields| + 1
      && (forall i :: 0 <= i < |document.fields| ==> result.fields[i].key == document.fields[i].key)
      && (forall i :: 0 <= i < |document.fields| && document.fields[i].key != "hooks" ==> result.fields[i] == document.fields[i])
      && (|result.fields| > |document.fields| ==> result.fields[|document.fields|].key == "hooks")
      && (additions == 0 ==> result == document)
      && (additions > 0 ==>
            Grown(EventsOf(SavedHooks(document)), GeneratedEvents(fragment), EventsOf(SavedHooks(result))))
      && AllPresent(EventsOf(SavedHooks(result)), GeneratedEvents(fragment))
  {
    MergedEvents(document, fragment, fits);
    MergedArePresent(EventsOf(SavedHooks(document)), GeneratedEvents(fragment));
    var merged := AddEvents(EventsOf(SavedHooks(document)), GeneratedEvents(fragment)).value;
    HooksWritten(document, HooksJson(merged.events));
    EventsRoundTrip(merged.events);
  }

  /** A second merge of the same fragment finds everything present: it adds nothing and
      returns its input. */
  lemma MergeIsIdempotent(document: Json, fragment: Json, fits: Json -> bool)
    requires Settings(document) && Fragment(fragment) && Merge(document, fragment, fits).Ok?
    ensures var (result, additions) := Merge(document, fragment, fits).value;
      Merge(result, fragment, fits) == Ok((result, 0))
  {
    MergedEvents(document, fragment, fits);
    var before, generated := EventsOf(SavedHooks(document)), GeneratedEvents(fragment);
    var merged := AddEvents(before, generated).value;
    if merged.additions > 0 {
      HooksWritten(document, HooksJson(merged.events));
      EventsRoundTrip(merged.events);
      GrownEventsAddNothing(before, generated, merged.events, |generated|);
      assert generated[..|generated|] == generated;
    }
  }

  // ------------------------------------------------------- what decides a merge

  /** A generated group finds no other group for its command: neither a saved one, unless that
      is the only one and equal, nor a different one generated before it. */
  predicate Welcome(saved: seq<Json>, earlier: seq<Json>, group: Json) {
    && IsGenerated(group)
    && var there, before := Carriers(saved, CommandOf(group)), Carriers(earlier, CommandOf(group));
      if there != [] then |there| == 1 && PyEq(there[0], group) else before == [] || PyEq(before[0], group)
  }

  predicate AllWelcome(saved: seq<Json>, groups: seq<Json>) {
    forall m :: 0 <= m < |groups| ==> Welcome(saved, groups[..m], groups[m])
  }

  lemma WelcomeFront(saved: seq<Json>, groups: seq<Json>)
    requires groups != []
    ensures var front := groups[..|groups| - 1];
      AllWelcome(saved, groups) <==> AllWelcome(saved, front) && Welcome(saved, front, groups[|groups| - 1])
  {
    var front := groups[..|groups| - 1];
    assert forall m :: 0 <= m < |front| ==> groups[..m] == front[..m] && groups[m] == front[m];
    assert groups[..|front|] == front;
  }

  /** The groups for a command once all are welcome: the saved one, or the first generated. */
  lemma {:induction false} WelcomeCarriers(saved: seq<Json>, groups: seq<Json>, command: string)
    requires AddGroups(saved, groups).Ok? && forall m :: 0 <= m < |groups| ==> IsGenerated(groups[m])
    ensures var there, before := Carriers(saved, command), Carriers(groups, command);
      Carriers(AddGroups(saved, groups).value, command) == if there != [] then there else if before == [] then [] else [before[0]]
    decreases |groups|
  {
    if groups != [] {
      var front, last := groups[..|groups| - 1], groups[|groups| - 1];
      assert front + [last] == groups;
      WelcomeCarriers(saved, front, command);
      var sofar := AddGroups(saved, front).value;
      CarriersOfAppend(front, last, command);
      CarriesOnlyItsCommand(last, command);
      CarriersOfAppend(sofar, last, command);
      if command != CommandOf(last) { AddGroupAppends(sofar, last); }
    }
  }

  lemma {:induction false} GroupsAddedExactly(saved: seq<Json>, groups: seq<Json>)
    ensures AddGroups(saved, groups).Ok? <==> AllWelcome(saved, groups)
    ensures AddGroups(saved, groups).Ok? ==> forall m :: 0 <= m < |groups| ==> IsGenerated(groups[m])
    ensures AddGroups(saved, groups).Err? && (forall m :: 0 <= m < |groups| ==> IsGenerated(groups[m])) ==>
      AddGroups(saved, groups) == Err(SettingsConflict)
    decreases |groups|
  {
    if groups != [] {
      var front, last := groups[..|groups| - 1], groups[|groups| - 1];
      GroupsAddedExactly(saved, front);
      WelcomeFront(saved, groups);
      if AddGroups(saved, front).Ok? && IsGenerated(last) { WelcomeCarriers(saved, front, CommandOf(last)); }
    }
  }

  /** Every event's groups are welcome among the groups saved for it. */
  predicate Accepted(existing: seq<Event>, generated: seq<Event>) {
    forall j :: 0 <= j < |generated| ==> AllWelcome(GroupsOf(existing, generated[j].name), generated[j].groups)
  }

  predicate AllGenerated(generated: seq<Event>) {
    forall j, m :: 0 <= j < |generated| && 0 <= m < |generated[j].groups| ==> IsGenerated(generated[j].groups[m])
  }

  lemma AcceptedFront(existing: seq<Event>, generated: seq<Event>)
    requires generated != []
    ensures var front, last := generated[..|generated| - 1], generated[|generated| - 1];
      && (Accepted(existing, generated) <==> Accepted(existing, front) && AllWelcome(GroupsOf(existing, last.name), last.groups))
      && (AllGenerated(generated) ==> AllGenerated(front) && forall m :: 0 <= m < |last.groups| ==> IsGenerated(last.groups[m]))
  {
    var front := generated[..|generated| - 1];
    assert forall j :: 0 <= j < |front| ==> generated[j] == front[j];
  }

  /** An event that was not generated keeps the groups it had. */
  lemma {:induction false} OtherEventsKept(existing: seq<Event>, generated: seq<Event>, name: string)
    requires AddEvents(existing, generated).Ok? && !Names(generated, name)
    ensures GroupsOf(AddEvents(existing, generated).value.events, name) == GroupsOf(existing, name)
    decreases |generated|
  {
    if generated != [] {
      var front, event := generated[..|generated| - 1], generated[|generated| - 1];
      assert front + [event] == generated;
      NamesOfAppend(front, event, name);
      OtherEventsKept(existing, front, name);
      var before := AddEvents(existing, front).value.events;
      GroupsAfterWrite(before, event.name, AddGroups(GroupsOf(before, event.name), event.groups).value, name);
    }
  }

  lemma {:induction false} EventsAddedExactly(existing: seq<Event>, generated: seq<Event>)
    requires DistinctNames(generated)
    ensures AddEvents(existing, generated).Ok? <==> Accepted(existing, generated)
    ensures AddEvents(existing, generated).Err? && AllGenerated(generated) ==> AddEvents(existing, generated) == Err(SettingsConflict)
    decreases |generated|
  {
    if generated != [] {
      var front, event := generated[..|generated| - 1], generated[|generated| - 1];
      assert front + [event] == generated;
      EventsAddedExactly(existing, front);
      AcceptedFront(existing, generated);
      if AddEvents(existing, front).Ok? {
        LastNameIsNew(front, event);
        OtherEventsKept(existing, front, event.name);
        GroupsAddedExactly(GroupsOf(existing, event.name), event.groups);
      }
    }
  }

  /** Exactly these settings take a fragment: their hooks are well formed, and every generated
      group finds no group for its command, or exactly one that equals it. Where the fragment
      is well formed, the only other answer for such hooks is a conflict. */
  lemma MergeSucceedsExactly(document: Json, fragment: Json, fits: Json -> bool)
    requires Settings(document) && Fragment(fragment) && forall result :: fits(result)
    ensures Merge(document, fragment, fits).Ok? <==>
      IsHooks(SavedHooks(document)) && Accepted(EventsOf(SavedHooks(document)), GeneratedEvents(fragment))
    ensures Merge(document, fragment, fits).Err? && IsHooks(SavedHooks(document)) && AllGenerated(GeneratedEvents(fragment)) ==>
      Merge(document, fragment, fits) == Err(SettingsConflict)
  {
    if IsHooks(SavedHooks(document)) {
      LoadedHooksAreDistinct(fragment.fields[0].value);
      EventsAddedExactly(EventsOf(SavedHooks(document)), GeneratedEvents(fragment));
    }
  }

  // ----------------------------------------------------------------- removal

  predicate EqualsOneOf(group: Json, generated: seq<Json>) {
    exists j :: 0 <= j < |generated| && PyEq(group, generated[j])
  }

  /** `[group for group in existing if group not in generated]`. */
  function Without(existing: seq<Json>, generated: seq<Json>): (r: seq<Json>)
    ensures |r| <= |existing|
  {
    if existing == [] then []
    else (if EqualsOneOf(existing[0], generated) then [] else [existing[0]]) + Without(existing[1..], generated)
  }

  datatype Removal = Removal(events: seq<Event>, removed: nat)

  function RemoveEvent(sofar: Removal, event: Event): Removal {
    var existing := GroupsOf(sofar.events, event.name);
    var remaining := Without(existing, event.groups);
    var removed := sofar.removed + |existing| - |remaining|;
    if remaining != [] then Removal(WithGroups(sofar.events, event.name, remaining), removed)
    else if Names(sofar.events, event.name) && |existing| != |remaining| then
      Removal(WithoutEvent(sofar.events, event.name), removed)
    else Removal(sofar.events, removed)
  }

  function RemoveEvents(existing: seq<Event>, generated: seq<Event>): Removal
    decreases |generated|
  {
    if generated == [] then Removal(existing, 0)
    else RemoveEvent(RemoveEvents(existing, generated[..|generated| - 1]), generated[|generated| - 1])
  }

  /** `remove`: the discarded merge only checks the fragment and rejects conflicts. */
  function Remove(document: Json, fragment: Json, fits: Json -> bool): Result<(Json, nat), Rejection> {
    match Merge(document, fragment, fits)
    case Err(e) => Err(e)
    case Ok(_) =>
      var removal := RemoveEvents(EventsOf(SavedHooks(document)), GeneratedEvents(fragment));
      if removal.removed == 0 then Ok((document, 0))
      else
        var result := Obj(Put(document.fields, "hooks", HooksJson(removal.events)));
        if fits(result) then Ok((result, removal.removed)) else Err(SettingsInvalid)
  }

  method FilterGroups(existing: seq<Json>, generated: seq<Json>) returns (remaining: seq<Json>)
    ensures remaining == Without(existing, generated)
  {
    remaining := [];
    for i := 0 to |existing|
      invariant remaining + Without(existing[i..], generated) == Without(existing, generated)
    {
      WithoutFrom(existing, generated, i, remaining);
      if !EqualsOneOf(existing[i], generated) { remaining := remaining + [existing[i]]; }
    }
  }

  lemma WithoutFrom(existing: seq<Json>, generated: seq<Json>, i: nat, lead: seq<Json>)
    requires i < |existing|
    ensures lead + Without(existing[i..], generated)
         == (if EqualsOneOf(existing[i], generated) then lead else lead + [existing[i]]) + Without(existing[i + 1..], generated)
  {
    assert existing[i..][1..] == existing[i + 1..];
  }

  method RemoveSettings(document: Json, fragment: Json, fits: Json -> bool) returns (r: Result<(Json, nat), Rejection>)
    ensures r == Remove(document, fragment, fits)
  {
    var checked := MergeSettings(document, fragment, fits);
    if checked.Err? { return Err(checked.error); }
    var hooks, generated := EventsOf(SavedHooks(document)), GeneratedEvents(fragment);
    var removed: nat := 0;
    ghost var saved := hooks;
    for i := 0 to |generated|
      invariant RemoveEvents(saved, generated[..i]) == Removal(hooks, removed)
    {
      var event := generated[i];
      assert generated[..i + 1][..i] == generated[..i];
      var existing := GroupsOf(hooks, event.name);
      var remaining := FilterGroups(existing, event.groups);
      removed := removed + |existing| - |remaining|;
      if remaining != [] {
        hooks := WithGroups(hooks, event.name, remaining);
      } else if Names(hooks, event.name) && |existing| != |remaining| {
        hooks := WithoutEvent(hooks, event.name);
      }
    }
    assert generated[..|generated|] == generated;
    if removed == 0 { return Ok((document, 0)); }
    var result := Obj(Put(document.fields, "hooks", HooksJson(hooks)));
    if !fits(result) { return Err(SettingsInvalid); }
    r := Ok((result, removed));
  }

  /** What removal leaves of one event: nothing, or the event with its other groups. */
  function Treat(event: Event, generated: seq<Event>): seq<Event> {
    if !Names(generated, event.name) then [event]
    else
      var remaining := Without(event.groups, GroupsOf(generated, event.name));
      if remaining != [] then [Event(event.name, remaining)]
      else if event.groups != [] then []
      else [event]
  }

  /** Removal in one pass over the saved events, each treated on its own. */
  function Survivors(events: seq<Event>, generated: seq<Event>): seq<Event> {
    if events == [] then [] else Treat(events[0], generated) + Survivors(events[1..], generated)
  }

  function TotalGroups(events: seq<Event>): nat {
    if events == [] then 0 else |events[0].groups| + TotalGroups(events[1..])
  }

  lemma {:induction false} SurvivorsOfConcat(a: seq<Event>, b: seq<Event>, generated: seq<Event>)
    ensures Survivors(a + b, generated) == Survivors(a, generated) + Survivors(b, generated)
    ensures TotalGroups(a + b) == TotalGroups(a) + TotalGroups(b)
    decreases a
  {
    if a == [] {
      assert a + b == b;
    } else {
      assert (a + b)[1..] == a[1..] + b;
      SurvivorsOfConcat(a[1..], b, generated);
    }
  }

  lemma {:induction false} UnnamedSurvive(events: seq<Event>, generated: seq<Event>)
    requires forall i :: 0 <= i < |events| ==> !Names(generated, events[i].name)
    ensures Survivors(events, generated) == events
    decreases events
  {
    if events != [] { UnnamedSurvive(events[1..], generated); }
  }

  lemma SurvivorsAround(front: seq<Event>, middle: Event, back: seq<Event>, event: Event)
    requires !Names(front, event.name) && !Names(back, event.name)
    ensures Survivors(front + [middle] + back, [event]) == front + Treat(middle, [event]) + back
  {
    SurvivorsOfConcat(front + [middle], back, [event]);
    SurvivorsOfConcat(front, [middle], [event]);
    OneSurvives(middle, [event]);
    OthersSurvive(front, event);
    OthersSurvive(back, event);
  }

  lemma OneSurvives(event: Event, generated: seq<Event>)
    ensures Survivors([event], generated) == Treat(event, generated)
  {
    assert [event][1..] == [];
  }

  lemma OthersSurvive(events: seq<Event>, event: Event)
    requires !Names(events, event.name)
    ensures Survivors(events, [event]) == events
  {
    OnlyName(event);
    assert forall i :: 0 <= i < |events| ==> events[i].name != event.name;
    UnnamedSurvive(events, [event]);
  }

  lemma TotalAround(front: seq<Event>, middle: Event, back: seq<Event>)
    ensures TotalGroups(front + [middle] + back) == TotalGroups(front) + |middle.groups| + TotalGroups(back)
  {
    SurvivorsOfConcat(front + [middle], back, []);
    SurvivorsOfConcat(front, [middle], []);
    SingleTotal(middle);
  }

  lemma OnlyName(event: Event)
    ensures forall name :: Names([event], name) <==> name == event.name
    ensures GroupsOf([event], event.name) == event.groups
  {
    assert [event][0].name == event.name;
  }

  /** Removing one generated event is treating every saved event against it alone. */
  lemma RemoveEventTreats(events: seq<Event>, event: Event)
    requires DistinctNames(events)
    ensures var r := RemoveEvent(Removal(events, 0), event);
      r.events == Survivors(events, [event]) && r.removed == TotalGroups(events) - TotalGroups(r.events)
  {
    if Names(events, event.name) {
      var i :| 0 <= i < |events| && events[i].name == event.name;
      assert events == events[..i] + [events[i]] + events[i + 1..];
      RemoveNamedEvent(events[..i], events[i], events[i + 1..], event);
    } else {
      RemoveUnnamedEvent(events, event);
    }
  }

  lemma RemoveUnnamedEvent(events: seq<Event>, event: Event)
    requires !Names(events, event.name)
    ensures RemoveEvent(Removal(events, 0), event) == Removal(events, 0) && Survivors(events, [event]) == events
  {
    OnlyName(event);
    UnnamedSurvive(events, [event]);
  }

  lemma RemoveNamedEvent(front: seq<Event>, middle: Event, back: seq<Event>, event: Event)
    requires middle.name == event.name && DistinctNames(front + [middle] + back)
    ensures var events := front + [middle] + back; var r := RemoveEvent(Removal(events, 0), event);
      r.events == Survivors(events, [event]) && r.removed == TotalGroups(events) - TotalGroups(r.events)
  {
    var treated := Treat(middle, [event]);
    RemoveEventInPlace(front, middle, back, event);
    SurvivorsAround(front, middle, back, event);
    TotalAround(front, middle, back);
    SurvivorsOfConcat(front + treated, back, [event]);
    SurvivorsOfConcat(front, treated, [event]);
    if treated != [] { SingleTotal(treated[0]); }
  }

  lemma NamedOnce(front: seq<Event>, middle: Event, back: seq<Event>)
    requires DistinctNames(front + [middle] + back)
    ensures !Names(front, middle.name) && !Names(back, middle.name) && Names(front + [middle] + back, middle.name)
  {
    var events, i := front + [middle] + back, |front|;
    assert events[i] == middle;
    assert forall j :: 0 <= j < |front| ==> front[j] == events[j];
    assert forall j :: 0 <= j < |back| ==> back[j] == events[i + 1 + j];
  }

  /** The groups of the one event of that name, and the list with it replaced or gone. */
  lemma MiddleAt(front: seq<Event>, middle: Event, back: seq<Event>, groups: seq<Json>)
    requires DistinctNames(front + [middle] + back)
    ensures var events := front + [middle] + back;
      && GroupsOf(events, middle.name) == middle.groups
      && WithGroups(events, middle.name, groups) == front + [Event(middle.name, groups)] + back
      && WithoutEvent(events, middle.name) == front + back
  {
    var events, i := front + [middle] + back, |front|;
    assert events[i] == middle && events[..i] == front && events[i + 1..] == back;
    NamedAt(events, middle.name, i, groups);
    assert events[i := Event(middle.name, groups)] == front + [Event(middle.name, groups)] + back;
  }

  lemma RemoveEventInPlace(front: seq<Event>, middle: Event, back: seq<Event>, event: Event)
    requires middle.name == event.name && DistinctNames(front + [middle] + back)
    ensures !Names(front, event.name) && !Names(back, event.name)
    ensures var treated := Treat(middle, [event]); var r := RemoveEvent(Removal(front + [middle] + back, 0), event);
      && r.events == front + treated + back
      && r.removed == |middle.groups| - TotalGroups(treated)
      && (treated != [] ==> treated == [treated[0]])
  {
    var remaining := Without(middle.groups, event.groups);
    NamedOnce(front, middle, back);
    MiddleAt(front, middle, back, remaining);
    OnlyName(event);
    SingleTotal(Event(event.name, remaining));
    SingleTotal(middle);
    assert front + [] + back == front + back;
  }

  lemma SingleTotal(event: Event)
    ensures TotalGroups([event]) == |event.groups|
  {
    assert [event][1..] == [];
  }

  lemma NamesFirstOrRest(events: seq<Event>, name: string)
    requires events != []
    ensures Names(events, name) <==> events[0].name == name || Names(events[1..], name)
  {
    var rest := events[1..];
    assert forall i :: 0 <= i < |rest| ==> rest[i] == events[i + 1];
    if i :| 0 <= i < |events| && events[i].name == name && i > 0 { assert rest[i - 1].name == name; }
    if i :| 0 <= i < |rest| && rest[i].name == name { assert events[i + 1].name == name; }
  }

  lemma {:induction false} GroupsOfAppend(front: seq<Event>, event: Event, name: string)
    ensures GroupsOf(front + [event], name)
         == if Names(front, name) then GroupsOf(front, name) else if name == event.name then event.groups else []
    ensures Names(front + [event], name) <==> Names(front, name) || name == event.name
    decreases front
  {
    if front == [] {
      assert front + [event] == [event];
      OnlyName(event);
      assert name != event.name ==> GroupsOf([event], name) == GroupsOf([event][1..], name) == [];
    } else {
      assert (front + [event])[1..] == front[1..] + [event];
      GroupsOfAppend(front[1..], event, name);
      NamesFirstOrRest(front, name);
      NamesFirstOrRest(front + [event], name);
    }
  }

  lemma {:induction false} SurvivorsCompose(events: seq<Event>, front: seq<Event>, event: Event)
    requires !Names(front, event.name)
    ensures Survivors(Survivors(events, front), [event]) == Survivors(events, front + [event])
    decreases events
  {
    if events != [] {
      SurvivorsCompose(events[1..], front, event);
      SurvivorsOfConcat(Treat(events[0], front), Survivors(events[1..], front), [event]);
      GroupsOfAppend(front, event, events[0].name);
      GroupsOfAppend([], event, events[0].name);
      assert [] + [event] == [event];
      var first := Treat(events[0], front);
      if first != [] {
        assert first[0].name == events[0].name;
        assert Survivors(first, [event]) == Treat(first[0], [event]) + Survivors(first[1..], [event]);
      }
    }
  }

  lemma {:induction false} SurvivorsKeepNames(events: seq<Event>, generated: seq<Event>)
    requires DistinctNames(events)
    ensures DistinctNames(Survivors(events, generated))
    ensures forall i :: 0 <= i < |Survivors(events, generated)| ==> Names(events, Survivors(events, generated)[i].name)
    decreases events
  {
    if events != [] {
      var first, rest := Treat(events[0], generated), Survivors(events[1..], generated);
      SurvivorsKeepNames(events[1..], generated);
      assert forall i :: 0 <= i < |events[1..]| ==> events[1..][i] == events[i + 1];
      forall i | 0 <= i < |rest| ensures Names(events, rest[i].name) && rest[i].name != events[0].name {
        var j :| 0 <= j < |events[1..]| && events[1..][j].name == rest[i].name;
        assert events[j + 1].name == rest[i].name;
      }
      assert events[0].name == events[0].name && Names(events, events[0].name);
    }
  }

  /** Removal event by event is the one pass. */
  lemma {:induction false} RemoveEventsTreats(existing: seq<Event>, generated: seq<Event>)
    requires DistinctNames(existing) && DistinctNames(generated)
    ensures var r := RemoveEvents(existing, generated);
      r.events == Survivors(existing, generated) && r.removed == TotalGroups(existing) - TotalGroups(r.events)
    decreases |generated|
  {
    if generated == [] {
      UnnamedSurvive(existing, generated);
    } else {
      var front, event := generated[..|generated| - 1], generated[|generated| - 1];
      RemoveEventsTreats(existing, front);
      var before := RemoveEvents(existing, front);
      SurvivorsKeepNames(existing, front);
      RemoveEventTreats(before.events, event);
      assert !Names(front, event.name) by {
        assert forall j :: 0 <= j < |front| ==> front[j] == generated[j];
      }
      SurvivorsCompose(existing, front, event);
      assert front + [event] == generated;
    }
  }

  function Shifted(positions: seq<nat>): seq<nat> { seq(|positions|, a requires 0 <= a < |positions| => positions[a] + 1) }

  lemma ShiftedMembers(positions: seq<nat>, i: nat)
    ensures i in Shifted(positions) <==> i > 0 && i - 1 in positions
  {
    var shifted := Shifted(positions);
    if a :| 0 <= a < |shifted| && shifted[a] == i { assert positions[a] == i - 1; }
    if i > 0 {
      if a :| 0 <= a < |positions| && positions[a] == i - 1 { assert shifted[a] == i; }
    }
  }

  predicate IncreasingPositions(positions: seq<nat>, bound: nat) {
    && (forall a, b :: 0 <= a < b < |positions| ==> positions[a] < positions[b])
    && (forall a :: 0 <= a < |positions| ==> positions[a] < bound)
  }

  /** The groups at the positions. */
  function Picked(groups: seq<Json>, positions: seq<nat>): seq<Json>
    requires IncreasingPositions(positions, |groups|)
  {
    seq(|positions|, a requires 0 <= a < |positions| => groups[positions[a]])
  }

  lemma PickedShifted(groups: seq<Json>, positions: seq<nat>)
    requires groups != [] && IncreasingPositions(positions, |groups| - 1)
    ensures IncreasingPositions(Shifted(positions), |groups|) && Picked(groups, Shifted(positions)) == Picked(groups[1..], positions)
  {
    var picked, rest := Picked(groups, Shifted(positions)), Picked(groups[1..], positions);
    forall a | 0 <= a < |positions| ensures picked[a] == rest[a] { assert groups[1..][positions[a]] == groups[positions[a] + 1]; }
  }

  lemma PickedFirst(groups: seq<Json>, shifted: seq<nat>)
    requires groups != [] && IncreasingPositions(shifted, |groups|) && forall a :: 0 <= a < |shifted| ==> shifted[a] > 0
    ensures IncreasingPositions([0] + shifted, |groups|) && Picked(groups, [0] + shifted) == [groups[0]] + Picked(groups, shifted)
  {
    var all := [0] + shifted;
    assert forall a :: 0 < a < |all| ==> all[a] == shifted[a - 1];
    assert IncreasingPositions(all, |groups|);
    var picked, rest := Picked(groups, all), [groups[0]] + Picked(groups, shifted);
    forall a | 0 <= a < |all| ensures picked[a] == rest[a] { if a > 0 { assert picked[a] == groups[shifted[a - 1]]; } }
  }

  lemma PickedFurther(groups: seq<Json>, positions: seq<nat>, first: bool)
    requires groups != [] && IncreasingPositions(positions, |groups| - 1)
    ensures var all := (if first then [0] else []) + Shifted(positions);
      IncreasingPositions(all, |groups|) && Picked(groups, all) == (if first then [groups[0]] else []) + Picked(groups[1..], positions)
  {
    PickedShifted(groups, positions);
    if first { PickedFirst(groups, Shifted(positions)); } else { assert [] + Shifted(positions) == Shifted(positions); }
  }

  /** What removal keeps of a list: exactly the groups that equal none of the generated ones, in
      their order. */
  lemma {:induction false} WithoutFilters(existing: seq<Json>, generated: seq<Json>) returns (kept: seq<nat>)
    ensures IncreasingPositions(kept, |existing|) && Without(existing, generated) == Picked(existing, kept)
    ensures forall i: nat :: i < |existing| ==> (i in kept <==> !EqualsOneOf(existing[i], generated))
    decreases existing
  {
    kept := [];
    if existing != [] {
      var more := WithoutFilters(existing[1..], generated);
      var first := !EqualsOneOf(existing[0], generated);
      kept := (if first then [0] else []) + Shifted(more);
      PickedFurther(existing, more, first);
      forall i: nat | i < |existing| ensures i in kept <==> !EqualsOneOf(existing[i], generated) {
        ShiftedMembers(more, i);
        if i > 0 { assert existing[1..][i - 1] == existing[i]; }
      }
    }
  }

  /** Removal treats one saved event: one that was not generated stays; of a generated one the
      equal groups go, and the event with them if it loses its last group. */
  lemma RemovedFromEvent(event: Event, generated: seq<Event>) returns (kept: seq<nat>)
    requires DistinctNames(generated)
    ensures !Names(generated, event.name) ==> Treat(event, generated) == [event]
    ensures IncreasingPositions(kept, |event.groups|)
    ensures forall i: nat, j :: i < |event.groups| && 0 <= j < |generated| && generated[j].name == event.name ==>
      (i in kept <==> !EqualsOneOf(event.groups[i], generated[j].groups))
    ensures Names(generated, event.name) ==>
      Treat(event, generated) == if kept == [] && event.groups != [] then [] else [Event(event.name, Picked(event.groups, kept))]
  {
    kept := WithoutFilters(event.groups, GroupsOf(generated, event.name));
    forall j | 0 <= j < |generated| && generated[j].name == event.name ensures generated[j].groups == GroupsOf(generated, event.name) {
      NamedAt(generated, event.name, j, []);
    }
  }

  // ------------------------------------------------ removal undoes a merge

  /** No saved group of a generated event equals one of that event's generated groups. */
  predicate HoldsNone(existing: seq<Event>, generated: seq<Event>) {
    forall i, j :: 0 <= i < |existing| && 0 <= j < |generated| && existing[i].name == generated[j].name ==>
      NoneEqual(existing[i].groups, generated[j].groups)
  }

  predicate NoneEqual(groups: seq<Json>, generated: seq<Json>) {
    forall k :: 0 <= k < |groups| ==> !EqualsOneOf(groups[k], generated)
  }

  lemma {:induction false} WithoutGrown(groups: seq<Json>, base: nat, generated: seq<Json>)
    requires base <= |groups| && NoneEqual(groups[..base], generated) && AllLoaded(generated)
    requires forall k :: base <= k < |groups| ==> groups[k] in generated
    ensures Without(groups, generated) == groups[..base]
    decreases groups
  {
    if groups != [] {
      var rest := groups[1..];
      if base > 0 {
        var prior, tail := groups[..base], rest[..base - 1];
        assert tail == prior[1..] && groups[0] == prior[0];
        assert forall k :: 0 <= k < |tail| ==> tail[k] == prior[k + 1];
        WithoutGrown(rest, base - 1, generated);
      } else {
        var j :| 0 <= j < |generated| && generated[j] == groups[0];
        EqualToItself(generated[j]);
        WithoutGrown(rest, 0, generated);
      }
    }
  }

  /** What removal leaves of the event at position `i` of a merge result: the prior groups;
      an event without prior groups goes once the merge had added groups to it. */
  function RestoredEvent(existing: seq<Event>, result: seq<Event>, i: nat): seq<Event>
    requires i < |result|
  {
    if BaseGroups(existing, i) != [] then [Event(result[i].name, BaseGroups(existing, i))]
    else if result[i].groups != [] then []
    else [result[i]]
  }

  function RestoredFrom(existing: seq<Event>, result: seq<Event>, i: nat): seq<Event>
    requires i <= |result|
    decreases |result| - i
  {
    if i == |result| then [] else RestoredEvent(existing, result, i) + RestoredFrom(existing, result, i + 1)
  }

  lemma TreatRestores(existing: seq<Event>, generated: seq<Event>, result: seq<Event>, i: nat)
    requires Grown(existing, generated, result) && GeneratedOk(generated) && HoldsNone(existing, generated)
    requires i < |result|
    ensures Treat(result[i], generated) == RestoredEvent(existing, result, i)
  {
    assert GrownEvent(existing, generated, result, i);
    var base := BaseGroups(existing, i);
    if Names(generated, result[i].name) {
      var j :| 0 <= j < |generated| && generated[j].name == result[i].name;
      NamedAt(generated, result[i].name, j, []);
      assert GrownBy(generated[j], result[i].groups, base);
      assert i < |existing| ==> NoneEqual(existing[i].groups, generated[j].groups);
      WithoutGrown(result[i].groups, |base|, generated[j].groups);
    }
  }

  lemma {:induction false} SurvivorsRestore(existing: seq<Event>, generated: seq<Event>, result: seq<Event>, i: nat)
    requires Grown(existing, generated, result) && GeneratedOk(generated) && HoldsNone(existing, generated)
    requires i <= |result|
    ensures Survivors(result[i..], generated) == RestoredFrom(existing, result, i)
    decreases |result| - i
  {
    if i < |result| {
      TreatRestores(existing, generated, result, i);
      SurvivorsRestore(existing, generated, result, i + 1);
      assert result[i..][1..] == result[i + 1..];
    }
  }

  lemma RestoredEventTotal(existing: seq<Event>, result: seq<Event>, i: nat)
    requires i < |result|
    ensures TotalGroups(RestoredEvent(existing, result, i)) == |BaseGroups(existing, i)|
  {
    var first := RestoredEvent(existing, result, i);
    if first != [] {
      SingleTotal(first[0]);
      assert first == [first[0]];
    }
  }

  lemma {:induction false} RestoredTotal(existing: seq<Event>, result: seq<Event>, i: nat)
    requires i <= |result| && |existing| <= |result|
    ensures TotalGroups(RestoredFrom(existing, result, i))
         == if i < |existing| then TotalGroups(existing[i..]) else 0
    decreases |result| - i
  {
    if i < |result| {
      RestoredTotal(existing, result, i + 1);
      SurvivorsOfConcat(RestoredEvent(existing, result, i), RestoredFrom(existing, result, i + 1), []);
      RestoredEventTotal(existing, result, i);
      if i < |existing| {
        assert existing[i..][0] == existing[i] && existing[i..][1..] == existing[i + 1..];
      }
    }
  }

  lemma WithGroupsTotal(events: seq<Event>, name: string, groups: seq<Json>)
    requires DistinctNames(events)
    ensures TotalGroups(WithGroups(events, name, groups)) == TotalGroups(events) + |groups| - |GroupsOf(events, name)|
  {
    var at := PositionOf(events, name, groups);
    if at < |events| {
      TotalOfUpdate(events, at, Event(name, groups));
    } else {
      TotalAround(events, Event(name, groups), []);
      assert events + [Event(name, groups)] + [] == events + [Event(name, groups)];
    }
  }

  lemma TotalOfUpdate(events: seq<Event>, at: nat, event: Event)
    requires at < |events|
    ensures TotalGroups(events[at := event]) == TotalGroups(events) + |event.groups| - |events[at].groups|
  {
    var lead, tail := events[..at], events[at + 1..];
    assert events == lead + [events[at]] + tail;
    assert events[at := event] == lead + [event] + tail;
    TotalAround(lead, events[at], tail);
    TotalAround(lead, event, tail);
  }

  lemma {:induction false} AddEventsTotal(existing: seq<Event>, generated: seq<Event>)
    requires DistinctNames(existing) && GeneratedOk(generated) && AddEvents(existing, generated).Ok?
    ensures var r := AddEvents(existing, generated).value;
      r.additions == TotalGroups(r.events) - TotalGroups(existing)
    decreases |generated|
  {
    if generated != [] {
      var front, event := generated[..|generated| - 1], generated[|generated| - 1];
      AddEventsTotal(existing, front);
      AddEventsGrows(existing, front);
      var before := AddEvents(existing, front).value.events;
      WithGroupsTotal(before, event.name, AddGroups(GroupsOf(before, event.name), event.groups).value);
    }
  }

  /** Removing a fragment right after merging it into settings that held none of its groups
      gives every event its prior groups back and removes as many groups as were added. */
  lemma RemoveUndoesMerge(document: Json, fragment: Json, fits: Json -> bool)
    requires Settings(document) && Fragment(fragment) && Merge(document, fragment, fits).Ok?
    requires IsHooks(SavedHooks(document)) && HoldsNone(EventsOf(SavedHooks(document)), GeneratedEvents(fragment))
    ensures var (result, additions) := Merge(document, fragment, fits).value;
      && IsHooks(SavedHooks(result))
      && var before := EventsOf(SavedHooks(document)); var after := EventsOf(SavedHooks(result));
         var restored := Obj(Put(document.fields, "hooks", HooksJson(RestoredFrom(before, after, 0))));
        Remove(result, fragment, fits)
          == if additions == 0 then Ok((document, 0))
             else if fits(restored) then Ok((restored, additions))
             else Err(SettingsInvalid)
  {
    MergedEvents(document, fragment, fits);
    MergeIsIdempotent(document, fragment, fits);
    var before, generated := EventsOf(SavedHooks(document)), GeneratedEvents(fragment);
    var merged := AddEvents(before, generated).value;
    RemoveEventsUndoes(before, generated);
    if merged.additions == 0 {
      NothingAddedNothingRemoved(before, generated);
    } else {
      HooksWritten(document, HooksJson(merged.events));
      EventsRoundTrip(merged.events);
      PutTwice(document.fields, "hooks", HooksJson(merged.events), HooksJson(RestoredFrom(before, merged.events, 0)));
    }
  }

  lemma RemoveEventsUndoes(before: seq<Event>, generated: seq<Event>)
    requires DistinctNames(before) && GeneratedOk(generated) && HoldsNone(before, generated)
    requires AddEvents(before, generated).Ok?
    ensures var merged := AddEvents(before, generated).value;
      RemoveEvents(merged.events, generated) == Removal(RestoredFrom(before, merged.events, 0), merged.additions)
  {
    var merged := AddEvents(before, generated).value;
    AddEventsGrows(before, generated);
    AddEventsTotal(before, generated);
    SurvivorsRestore(before, generated, merged.events, 0);
    RestoredTotal(before, merged.events, 0);
    assert merged.events[0..] == merged.events && before[0..] == before;
    assert before == [] ==> TotalGroups(before) == 0;
    RemoveEventsTreats(merged.events, generated);
  }

  /** With none of its groups saved, a fragment that added nothing removes nothing. */
  lemma NothingAddedNothingRemoved(before: seq<Event>, generated: seq<Event>)
    requires DistinctNames(before) && GeneratedOk(generated) && HoldsNone(before, generated)
    ensures RemoveEvents(before, generated).removed == 0
  {
    RemoveEventsTreats(before, generated);
    forall i | 0 <= i < |before| ensures Treat(before[i], generated) == [before[i]] {
      if Names(generated, before[i].name) {
        var j :| 0 <= j < |generated| && generated[j].name == before[i].name;
        NamedAt(generated, before[i].name, j, []);
        var groups := before[i].groups;
        assert groups[..|groups|] == groups;
        assert NoneEqual(groups, generated[j].groups);
        WithoutGrown(groups, |groups|, generated[j].groups);
      }
    }
    AllTreatedAlone(before, generated);
  }

  lemma {:induction false} AllTreatedAlone(events: seq<Event>, generated: seq<Event>)
    requires forall i :: 0 <= i < |events| ==> Treat(events[i], generated) == [events[i]]
    ensures Survivors(events, generated) == events
    decreases events
  {
    if events != [] { AllTreatedAlone(events[1..], generated); }
  }

  /** A fragment as the client generates it: every event has a group. */
  predicate EveryEventHasGroups(generated: seq<Event>) {
    forall j :: 0 <= j < |generated| ==> generated[j].groups != []
  }

  /** The saved events without the generated ones the user had left as an empty list. */
  function DroppingEmptied(existing: seq<Event>, generated: seq<Event>): seq<Event> {
    if existing == [] then []
    else (if existing[0].groups == [] && Names(generated, existing[0].name) then [] else [existing[0]])
         + DroppingEmptied(existing[1..], generated)
  }

  lemma RestoredEventKept(existing: seq<Event>, generated: seq<Event>, result: seq<Event>, i: nat)
    requires Grown(existing, generated, result) && EveryEventHasGroups(generated) && i < |result|
    ensures RestoredEvent(existing, result, i)
         == if i < |existing| && !(existing[i].groups == [] && Names(generated, existing[i].name)) then [existing[i]] else []
  {
    assert GrownEvent(existing, generated, result, i);
    if Names(generated, result[i].name) {
      var j :| 0 <= j < |generated| && generated[j].name == result[i].name;
      assert GrownBy(generated[j], result[i].groups, BaseGroups(existing, i));
      assert Present(result[i].groups, generated[j].groups[0]);
      assert result[i].groups != [];
    }
  }

  lemma {:induction false} RestoredIsDroppingEmptied(existing: seq<Event>, generated: seq<Event>, result: seq<Event>, i: nat)
    requires Grown(existing, generated, result) && EveryEventHasGroups(generated) && i <= |result|
    ensures RestoredFrom(existing, result, i)
         == if i < |existing| then DroppingEmptied(existing[i..], generated) else []
    decreases |result| - i
  {
    if i < |result| {
      RestoredIsDroppingEmptied(existing, generated, result, i + 1);
      RestoredEventKept(existing, generated, result, i);
      if i < |existing| {
        assert existing[i..][0] == existing[i] && existing[i..][1..] == existing[i + 1..];
      }
    }
  }

  /** Exactly when the settings come back as they were, apart from a retained empty `hooks`
      object: no generated event may have been saved as an empty list. */
  lemma RoundTripRestoresSettings(document: Json, fragment: Json, fits: Json -> bool)
    requires Settings(document) && Fragment(fragment) && Merge(document, fragment, fits).Ok?
    requires IsHooks(SavedHooks(document)) && HoldsNone(EventsOf(SavedHooks(document)), GeneratedEvents(fragment))
    requires EveryEventHasGroups(GeneratedEvents(fragment)) && Merge(document, fragment, fits).value.1 > 0
    requires Remove(Merge(document, fragment, fits).value.0, fragment, fits).Ok?
    ensures Remove(Merge(document, fragment, fits).value.0, fragment, fits).value.0 == Obj(KeepingHooks(document))
       <==> forall i :: 0 <= i < |EventsOf(SavedHooks(document))| && Names(GeneratedEvents(fragment), EventsOf(SavedHooks(document))[i].name)
              ==> EventsOf(SavedHooks(document))[i].groups != []
  {
    RemoveUndoesMerge(document, fragment, fits);
    MergeOnlyAppends(document, fragment, fits);
    SavedHooksAreLoaded(document);
    LoadedHooksAreDistinct(SavedHooks(document));
    var before, generated := EventsOf(SavedHooks(document)), GeneratedEvents(fragment);
    var after := EventsOf(SavedHooks(Merge(document, fragment, fits).value.0));
    RestoredIsDroppingEmptied(before, generated, after, 0);
    assert before[0..] == before;
    var kept := DroppingEmptied(before, generated);
    assert before == [] ==> kept == [];
    DroppedExactly(before, generated);
    HooksWritten(document, HooksJson(kept));
    HooksWritten(document, SavedHooks(document));
    PutTwice(document.fields, "hooks", SavedHooks(document), SavedHooks(document));
    if kept != before {
      assert |HooksJson(kept).fields| < |HooksJson(before).fields|;
      assert Put(document.fields, "hooks", HooksJson(kept)) != Put(document.fields, "hooks", SavedHooks(document)) by {
        assert Get(Put(document.fields, "hooks", HooksJson(kept)), "hooks", Obj([])) == HooksJson(kept);
        assert Get(Put(document.fields, "hooks", SavedHooks(document)), "hooks", Obj([])) == SavedHooks(document);
      }
    }
  }

  lemma {:induction false} DroppedExactly(existing: seq<Event>, generated: seq<Event>)
    ensures |DroppingEmptied(existing, generated)| <= |existing|
    ensures DroppingEmptied(existing, generated) == existing
       <==> forall i :: 0 <= i < |existing| && Names(generated, existing[i].name) ==> existing[i].groups != []
    ensures DroppingEmptied(existing, generated) != existing ==> |DroppingEmptied(existing, generated)| < |existing|
    decreases existing
  {
    if existing != [] {
      DroppedExactly(existing[1..], generated);
      assert existing == [existing[0]] + existing[1..];
      var rest := DroppingEmptied(existing[1..], generated);
      assert [existing[0]] + rest == existing <==> rest == existing[1..] by {
        assert ([existing[0]] + rest)[1..] == rest;
      }
      assert forall i :: 0 <= i < |existing[1..]| ==> existing[1..][i] == existing[i + 1];
      if existing[0].groups == [] && Names(generated, existing[0].name) {
        assert !(forall i :: 0 <= i < |existing| && Names(generated, existing[i].name) ==> existing[i].groups != []);
      }
    }
  }
}
