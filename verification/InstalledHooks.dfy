/** The generated fragment (`cli/native_hook_definition.py`), and that settings it was merged
    into are recognised by discovery. */
module InstalledHooks {
  import opened Outcomes
  import opened Text
  import opened Json
  import opened HookCommands
  import opened HookParser
  import opened HookSettings
  import opened Discovery

  function EventNames(host: string): seq<string> {
    ["UserPromptSubmit", "PreToolUse", "PostToolUse"] + if host == "claude-code" then ["PostToolUseFailure"] else []
  }

  function StatusLabel(event: string): string {
    if event == "UserPromptSubmit" then "Atellagent: checking prompt"
    else if event == "PreToolUse" then "Atellagent: checking tool action"
    else "Atellagent: recording tool result"
  }

  function HandlerFields(event: string, host: string, handler: Handler): seq<Field> {
    [Field("type", Str("command"))]
    + (if handler.shell.Some? then [Field("shell", Str(handler.shell.value))] else [])
    + [Field("command", Str(handler.command)), Field("timeout", Int(20))]
    + if host == "codex" then [Field("statusMessage", Str(StatusLabel(event)))] else []
  }

  function GeneratedGroup(event: string, host: string, handler: Handler): Json {
    Obj([Field("hooks", List([Obj(HandlerFields(event, host, handler))]))])
  }

  function GeneratedHooks(names: seq<string>, host: string, handler: Handler): seq<Event> {
    seq(|names|, i requires 0 <= i < |names| => Event(names[i], [GeneratedGroup(names[i], host, handler)]))
  }

  /** The hooks part of `definition(...)["files"]`. */
  function GeneratedFragment(host: string, handler: Handler): Json {
    Obj([Field("hooks", HooksJson(GeneratedHooks(EventNames(host), host, handler)))])
  }

  lemma HandlerFieldsAreFound(event: string, host: string, handler: Handler)
    ensures var fields := HandlerFields(event, host, handler);
      && DistinctKeys(fields)
      && Get(fields, "type", Null) == Str("command")
      && Get(fields, "command", Null) == Str(handler.command)
  {
    var fields := HandlerFields(event, host, handler);
    assert "type"[0] == 't' && "type"[1] == 'y' && "shell"[0] == 's' && "shell"[1] == 'h';
    assert "command"[0] == 'c' && "timeout"[0] == 't' && "timeout"[1] == 'i' && "statusMessage"[0] == 's' && "statusMessage"[1] == 't';
    GetFinds(fields, "type", Null, 0);
    GetFinds(fields, "command", Null, if handler.shell.Some? then 2 else 1);
  }

  lemma GeneratedGroupIsGenerated(event: string, host: string, handler: Handler)
    requires handler.command != ""
    ensures var group := GeneratedGroup(event, host, handler);
      IsGenerated(group) && CommandOf(group) == handler.command && Loaded(group)
  {
    HandlerFieldsAreFound(event, host, handler);
    var group := GeneratedGroup(event, host, handler);
    GetFinds(group.fields, "hooks", Null, 0);
    var printed := Obj(HandlerFields(event, host, handler));
    assert Loaded(printed);
    assert Loaded(List([printed]));
  }

  /** What is generated for a host: one group for each of its events, with the printed command,
      its shell if it has one, and twenty seconds. */
  lemma GeneratedForHost(host: string, handler: Handler, j: nat)
    requires handler.command != "" && host in {"codex", "claude-code"} && j < |EventNames(host)|
    ensures EventNames(host) == ["UserPromptSubmit", "PreToolUse", "PostToolUse"] + (if host == "codex" then [] else ["PostToolUseFailure"])
    ensures var event := GeneratedEvents(GeneratedFragment(host, handler))[j];
      && event.name == EventNames(host)[j] && |event.groups| == 1 && IsGroup(event.groups[0]) && |HandlersOf(event.groups[0])| == 1
      && var fields := HandlersOf(event.groups[0])[0].fields;
      && Get(fields, "type", Null) == Str("command") && Get(fields, "command", Null) == Str(handler.command)
      && Get(fields, "shell", Null) == (if handler.shell.Some? then Str(handler.shell.value) else Null)
      && Get(fields, "timeout", Null) == Int(20)
      && (HasKey(fields, "statusMessage") <==> host == "codex")
  {
    GeneratedFragmentIsFragment(host, handler);
    GeneratedGroupIsGenerated(EventNames(host)[j], host, handler);
    OtherFieldsAreFound(EventNames(host)[j], host, handler);
    assert |"codex"| == 5 && |"claude-code"| == 11;
  }

  lemma OtherFieldsAreFound(event: string, host: string, handler: Handler)
    ensures var fields := HandlerFields(event, host, handler);
      && Get(fields, "shell", Null) == (if handler.shell.Some? then Str(handler.shell.value) else Null)
      && Get(fields, "timeout", Null) == Int(20)
      && (HasKey(fields, "statusMessage") <==> host == "codex")
  {
    var fields := HandlerFields(event, host, handler);
    HandlerFieldsAreFound(event, host, handler);
    assert |"type"| == 4 && |"shell"| == 5 && |"command"| == |"timeout"| == 7 && |"statusMessage"| == 13 && "timeout"[0] != "command"[0];
    var n := if handler.shell.Some? then 1 else 0;
    GetFinds(fields, "timeout", Null, 2 + n);
    if handler.shell.Some? {
      GetFinds(fields, "shell", Null, 1);
    } else {
      GetMisses(fields, "shell", Null);
    }
    if host == "codex" { assert fields[3 + n].key == "statusMessage"; }
  }

  lemma EventNamesDiffer(host: string)
    ensures forall i, j :: 0 <= i < j < |EventNames(host)| ==> EventNames(host)[i] != EventNames(host)[j]
  {
    assert |"UserPromptSubmit"| == 16 && |"PreToolUse"| == 10 && |"PostToolUse"| == 11 && |"PostToolUseFailure"| == 18;
  }

  lemma GeneratedFragmentIsFragment(host: string, handler: Handler)
    requires handler.command != ""
    ensures var fragment := GeneratedFragment(host, handler);
      && Fragment(fragment)
      && GeneratedEvents(fragment) == GeneratedHooks(EventNames(host), host, handler)
      && EveryEventHasGroups(GeneratedEvents(fragment))
  {
    var names := EventNames(host);
    var events := GeneratedHooks(names, host, handler);
    var hooks := HooksJson(events);
    EventNamesDiffer(host);
    forall i | 0 <= i < |events| ensures AllGroups(events[i].groups) && Loaded(hooks.fields[i].value) {
      GeneratedGroupIsGenerated(names[i], host, handler);
    }
    EventsRoundTrip(events);
    assert DistinctKeys(hooks.fields);
    assert Loaded(hooks);
  }

  /** A merge that adds no group leaves the events alone, if every generated event has one. */
  lemma {:induction false} NoAdditionsNoChange(existing: seq<Event>, generated: seq<Event>)
    requires DistinctNames(existing) && GeneratedOk(generated) && EveryEventHasGroups(generated)
    requires AddEvents(existing, generated).Ok? && AddEvents(existing, generated).value.additions == 0
    ensures AddEvents(existing, generated).value.events == existing
    decreases |generated|
  {
    if generated != [] {
      var front, event := generated[..|generated| - 1], generated[|generated| - 1];
      var target := GroupsOf(AddEvents(existing, front).value.events, event.name);
      AddGroupsExtends(target, event.groups);
      NoAdditionsNoChange(existing, front);
      assert AllLoaded(generated[|generated| - 1].groups);
      AddGroupsMakesPresent(target, event.groups);
      var groups := AddGroups(target, event.groups).value;
      assert groups == groups[..|target|] == target;
      assert Present(groups, event.groups[0]);
      var at := PositionOf(existing, event.name, groups);
    }
  }

  // ------------------------------------------------ an event saved empty

  /** One generated group for each event. */
  predicate OneGroupEach(generated: seq<Event>) {
    DistinctNames(generated) && forall j :: 0 <= j < |generated| ==> |generated[j].groups| == 1 && IsGenerated(generated[j].groups[0])
  }

  lemma OneGroupAdded(groups: seq<Json>)
    requires |groups| == 1 && IsGenerated(groups[0])
    ensures AddGroups([], groups) == Ok(groups)
  {
    assert groups[..0] == [] && groups == [groups[0]];
    assert AddGroups([], []) == Ok([]);
    assert AddGroup([], groups[0]) == Ok([] + [groups[0]]);
  }

  /** Where no event has a group, every generated group is added. */
  lemma {:induction false} NoGroupsAcceptAll(existing: seq<Event>, generated: seq<Event>)
    requires OneGroupEach(generated) && forall name :: GroupsOf(existing, name) == []
    ensures var r := AddEvents(existing, generated);
      r.Ok? && r.value.additions == |generated| && forall name :: !Names(generated, name) ==> GroupsOf(r.value.events, name) == []
    decreases |generated|
  {
    if generated != [] {
      var front, event := generated[..|generated| - 1], generated[|generated| - 1];
      assert front + [event] == generated;
      NoGroupsAcceptAll(existing, front);
      LastNameIsNew(front, event);
      var before := AddEvents(existing, front).value.events;
      OneGroupAdded(event.groups);
      forall name | !Names(generated, name) ensures GroupsOf(AddEvents(existing, generated).value.events, name) == [] {
        NamesOfAppend(front, event, name);
        GroupsAfterWrite(before, event.name, event.groups, name);
      }
    }
  }

  function EmptyEventSaved(): Json { Obj([Field("hooks", Obj([Field("PreToolUse", List([]))]))]) }

  lemma EmptyEventSavedIsSettings()
    ensures var document := EmptyEventSaved();
      && Settings(document) && SavedHooks(document) == Obj([Field("PreToolUse", List([]))])
      && IsHooks(SavedHooks(document)) && EventsOf(SavedHooks(document)) == [Event("PreToolUse", [])]
      && KeepingHooks(document) == document.fields
  {
    var hooks := Obj([Field("PreToolUse", List([]))]);
    assert Loaded(List([])) && Loaded(hooks);
    var document := EmptyEventSaved();
    assert document.fields[0].key == "hooks";
    assert HasKey(document.fields, "hooks");
  }

  lemma EmptyEventMerges(host: string, handler: Handler, fits: Json -> bool)
    requires handler.command != "" && forall document :: fits(document)
    ensures var fragment := GeneratedFragment(host, handler); var merged := Merge(EmptyEventSaved(), fragment, fits);
      && Fragment(fragment) && GeneratedEvents(fragment) == GeneratedHooks(EventNames(host), host, handler)
      && EveryEventHasGroups(GeneratedEvents(fragment)) && merged.Ok? && merged.value.1 == |EventNames(host)|
  {
    GeneratedFragmentIsFragment(host, handler);
    EmptyEventSavedIsSettings();
    var generated := GeneratedEvents(GeneratedFragment(host, handler));
    forall j | 0 <= j < |generated| ensures |generated[j].groups| == 1 && IsGenerated(generated[j].groups[0]) {
      GeneratedGroupIsGenerated(EventNames(host)[j], host, handler);
    }
    NoGroupsAcceptAll([Event("PreToolUse", [])], generated);
  }

  /** Settings `{"hooks": {"PreToolUse": []}}` do not come back when the generated hooks of any
      host are merged and removed again: the empty list is gone. */
  lemma EmptyEventIsDropped(host: string, handler: Handler, fits: Json -> bool)
    requires handler.command != "" && forall document :: fits(document)
    ensures var merged := Merge(EmptyEventSaved(), GeneratedFragment(host, handler), fits);
      && merged.Ok?
      && var removed := Remove(merged.value.0, GeneratedFragment(host, handler), fits);
        removed.Ok? && removed.value.0 != EmptyEventSaved() && removed.value.1 == merged.value.1 == |EventNames(host)|
  {
    var document, fragment := EmptyEventSaved(), GeneratedFragment(host, handler);
    EmptyEventSavedIsSettings();
    EmptyEventMerges(host, handler, fits);
    var generated := GeneratedEvents(fragment);
    RemoveUndoesMerge(document, fragment, fits);
    assert generated[1].name == "PreToolUse" && Names(generated, "PreToolUse");
    RoundTripRestoresSettings(document, fragment, fits);
    assert EventsOf(SavedHooks(document))[0].groups == [];
  }

  /** A handler inside saved hooks is among the values discovery can visit. */
  lemma HandlerIsNested(events: seq<Event>, i: nat, k: nat, m: nat)
    requires i < |events| && k < |events[i].groups| && IsGroup(events[i].groups[k])
    requires m < |HandlersOf(events[i].groups[k])|
    ensures HandlersOf(events[i].groups[k])[m] in Nested(HooksJson(events))
  {
    var group := events[i].groups[k];
    var handlers := Get(group.fields, "hooks", Null);
    var handler := handlers.items[m];
    assert handler in Nested(handler);
    assert handler in Inside(handlers);
    NestedThrough(handlers, handler, handler);
    var at := FoundField(group.fields, "hooks");
    assert Inside(group)[at] == handlers;
    NestedThrough(group, handlers, handler);
    var all := List(events[i].groups);
    assert Inside(all)[k] == group;
    NestedThrough(all, group, handler);
    assert Inside(HooksJson(events))[i] == all;
    NestedThrough(HooksJson(events), all, handler);
  }

  lemma {:induction false} FoundField(fields: seq<Field>, key: string) returns (at: nat)
    requires Get(fields, key, Null) != Null
    ensures at < |fields| && Get(fields, key, Null) == fields[at].value
    decreases fields
  {
    if fields[0].key == key {
      at := 0;
    } else {
      at := FoundField(fields[1..], key);
      at := at + 1;
    }
  }

  lemma {:induction false} CarrierIsMember(groups: seq<Json>, command: string)
    requires Carriers(groups, command) != []
    ensures exists k :: 0 <= k < |groups| && Carries(groups[k], command)
    decreases groups
  {
    if !Carries(groups[0], command) {
      CarrierIsMember(groups[1..], command);
      var k :| 0 <= k < |groups[1..]| && Carries(groups[1..][k], command);
      assert Carries(groups[k + 1], command);
    }
  }

  /** After a successful merge of the fragment printed for a launcher, the hooks hold a
      handler that the parser recognises for exactly the printed host. */
  lemma MergedHooksHoldHandler(document: Json, argv: seq<string>, platform: string, host: string, fits: Json -> bool)
    returns (events: seq<Event>, handler: Json)
    requires Settings(document) && Command(argv, platform, host).Ok?
    requires Basename(argv[0]) in {"atellagent-cli", "atellagent-cli.exe", "atellagent-hook-adapter"}
    requires Merge(document, GeneratedFragment(host, Command(argv, platform, host).value), fits).Ok?
    ensures var result := Merge(document, GeneratedFragment(host, Command(argv, platform, host).value), fits).value.0;
      result.Obj? && Get(result.fields, "hooks", Null) == HooksJson(events)
    ensures handler in Nested(HooksJson(events)) && Hit(handler, host)
  {
    var printed := Command(argv, platform, host).value;
    CommandIsNotEmpty(argv, platform, host);
    GeneratedFragmentIsFragment(host, printed);
    var fragment := GeneratedFragment(host, printed);
    MergedEvents(document, fragment, fits);
    var before, generated := EventsOf(SavedHooks(document)), GeneratedEvents(fragment);
    var merged := AddEvents(before, generated).value;
    events := merged.events;
    ResultHooks(document, fragment, fits);
    GeneratedGroupIsGenerated("UserPromptSubmit", host, printed);
    assert generated[0] == Event("UserPromptSubmit", [GeneratedGroup("UserPromptSubmit", host, printed)]);
    assert Names(events, generated[0].name);
    var i :| 0 <= i < |events| && events[i].name == generated[0].name;
    assert GrownEvent(before, generated, events, i);
    assert Present(events[i].groups, generated[0].groups[0]);
    handler := PresentHandlerIsNested(events, i, printed.command);
    PrinterParserAgree(argv, platform, host, host);
  }

  lemma PresentHandlerIsNested(events: seq<Event>, i: nat, command: string) returns (handler: Json)
    requires i < |events| && Carriers(events[i].groups, command) != []
    ensures handler in Nested(HooksJson(events)) && RunsCommand(handler, command)
  {
    CarrierIsMember(events[i].groups, command);
    var k :| 0 <= k < |events[i].groups| && Carries(events[i].groups[k], command);
    var m :| 0 <= m < |HandlersOf(events[i].groups[k])| && RunsCommand(HandlersOf(events[i].groups[k])[m], command);
    HandlerIsNested(events, i, k, m);
    handler := HandlersOf(events[i].groups[k])[m];
  }

  lemma CommandIsNotEmpty(argv: seq<string>, platform: string, host: string)
    requires Command(argv, platform, host).Ok?
    ensures Command(argv, platform, host).value.command != ""
  {
    if platform == "darwin" { FirstPrintedCharacter(argv); }
  }

  /** The hooks of a merge result, whether or not anything was added. */
  lemma ResultHooks(document: Json, fragment: Json, fits: Json -> bool)
    requires Settings(document) && Fragment(fragment) && EveryEventHasGroups(GeneratedEvents(fragment))
    requires GeneratedEvents(fragment) != [] && Merge(document, fragment, fits).Ok?
    ensures IsHooks(SavedHooks(document))
    ensures var merged := AddEvents(EventsOf(SavedHooks(document)), GeneratedEvents(fragment));
      && merged.Ok?
      && var result := Merge(document, fragment, fits).value.0;
        result.Obj? && Get(result.fields, "hooks", Null) == HooksJson(merged.value.events)
  {
    MergedEvents(document, fragment, fits);
    var before, generated := EventsOf(SavedHooks(document)), GeneratedEvents(fragment);
    var merged := AddEvents(before, generated).value;
    if merged.additions == 0 {
      NoAdditionsNoChange(before, generated);
      SavedHooksAreLoaded(document);
      LoadedHooksAreDistinct(SavedHooks(document));
      assert Names(merged.events, generated[0].name);
      SavedIsPresent(document);
    } else {
      HooksWritten(document, HooksJson(merged.events));
      PresentWhateverDefault(Put(document.fields, "hooks", HooksJson(merged.events)));
    }
  }

  lemma SavedIsPresent(document: Json)
    requires document.Obj? && SavedHooks(document) != Obj([])
    ensures Get(document.fields, "hooks", Null) == SavedHooks(document)
  {
    PresentWhateverDefault(document.fields);
  }

  lemma {:induction false} PresentWhateverDefault(fields: seq<Field>)
    ensures HasKey(fields, "hooks") ==> Get(fields, "hooks", Null) == Get(fields, "hooks", Obj([]))
    ensures Get(fields, "hooks", Obj([])) != Obj([]) ==> Get(fields, "hooks", Null) == Get(fields, "hooks", Obj([]))
    decreases fields
  {
    if fields != [] && fields[0].key != "hooks" {
      PresentWhateverDefault(fields[1..]);
      var rest := fields[1..];
      assert forall i :: 0 <= i < |rest| ==> rest[i] == fields[i + 1];
      if i :| 0 <= i < |fields| && fields[i].key == "hooks" { assert rest[i - 1].key == "hooks"; }
    }
  }

  /** Discovery reports the hooks of settings the fragment was merged into, for its host. */
  lemma MergedHooksAreDiscovered(document: Json, argv: seq<string>, platform: string, host: string, fits: Json -> bool)
    requires Settings(document) && Command(argv, platform, host).Ok?
    requires Basename(argv[0]) in {"atellagent-cli", "atellagent-cli.exe", "atellagent-hook-adapter"}
    requires Merge(document, GeneratedFragment(host, Command(argv, platform, host).value), fits).Ok?
    ensures var result := Merge(document, GeneratedFragment(host, Command(argv, platform, host).value), fits).value.0;
      && result.Obj?
      && var hooks := Get(result.fields, "hooks", Null);
        !ReachesLevel(hooks, 17) && |Nested(hooks)| <= 4096 ==> HasAdapter(hooks, host)
  {
    var events, handler := MergedHooksHoldHandler(document, argv, platform, host, fits);
    var hooks := HooksJson(events);
    if !ReachesLevel(hooks, 17) && |Nested(hooks)| <= 4096 {
      NestedIsContained(hooks, handler);
      SearchIsExactWithinLimits(hooks, host);
    }
  }
}
