/** The socket permission and the MCP entry in a host's TOML settings
    (`cli/native_hook_toml_merge.py`, `cli/native_hook_toml_remove.py`).

    Contents are parsed values: printing and parsing again is taken to be the identity. A
    fragment asks for an entry, an endpoint or both; each is merged and removed on its own, and
    the two never touch the same field, so a whole fragment undoes what its parts undo. */
module CodexSettings {
  import opened Outcomes
  import opened Json
  import opened McpSettings
  import HookCommands
  import HookParser

  datatype Refusal = Invalid | EntryConflict | InlineHooks

  const MCP := "mcp_servers"
  const NETWORK := "network"
  const SOCKETS := "allow_unix_sockets"
  const TIMEOUT := "startup_timeout_sec"

  predicate Only(value: Json, keys: set<string>) {
    value.Obj? && DistinctKeys(value.fields) && forall i :: 0 <= i < |value.fields| ==> value.fields[i].key in keys
  }

  /** `require_json_hook_source`: stored trust is the only inline hook setting allowed. */
  predicate NoInlineHooks(document: Json)
    requires document.Obj?
  {
    !HasKey(document.fields, "hooks") ||
    var hooks := Get(document.fields, "hooks", Null);
    hooks.Obj? && |hooks.fields| == 1 && hooks.fields[0].key == "state" && hooks.fields[0].value.Obj?
  }

  predicate IsTomlEntry(entry: Json) {
    HasKeys(entry, {"command", "args", TIMEOUT}) && Launches(entry) && Value(entry, TIMEOUT) == Int(30)
  }

  predicate IsServers(servers: Json) {
    servers.Obj? && |servers.fields| == 1 && servers.fields[0].key == NAME && IsTomlEntry(servers.fields[0].value)
  }

  /** One exact absolute socket path. */
  predicate IsEndpoint(endpoint: string) {
    && HookCommands.PosixAbsolute(endpoint) && !("//" <= endpoint) && endpoint != "/"
    && forall i :: 0 <= i < |endpoint| ==> endpoint[i] as int >= 32 && endpoint[i] !in "*?[]"
  }

  predicate IsNetwork(network: Json) {
    && network.Obj? && |network.fields| == 1 && network.fields[0].key == SOCKETS
    && var sockets := network.fields[0].value;
      sockets.List? && |sockets.items| == 1 && sockets.items[0].Str? && IsEndpoint(sockets.items[0].text)
  }

  /** What a fragment asks for. */
  datatype Request = Request(entry: Option<Json>, endpoint: Option<string>)

  predicate IsFragment(fragment: Json) {
    && Only(fragment, {NETWORK, MCP}) && fragment.fields != []
    && (HasKey(fragment.fields, MCP) ==> IsServers(Get(fragment.fields, MCP, Null)))
    && (HasKey(fragment.fields, NETWORK) ==> IsNetwork(Get(fragment.fields, NETWORK, Null)))
  }

  function RequestOf(fragment: Json): Request
    requires IsFragment(fragment)
  {
    Request(if HasKey(fragment.fields, MCP) then Some(Get(fragment.fields, MCP, Null).fields[0].value) else None,
            if HasKey(fragment.fields, NETWORK) then Some(Get(fragment.fields, NETWORK, Null).fields[0].value.items[0].text) else None)
  }

  // ------------------------------------------------------- the two settings

  function Servers(document: Json): Json
    requires document.Obj?
  {
    Get(document.fields, MCP, Obj([]))
  }

  function Network(document: Json): Json
    requires document.Obj?
  {
    Get(document.fields, NETWORK, Obj([]))
  }

  function Sockets(network: Json): Json
    requires network.Obj?
  {
    Get(network.fields, SOCKETS, List([]))
  }

  predicate IsAllowed(sockets: Json) {
    sockets.List? && forall i :: 0 <= i < |sockets.items| ==> sockets.items[i].Str? && sockets.items[i].text != ""
  }

  predicate NetworkOk(document: Json)
    requires document.Obj?
  {
    Network(document).Obj? && IsAllowed(Sockets(Network(document)))
  }

  function WithServers(document: Json, servers: seq<Field>): Json
    requires document.Obj?
  {
    Obj(Put(document.fields, MCP, Obj(servers)))
  }

  function WithSockets(document: Json, items: seq<Json>): Json
    requires document.Obj? && Network(document).Obj?
  {
    Obj(Put(document.fields, NETWORK, Obj(Put(Network(document).fields, SOCKETS, List(items)))))
  }

  // ------------------------------------------------------------------ merge

  function MergeEntry(document: Json, entry: Json): Result<(Json, nat), Refusal>
    requires document.Obj?
  {
    if !Servers(document).Obj? then Err(Invalid)
    else if !HasKey(Servers(document).fields, NAME) then
      Ok((WithServers(document, Put(Servers(document).fields, NAME, entry)), 1))
    else if Holds(Servers(document), entry) then Ok((document, 0))
    else Err(EntryConflict)
  }

  function MergeEndpoint(document: Json, endpoint: string): Result<(Json, nat), Refusal>
    requires document.Obj?
  {
    if !NetworkOk(document) then Err(Invalid)
    else
      var allowed := Sockets(Network(document)).items;
      if Str(endpoint) in allowed then Ok((document, 0)) else Ok((WithSockets(document, allowed + [Str(endpoint)]), 1))
  }

  /** `merge` without its final size check. */
  function Apply(document: Json, request: Request): Result<(Json, nat), Refusal>
    requires document.Obj?
  {
    var first := if request.entry.Some? then MergeEntry(document, request.entry.value) else Ok((document, 0));
    match first
    case Err(e) => Err(e)
    case Ok((changed, additions)) =>
      if request.endpoint.None? then Ok((changed, additions))
      else
        match MergeEndpoint(changed, request.endpoint.value)
        case Err(e) => Err(e)
        case Ok((result, more)) => Ok((result, additions + more))
  }

  function Merge(document: Json, fragment: Json, fits: Json -> bool): Result<(Json, nat), Refusal> {
    if !document.Obj? then Err(Invalid)
    else if !NoInlineHooks(document) then Err(InlineHooks)
    else if !IsFragment(fragment) then Err(Invalid)
    else
      match Apply(document, RequestOf(fragment))
      case Err(e) => Err(e)
      case Ok((result, additions)) =>
        if additions == 0 then Ok((document, 0)) else if fits(result) then Ok((result, additions)) else Err(Invalid)
  }

  // ----------------------------------------------------------------- remove

  /** `[item for item in allowed if item != endpoint]`. */
  function Without(items: seq<Json>, endpoint: Json): seq<Json> {
    if items == [] then []
    else (if items[0] == endpoint then [] else [items[0]]) + Without(items[1..], endpoint)
  }

  lemma {:induction false} WithoutConcat(a: seq<Json>, b: seq<Json>, endpoint: Json)
    ensures Without(a + b, endpoint) == Without(a, endpoint) + Without(b, endpoint)
    decreases a
  {
    if a == [] {
      assert a + b == b;
    } else {
      assert (a + b)[1..] == a[1..] + b;
      WithoutConcat(a[1..], b, endpoint);
    }
  }

  lemma {:induction false} WithoutLacks(items: seq<Json>, endpoint: Json)
    ensures endpoint !in Without(items, endpoint)
    ensures endpoint !in items ==> Without(items, endpoint) == items
    decreases items
  {
    if items != [] {
      assert items == [items[0]] + items[1..];
      WithoutLacks(items[1..], endpoint);
    }
  }

  lemma {:induction false} WithoutKeepsOthers(items: seq<Json>, endpoint: Json)
    ensures multiset(Without(items, endpoint)) == multiset(items)[endpoint := 0]
    decreases items
  {
    if items != [] {
      assert items == [items[0]] + items[1..];
      WithoutKeepsOthers(items[1..], endpoint);
    }
  }

  /** The list once positions from `index` on are done. */
  function DoneFrom(saved: seq<Json>, endpoint: Json, index: nat): seq<Json>
    requires index <= |saved|
  {
    saved[..index] + Without(saved[index..], endpoint)
  }

  function CountFrom(saved: seq<Json>, endpoint: Json, index: nat): nat
    requires index <= |saved|
  {
    multiset(saved[index..])[endpoint]
  }

  /** One step of the descending loop. */
  lemma DeletedOne(saved: seq<Json>, endpoint: Json, index: nat)
    requires index < |saved|
    ensures var before := DoneFrom(saved, endpoint, index + 1);
      && index < |before| && before[index] == saved[index]
      && DoneFrom(saved, endpoint, index)
         == if saved[index] == endpoint then before[..index] + before[index + 1..] else before
  {
    var rest := Without(saved[index + 1..], endpoint);
    var before := DoneFrom(saved, endpoint, index + 1);
    assert saved[index..][1..] == saved[index + 1..];
    assert saved[..index + 1] == saved[..index] + [saved[index]];
    assert before == saved[..index] + ([saved[index]] + rest);
    assert before[index + 1..] == rest && before[..index] == saved[..index];
  }

  lemma CountedOne(saved: seq<Json>, endpoint: Json, index: nat)
    requires index < |saved|
    ensures CountFrom(saved, endpoint, index) == CountFrom(saved, endpoint, index + 1) + if saved[index] == endpoint then 1 else 0
  {
    assert saved[index..] == [saved[index]] + saved[index + 1..];
  }

  /** The descending loop that deletes every occurrence in place and counts them. */
  method DeleteOccurrences(saved: seq<Json>, endpoint: Json) returns (allowed: seq<Json>, count: nat)
    ensures allowed == Without(saved, endpoint) && count == multiset(saved)[endpoint]
  {
    assert DoneFrom(saved, endpoint, |saved|) == saved;
    allowed, count := saved, 0;
    for index := |saved| downto 0
      invariant allowed == DoneFrom(saved, endpoint, index) && count == CountFrom(saved, endpoint, index)
    {
      DeletedOne(saved, endpoint, index);
      CountedOne(saved, endpoint, index);
      if allowed[index] == endpoint {
        allowed := allowed[..index] + allowed[index + 1..];
        count := count + 1;
      }
    }
    assert saved[0..] == saved;
  }

  function RemoveEntry(document: Json): (Json, nat)
    requires document.Obj?
  {
    if !Servers(document).Obj? || !HasKey(Servers(document).fields, NAME) then (document, 0)
    else
      var servers := Delete(Servers(document).fields, NAME);
      (if servers == [] then Obj(Delete(document.fields, MCP)) else WithServers(document, servers), 1)
  }

  function RemoveEndpoint(document: Json, endpoint: string): (Json, nat)
    requires document.Obj?
  {
    if !NetworkOk(document) || Str(endpoint) !in Sockets(Network(document)).items then (document, 0)
    else
      var allowed := Sockets(Network(document)).items;
      (WithSockets(document, Without(allowed, Str(endpoint))), multiset(allowed)[Str(endpoint)])
  }

  function Withdraw(document: Json, request: Request): (Json, nat)
    requires document.Obj?
  {
    var (changed, count) := if request.entry.Some? then RemoveEntry(document) else (document, 0);
    var (result, more) := if request.endpoint.Some? then RemoveEndpoint(changed, request.endpoint.value) else (changed, 0);
    (result, count + more)
  }

  /** `remove`: the discarded merge only checks the fragment and rejects conflicts. */
  function Remove(document: Json, fragment: Json, fits: Json -> bool): Result<(Json, nat), Refusal> {
    match Merge(document, fragment, fits)
    case Err(e) => Err(e)
    case Ok(_) =>
      var (result, count) := Withdraw(document, RequestOf(fragment));
      if count == 0 then Ok((document, 0)) else if fits(result) then Ok((result, count)) else Err(Invalid)
  }

  method WithdrawInPlace(document: Json, request: Request) returns (result: Json, count: nat)
    requires document.Obj?
    ensures (result, count) == Withdraw(document, request)
  {
    result, count := document, 0;
    if request.entry.Some? {
      var removed := RemoveEntry(document);
      result, count := removed.0, removed.1;
    }
    if request.endpoint.Some? && NetworkOk(result) && Str(request.endpoint.value) in Sockets(Network(result)).items {
      var allowed, deleted := DeleteOccurrences(Sockets(Network(result)).items, Str(request.endpoint.value));
      result, count := WithSockets(result, allowed), count + deleted;
    }
  }

  method RemoveSettings(document: Json, fragment: Json, fits: Json -> bool) returns (r: Result<(Json, nat), Refusal>)
    ensures r == Remove(document, fragment, fits)
  {
    var merged := Merge(document, fragment, fits);
    if merged.Err? { return Err(merged.error); }
    var result, count := WithdrawInPlace(document, RequestOf(fragment));
    if count == 0 { return Ok((document, 0)); }
    r := if fits(result) then Ok((result, count)) else Err(Invalid);
  }

  // ------------------------------------------------------------- properties

  predicate Settings(document: Json) { Loaded(document) && document.Obj? }

  lemma FieldIsLoaded(document: Json, key: string, default: Json)
    requires Loaded(document) && document.Obj? && Loaded(default)
    ensures Loaded(Get(document.fields, key, default))
  {
    if HasKey(document.fields, key) {
      var i :| 0 <= i < |document.fields| && document.fields[i].key == key;
      GetFinds(document.fields, key, default, i);
    } else {
      GetMisses(document.fields, key, default);
    }
  }

  lemma SocketsWritten(document: Json, items: seq<Json>)
    requires Settings(document) && NetworkOk(document)
    ensures OnlyField(document.fields, WithSockets(document, items).fields, NETWORK)
    ensures Network(WithSockets(document, items)) == Obj(Put(Network(document).fields, SOCKETS, List(items)))
    ensures OnlyField(Network(document).fields, Network(WithSockets(document, items)).fields, SOCKETS)
    ensures Sockets(Network(WithSockets(document, items))) == List(items)
  {
    FieldIsLoaded(document, NETWORK, Obj([]));
    PutIsOnlyField(Network(document).fields, SOCKETS, List(items));
    PutIsOnlyField(document.fields, NETWORK, Obj(Put(Network(document).fields, SOCKETS, List(items))));
  }

  /** Allowing an endpoint appends it once after the saved ones and changes nothing else, and
      allowing it again changes nothing. */
  lemma EndpointIsAppendedOnce(document: Json, endpoint: string)
    requires Settings(document) && IsEndpoint(endpoint) && MergeEndpoint(document, endpoint).Ok?
    ensures var (result, additions) := MergeEndpoint(document, endpoint).value;
      && result.Obj? && NetworkOk(result) && MergeEndpoint(result, endpoint) == Ok((result, 0))
      && Sockets(Network(result)).items
         == Sockets(Network(document)).items + (if additions == 0 then [] else [Str(endpoint)])
      && (additions == 0 <==> Str(endpoint) in Sockets(Network(document)).items)
      && OnlyField(document.fields, result.fields, NETWORK) && OnlyField(Network(document).fields, Network(result).fields, SOCKETS)
  {
    if Str(endpoint) !in Sockets(Network(document)).items {
      SocketsWritten(document, Sockets(Network(document)).items + [Str(endpoint)]);
    }
  }

  /** Disallowing an endpoint deletes every occurrence, duplicates included, keeps the other
      endpoints in their order, and counts what it deleted. */
  lemma EndpointIsRemovedEverywhere(document: Json, endpoint: string)
    requires Settings(document) && NetworkOk(document)
    ensures var (result, count) := RemoveEndpoint(document, endpoint);
      && result.Obj? && Network(result).Obj? && Sockets(Network(result)).List?
      && var before, after := Sockets(Network(document)).items, Sockets(Network(result)).items;
      && Str(endpoint) !in after && multiset(after) == multiset(before)[Str(endpoint) := 0]
      && count == multiset(before)[Str(endpoint)] && (count == 0 <==> result == document)
      && OnlyField(document.fields, result.fields, NETWORK) && OnlyField(Network(document).fields, Network(result).fields, SOCKETS)
  {
    var before := Sockets(Network(document)).items;
    WithoutLacks(before, Str(endpoint));
    WithoutKeepsOthers(before, Str(endpoint));
    SocketsWritten(document, Without(before, Str(endpoint)));
  }

  /** Removing an endpoint right after allowing it, where it was not allowed, gives the settings
      back exactly when they already had a list of allowed sockets; else an empty one stays. */
  lemma RemoveUndoesEndpoint(document: Json, endpoint: string)
    requires Settings(document) && IsEndpoint(endpoint) && NetworkOk(document)
    requires Str(endpoint) !in Sockets(Network(document)).items
    ensures var (removed, count) := RemoveEndpoint(MergeEndpoint(document, endpoint).value.0, endpoint);
      && count == 1 && removed.Obj? && Network(removed).Obj? && Sockets(Network(removed)) == Sockets(Network(document))
      && (removed == document <==> HasKey(document.fields, NETWORK) && HasKey(Network(document).fields, SOCKETS))
  {
    EndpointTakenLast(document.fields, Network(document), endpoint);
    SocketsWritten(document, Sockets(Network(document)).items);
    AllowedUntouched(document);
  }

  lemma GrownAndShrunk(allowed: seq<Json>, item: Json)
    requires item !in allowed
    ensures Without(allowed + [item], item) == allowed && multiset(allowed + [item])[item] == 1
  {
    WithoutLacks(allowed, item);
    WithoutConcat(allowed, [item], item);
    assert Without([item], item) == [];
  }

  lemma AllowedUntouched(document: Json)
    requires Settings(document) && NetworkOk(document)
    ensures WithSockets(document, Sockets(Network(document)).items) == document
       <==> HasKey(document.fields, NETWORK) && HasKey(Network(document).fields, SOCKETS)
  {
    FieldIsLoaded(document, NETWORK, Obj([]));
    var network := Network(document);
    PutBackIff(network.fields, SOCKETS, List([]));
    PutBackIff(document.fields, NETWORK, Obj([]));
    var written := Obj(Put(network.fields, SOCKETS, Sockets(network)));
    if !HasKey(document.fields, NETWORK) {
      GetMisses(document.fields, NETWORK, written);
      assert |Put(document.fields, NETWORK, written)| == |document.fields| + 1;
    } else if !HasKey(network.fields, SOCKETS) {
      PutIsOnlyField(document.fields, NETWORK, written);
      assert Get(Put(document.fields, NETWORK, written), NETWORK, Obj([])) == written != network;
    }
  }

  /** Writing back what is there changes nothing exactly when it is there. */
  lemma PutBackIff(fields: seq<Field>, key: string, default: Json)
    requires DistinctKeys(fields)
    ensures Put(fields, key, Get(fields, key, default)) == fields <==> HasKey(fields, key)
    ensures !HasKey(fields, key) ==> |Put(fields, key, Get(fields, key, default))| == |fields| + 1
  {
    if HasKey(fields, key) {
      var i :| 0 <= i < |fields| && fields[i].key == key;
      GetFinds(fields, key, default, i);
      PutReplaces(fields, key, fields[i].value, i);
      assert fields[i := Field(key, fields[i].value)] == fields;
    } else {
      GetMisses(fields, key, Get(fields, key, default));
    }
  }

  // ------------------------------------------------------- both settings at once

  lemma {:induction false} OtherFieldKept(fields: seq<Field>, key: string, value: Json, other: string, default: Json)
    requires key != other
    ensures Get(Put(fields, key, value), other, default) == Get(fields, other, default)
    ensures Get(Delete(fields, key), other, default) == Get(fields, other, default)
    ensures HasKey(Put(fields, key, value), other) <==> HasKey(fields, other)
    decreases fields
  {
    if fields != [] && fields[0].key != key {
      OtherFieldKept(fields[1..], key, value, other, default);
      assert Put(fields, key, value)[1..] == Put(fields[1..], key, value);
      HasKeyFirstOrRest(fields, other);
      HasKeyFirstOrRest(Put(fields, key, value), other);
    } else if fields != [] {
      assert Put(fields, key, value)[1..] == fields[1..];
      HasKeyFirstOrRest(fields, other);
      HasKeyFirstOrRest(Put(fields, key, value), other);
    }
  }

  lemma HasKeyFirstOrRest(fields: seq<Field>, key: string)
    requires fields != []
    ensures HasKey(fields, key) <==> fields[0].key == key || HasKey(fields[1..], key)
  {
    assert forall i :: 0 < i < |fields| ==> fields[i] == fields[1..][i - 1];
  }

  /** Every other setting has its value. */
  ghost predicate SameElsewhere(before: Json, after: Json, keys: set<string>) {
    && before.Obj? && after.Obj?
    && forall key, default: Json :: key !in keys ==>
         Get(after.fields, key, default) == Get(before.fields, key, default) && (HasKey(after.fields, key) <==> HasKey(before.fields, key))
  }

  lemma PutElsewhere(fields: seq<Field>, key: string, value: Json)
    ensures SameElsewhere(Obj(fields), Obj(Put(fields, key, value)), {key})
  {
    forall other, default: Json | other != key
      ensures Get(Put(fields, key, value), other, default) == Get(fields, other, default)
      ensures HasKey(Put(fields, key, value), other) <==> HasKey(fields, other)
    {
      OtherFieldKept(fields, key, value, other, default);
    }
  }

  lemma PutIsLoaded(fields: seq<Field>, key: string, value: Json)
    requires Loaded(Obj(fields)) && Loaded(value)
    ensures Loaded(Obj(Put(fields, key, value)))
  {
    if HasKey(fields, key) {
      var i :| 0 <= i < |fields| && fields[i].key == key;
      PutAtField(fields, key, value, i);
    } else {
      PutAtEnd(fields, key, value);
    }
  }

  lemma EntryMerged(document: Json, entry: Json)
    requires Settings(document) && Loaded(entry) && MergeEntry(document, entry).Ok?
    ensures var (result, additions) := MergeEntry(document, entry).value;
      && Settings(result) && SameElsewhere(document, result, {MCP})
      && MergeEntry(result, entry) == Ok((result, 0)) && (additions == 0 ==> result == document)
  {
    if !HasKey(Servers(document).fields, NAME) {
      FieldIsLoaded(document, MCP, Obj([]));
      var servers := Put(Servers(document).fields, NAME, entry);
      PutIsLoaded(Servers(document).fields, NAME, entry);
      PutIsLoaded(document.fields, MCP, Obj(servers));
      PutElsewhere(document.fields, MCP, Obj(servers));
      PutIsOnlyField(Servers(document).fields, NAME, entry);
      PutIsOnlyField(document.fields, MCP, Obj(servers));
      SameAsItself(entry);
    }
  }

  lemma EndpointMerged(document: Json, endpoint: string)
    requires Settings(document) && IsEndpoint(endpoint) && MergeEndpoint(document, endpoint).Ok?
    ensures var (result, additions) := MergeEndpoint(document, endpoint).value;
      && SameElsewhere(document, result, {NETWORK}) && MergeEndpoint(result, endpoint) == Ok((result, 0))
      && (additions == 0 ==> result == document)
  {
    EndpointIsAppendedOnce(document, endpoint);
    var items := Sockets(Network(document)).items + [Str(endpoint)];
    PutElsewhere(document.fields, NETWORK, Obj(Put(Network(document).fields, SOCKETS, List(items))));
  }

  lemma RequestIsLoaded(fragment: Json)
    requires Loaded(fragment) && IsFragment(fragment)
    ensures RequestOf(fragment).entry.Some? ==> Loaded(RequestOf(fragment).entry.value)
    ensures RequestOf(fragment).endpoint.Some? ==> IsEndpoint(RequestOf(fragment).endpoint.value)
  {
    FieldIsLoaded(fragment, MCP, Null);
    if HasKey(fragment.fields, MCP) { assert Loaded(Get(fragment.fields, MCP, Null).fields[0].value); }
  }

  /** The same servers make the entry merge do the same. */
  lemma SameServers(before: Json, after: Json, entry: Json)
    requires SameElsewhere(before, after, {NETWORK}) && MergeEntry(before, entry) == Ok((before, 0))
    ensures MergeEntry(after, entry) == Ok((after, 0))
  {
    assert Get(after.fields, MCP, Obj([])) == Get(before.fields, MCP, Obj([]));
  }

  lemma ApplyTwice(document: Json, request: Request)
    requires Settings(document) && Apply(document, request).Ok?
    requires request.entry.Some? ==> Loaded(request.entry.value)
    requires request.endpoint.Some? ==> IsEndpoint(request.endpoint.value)
    ensures var (result, additions) := Apply(document, request).value;
      && SameElsewhere(document, result, {MCP, NETWORK}) && Apply(result, request) == Ok((result, 0))
      && (additions == 0 ==> result == document)
  {
    var changed := document;
    if request.entry.Some? {
      EntryMerged(document, request.entry.value);
      changed := MergeEntry(document, request.entry.value).value.0;
    }
    if request.endpoint.Some? {
      EndpointMerged(changed, request.endpoint.value);
      var result := MergeEndpoint(changed, request.endpoint.value).value.0;
      if request.entry.Some? { SameServers(changed, result, request.entry.value); }
    }
  }

  /** A successful merge changes only the two settings it is for, and merging the same fragment
      again finds both in place and returns the settings unchanged. */
  lemma MergeIsIdempotent(document: Json, fragment: Json, fits: Json -> bool)
    requires Settings(document) && Loaded(fragment) && Merge(document, fragment, fits).Ok?
    ensures var result := Merge(document, fragment, fits).value.0;
      SameElsewhere(document, result, {MCP, NETWORK}) && Merge(result, fragment, fits) == Ok((result, 0))
  {
    RequestIsLoaded(fragment);
    ApplyTwice(document, RequestOf(fragment));
    var result := Apply(document, RequestOf(fragment)).value.0;
    SameHooks(document, result);
  }

  lemma SameHooks(before: Json, after: Json)
    requires SameElsewhere(before, after, {MCP, NETWORK})
    ensures NoInlineHooks(before) == NoInlineHooks(after)
  {
    assert Get(after.fields, "hooks", Null) == Get(before.fields, "hooks", Null);
  }

  ghost predicate SameValues(before: Json, after: Json, keys: set<string>) {
    && before.Obj? && after.Obj?
    && forall key, default: Json :: key !in keys ==> Get(after.fields, key, default) == Get(before.fields, key, default)
  }

  lemma DeleteElsewhere(fields: seq<Field>, key: string)
    requires DistinctKeys(fields)
    ensures SameValues(Obj(fields), Obj(Delete(fields, key)), {key})
    ensures !HasKey(Delete(fields, key), key)
  {
    forall other, default: Json | other != key ensures Get(Delete(fields, key), other, default) == Get(fields, other, default) {
      OtherFieldKept(fields, key, Null, other, default);
    }
    if HasKey(fields, key) {
      var i :| 0 <= i < |fields| && fields[i].key == key;
      DeleteRemoves(fields, key, i);
    } else {
      GetMisses(fields, key, Null);
    }
  }

  lemma {:induction false} GetAfterPut(fields: seq<Field>, key: string, value: Json, default: Json)
    ensures Get(Put(fields, key, value), key, default) == value
    decreases fields
  {
    if fields != [] && fields[0].key != key { GetAfterPut(fields[1..], key, value, default); }
  }

  lemma PutSameValues(fields: seq<Field>, key: string, value: Json)
    ensures SameValues(Obj(fields), Obj(Put(fields, key, value)), {key})
  {
    forall other, default: Json | other != key ensures Get(Put(fields, key, value), other, default) == Get(fields, other, default) {
      OtherFieldKept(fields, key, value, other, default);
    }
  }

  lemma EntryRemoved(document: Json)
    requires Settings(document) && Servers(document).Obj?
    ensures var result := RemoveEntry(document).0;
      SameValues(document, result, {MCP}) && Servers(result).Obj? && !HasKey(Servers(result).fields, NAME)
  {
    if HasKey(Servers(document).fields, NAME) {
      FieldIsLoaded(document, MCP, Obj([]));
      var servers := Delete(Servers(document).fields, NAME);
      DeleteElsewhere(Servers(document).fields, NAME);
      DeleteElsewhere(document.fields, MCP);
      GetMisses(Delete(document.fields, MCP), MCP, Obj([]));
      PutSameValues(document.fields, MCP, Obj(servers));
      GetAfterPut(document.fields, MCP, Obj(servers), Obj([]));
    }
  }

  lemma {:induction false} WithoutOnlyDrops(items: seq<Json>, endpoint: Json)
    ensures forall x :: x in Without(items, endpoint) ==> x in items
    decreases items
  {
    if items != [] { WithoutOnlyDrops(items[1..], endpoint); }
  }

  lemma EndpointRemoved(document: Json, endpoint: string)
    requires document.Obj? && NetworkOk(document)
    ensures var result := RemoveEndpoint(document, endpoint).0;
      SameValues(document, result, {NETWORK}) && NetworkOk(result) && Str(endpoint) !in Sockets(Network(result)).items
  {
    var items := Sockets(Network(document)).items;
    if Str(endpoint) in items {
      var kept := Without(items, Str(endpoint));
      WithoutLacks(items, Str(endpoint));
      WithoutOnlyDrops(items, Str(endpoint));
      var network := Obj(Put(Network(document).fields, SOCKETS, List(kept)));
      PutSameValues(document.fields, NETWORK, network);
      GetAfterPut(document.fields, NETWORK, network, Obj([]));
      GetAfterPut(Network(document).fields, SOCKETS, List(kept), List([]));
      forall i | 0 <= i < |kept| ensures kept[i].Str? && kept[i].text != "" { assert kept[i] in items; }
    }
  }

  /** What removal leaves of the two settings. */
  predicate Clean(result: Json, request: Request) {
    && result.Obj?
    && (request.entry.Some? ==> Servers(result).Obj? && !HasKey(Servers(result).fields, NAME))
    && (request.endpoint.Some? ==> NetworkOk(result) && Str(request.endpoint.value) !in Sockets(Network(result)).items)
  }

  lemma Withdrawn(document: Json, request: Request)
    requires Settings(document)
    requires request.entry.Some? ==> Servers(document).Obj?
    requires request.endpoint.Some? ==> NetworkOk(document)
    ensures var result := Withdraw(document, request).0; Clean(result, request) && SameValues(document, result, {MCP, NETWORK})
  {
    var changed := document;
    if request.entry.Some? {
      EntryRemoved(document);
      changed := RemoveEntry(document).0;
      assert Network(changed) == Network(document);
    }
    if request.endpoint.Some? {
      EndpointRemoved(changed, request.endpoint.value);
      assert Servers(RemoveEndpoint(changed, request.endpoint.value).0) == Servers(changed);
    }
  }

  /** Withdrawing nothing means there was nothing to withdraw. */
  lemma NothingWithdrawn(document: Json, request: Request)
    requires document.Obj? && Withdraw(document, request).1 == 0
    ensures Withdraw(document, request).0 == document
  {
  }

  lemma MergedIsWellFormed(document: Json, request: Request)
    requires Settings(document) && Apply(document, request).Ok? && (request.entry.Some? ==> Loaded(request.entry.value))
    ensures request.entry.Some? ==> Servers(document).Obj?
    ensures request.endpoint.Some? ==> NetworkOk(document)
  {
    if request.entry.Some? {
      EntryMerged(document, request.entry.value);
      assert Network(MergeEntry(document, request.entry.value).value.0) == Network(document);
    }
  }

  /** Removal takes the generated entry and every occurrence of the endpoint, and no other
      setting. */
  lemma RemovalIsExact(document: Json, fragment: Json, fits: Json -> bool)
    requires Settings(document) && Loaded(fragment) && Remove(document, fragment, fits).Ok?
    ensures var result := Remove(document, fragment, fits).value.0;
      Clean(result, RequestOf(fragment)) && SameValues(document, result, {MCP, NETWORK})
  {
    var request := RequestOf(fragment);
    RequestIsLoaded(fragment);
    MergedIsWellFormed(document, request);
    Withdrawn(document, request);
    if Withdraw(document, request).1 == 0 { NothingWithdrawn(document, request); }
  }

  // ------------------------------------------------------------ round trips

  lemma {:induction false} WritesCommute(fields: seq<Field>, a: string, x: Json, b: string, y: Json)
    requires a != b && HasKey(fields, a)
    ensures Put(Put(fields, b, y), a, x) == Put(Put(fields, a, x), b, y)
    decreases fields
  {
    HasKeyFirstOrRest(fields, a);
    if fields[0].key != a && fields[0].key != b { WritesCommute(fields[1..], a, x, b, y); }
  }

  lemma {:induction false} DeletionCommutes(fields: seq<Field>, a: string, b: string, y: Json)
    requires a != b && HasKey(fields, a)
    ensures Delete(Put(fields, b, y), a) == Put(Delete(fields, a), b, y)
    decreases fields
  {
    HasKeyFirstOrRest(fields, a);
    if fields[0].key != a && fields[0].key != b { DeletionCommutes(fields[1..], a, b, y); }
  }

  /** The fields after the entry is taken out of `servers` again. */
  function Emptied(fields: seq<Field>, servers: seq<Field>): seq<Field> {
    if servers == [] then Delete(fields, MCP) else Put(fields, MCP, Obj(servers))
  }

  lemma EntryAddedAndTaken(document: Json, entry: Json)
    requires Settings(document) && Servers(document).Obj? && !HasKey(Servers(document).fields, NAME)
    ensures var servers := Servers(document).fields; var merged := MergeEntry(document, entry).value.0;
      && merged.Obj? && Servers(merged) == Obj(servers + [Field(NAME, entry)]) && HasKey(merged.fields, MCP)
      && HasKey(Servers(merged).fields, NAME) && Delete(Servers(merged).fields, NAME) == servers
      && (Emptied(merged.fields, servers) == document.fields <==> !(HasKey(document.fields, MCP) && Servers(document) == Obj([])))
  {
    FieldIsLoaded(document, MCP, Obj([]));
    var servers := Servers(document).fields;
    var grown := servers + [Field(NAME, entry)];
    AddedAndTaken(servers, NAME, entry);
    PutIsOnlyField(document.fields, MCP, Obj(grown));
    RestoredField(document.fields, MCP, Obj(grown));
  }

  /** Exactly when nothing of a fragment is left behind: an empty servers object would be
      dropped, and a list of allowed sockets would stay. */
  predicate Restorable(document: Json, request: Request)
    requires document.Obj?
  {
    && (request.entry.Some? ==> !(HasKey(document.fields, MCP) && Servers(document) == Obj([])))
    && (request.endpoint.Some? ==> HasKey(document.fields, NETWORK) && Network(document).Obj? && HasKey(Network(document).fields, SOCKETS))
  }

  /** Nothing the request asks for is in the settings. */
  predicate AsksForNew(document: Json, request: Request) {
    && document.Obj?
    && (request.entry.Some? ==> Servers(document).Obj? && !HasKey(Servers(document).fields, NAME))
    && (request.endpoint.Some? ==>
          NetworkOk(document) && IsEndpoint(request.endpoint.value) && Str(request.endpoint.value) !in Sockets(Network(document)).items)
  }

  lemma EntryUndone(document: Json, request: Request)
    requires Settings(document) && AsksForNew(document, request) && request.entry.Some? && request.endpoint.None?
    ensures Apply(document, request).Ok?
    ensures var (removed, count) := Withdraw(Apply(document, request).value.0, request);
      count == 1 == Apply(document, request).value.1 && (removed == document <==> Restorable(document, request))
  {
    EntryAddedAndTaken(document, request.entry.value);
  }

  lemma EndpointUndone(document: Json, request: Request)
    requires Settings(document) && AsksForNew(document, request) && request.entry.None? && request.endpoint.Some?
    ensures Apply(document, request).Ok?
    ensures var (removed, count) := Withdraw(Apply(document, request).value.0, request);
      count == 1 == Apply(document, request).value.1 && (removed == document <==> Restorable(document, request))
  {
    RemoveUndoesEndpoint(document, request.endpoint.value);
  }

  /** What is left after both settings were added and the entry was taken again. */
  lemma EntryTakenFirst(document: Json, merged: Json, items: seq<Json>)
    requires document.Obj? && Network(document).Obj? && merged.Obj? && HasKey(merged.fields, MCP) && Network(merged) == Network(document)
    requires Servers(merged).Obj? && HasKey(Servers(merged).fields, NAME)
    ensures var servers := Delete(Servers(merged).fields, NAME); var network := Obj(Put(Network(document).fields, SOCKETS, List(items)));
      RemoveEntry(WithSockets(merged, items)) == (Obj(Put(Emptied(merged.fields, servers), NETWORK, network)), 1)
  {
    var servers, network := Delete(Servers(merged).fields, NAME), Obj(Put(Network(document).fields, SOCKETS, List(items)));
    OtherFieldKept(merged.fields, NETWORK, network, MCP, Obj([]));
    DeletionCommutes(merged.fields, MCP, NETWORK, network);
    WritesCommute(merged.fields, MCP, Obj(servers), NETWORK, network);
  }

  lemma WrittenIsRead(fields: seq<Field>, network: Json, items: seq<Json>)
    requires network.Obj?
    ensures var document := Obj(Put(fields, NETWORK, Obj(Put(network.fields, SOCKETS, List(items)))));
      Network(document) == Obj(Put(network.fields, SOCKETS, List(items))) && Sockets(Network(document)) == List(items)
  {
    GetAfterPut(fields, NETWORK, Obj(Put(network.fields, SOCKETS, List(items))), Obj([]));
    GetAfterPut(network.fields, SOCKETS, List(items), List([]));
  }

  lemma SocketsReplaced(fields: seq<Field>, network: Json, items: seq<Json>, more: seq<Json>)
    requires network.Obj?
    ensures var document := Obj(Put(fields, NETWORK, Obj(Put(network.fields, SOCKETS, List(items)))));
      && Network(document).Obj?
      && WithSockets(document, more) == Obj(Put(fields, NETWORK, Obj(Put(network.fields, SOCKETS, List(more)))))
  {
    var grown, shrunk := Put(network.fields, SOCKETS, List(items)), Put(network.fields, SOCKETS, List(more));
    WrittenIsRead(fields, network, items);
    PutTwice(network.fields, SOCKETS, List(items), List(more));
    PutTwice(fields, NETWORK, Obj(grown), Obj(shrunk));
  }

  lemma EndpointTaken(document: Json, items: seq<Json>, endpoint: string)
    requires document.Obj? && Network(document).Obj? && Sockets(Network(document)) == List(items + [Str(endpoint)])
    requires IsAllowed(List(items)) && Str(endpoint) !in items && endpoint != ""
    ensures RemoveEndpoint(document, endpoint) == (WithSockets(document, items), 1)
  {
    GrownAndShrunk(items, Str(endpoint));
    var grown := items + [Str(endpoint)];
    assert forall i :: 0 <= i < |grown| ==> grown[i].Str? && grown[i].text != "";
    assert Str(endpoint) in grown;
  }

  /** The endpoint taken last, from fields whose sockets were only appended to. */
  lemma EndpointTakenLast(fields: seq<Field>, network: Json, endpoint: string)
    requires network.Obj? && IsAllowed(Sockets(network)) && Str(endpoint) !in Sockets(network).items && endpoint != ""
    ensures var items := Sockets(network).items;
      RemoveEndpoint(Obj(Put(fields, NETWORK, Obj(Put(network.fields, SOCKETS, List(items + [Str(endpoint)]))))), endpoint)
        == (Obj(Put(fields, NETWORK, Obj(Put(network.fields, SOCKETS, List(items))))), 1)
  {
    var items := Sockets(network).items;
    WrittenIsRead(fields, network, items + [Str(endpoint)]);
    EndpointTaken(Obj(Put(fields, NETWORK, Obj(Put(network.fields, SOCKETS, List(items + [Str(endpoint)]))))), items, endpoint);
    SocketsReplaced(fields, network, items + [Str(endpoint)], items);
  }

  lemma EmptiedElsewhere(fields: seq<Field>, servers: seq<Field>, network: Json)
    requires DistinctKeys(fields)
    ensures servers == [] ==> !HasKey(Put(Emptied(fields, servers), NETWORK, network), MCP)
  {
    if servers == [] {
      DeleteElsewhere(fields, MCP);
      OtherFieldKept(Delete(fields, MCP), NETWORK, network, MCP, Null);
    }
  }

  /** The entry is merged first, then the endpoint. */
  lemma BothApplied(document: Json, request: Request)
    requires Settings(document) && AsksForNew(document, request) && request.entry.Some? && request.endpoint.Some?
    requires Loaded(request.entry.value)
    ensures var merged := MergeEntry(document, request.entry.value).value.0;
      && merged.Obj? && Network(merged) == Network(document)
      && Apply(document, request) == Ok((WithSockets(merged, Sockets(Network(document)).items + [Str(request.endpoint.value)]), 2))
  {
    EntryMerged(document, request.entry.value);
    var merged := MergeEntry(document, request.entry.value).value.0;
    assert Network(merged) == Network(document);
  }

  /** They are taken in the same order. */
  lemma BothWithdrawn(document: Json, merged: Json, request: Request)
    requires AsksForNew(document, request) && request.entry.Some? && request.endpoint.Some?
    requires merged.Obj? && HasKey(merged.fields, MCP) && Network(merged) == Network(document)
    requires Servers(merged).Obj? && HasKey(Servers(merged).fields, NAME) && Delete(Servers(merged).fields, NAME) == Servers(document).fields
    ensures var network := Network(document); var items := Sockets(network).items;
      Withdraw(WithSockets(merged, items + [Str(request.endpoint.value)]), request)
        == (Obj(Put(Emptied(merged.fields, Servers(document).fields), NETWORK, Obj(Put(network.fields, SOCKETS, List(items))))), 2)
  {
    var network, endpoint := Network(document), request.endpoint.value;
    EntryTakenFirst(document, merged, Sockets(network).items + [Str(endpoint)]);
    EndpointTakenLast(Emptied(merged.fields, Servers(document).fields), network, endpoint);
  }

  lemma BothUndone(document: Json, request: Request)
    requires Settings(document) && AsksForNew(document, request) && request.entry.Some? && request.endpoint.Some?
    requires Loaded(request.entry.value)
    ensures Apply(document, request).Ok?
    ensures var (removed, count) := Withdraw(Apply(document, request).value.0, request);
      count == 2 == Apply(document, request).value.1 && (removed == document <==> Restorable(document, request))
  {
    var entry := request.entry.value;
    EntryAddedAndTaken(document, entry);
    var merged := MergeEntry(document, entry).value.0;
    BothApplied(document, request);
    BothWithdrawn(document, merged, request);
    EntryMerged(document, entry);
    EmptiedRestores(document, merged.fields, Servers(document).fields);
  }

  lemma EmptiedRestores(document: Json, fields: seq<Field>, servers: seq<Field>)
    requires Settings(document) && NetworkOk(document) && DistinctKeys(fields) && Servers(document) == Obj(servers)
    requires Emptied(fields, servers) == document.fields <==> !(HasKey(document.fields, MCP) && servers == [])
    ensures var network := Obj(Put(Network(document).fields, SOCKETS, Sockets(Network(document))));
      Obj(Put(Emptied(fields, servers), NETWORK, network)) == document <==>
        !(HasKey(document.fields, MCP) && servers == []) && HasKey(document.fields, NETWORK) && HasKey(Network(document).fields, SOCKETS)
  {
    EmptiedElsewhere(fields, servers, Obj(Put(Network(document).fields, SOCKETS, Sockets(Network(document)))));
    AllowedUntouched(document);
  }

  /** Merging a fragment that asks only for what is not there and removing it again: counts
      agree, and the settings come back exactly if they held no empty servers object while an
      entry was added, and already had the list of sockets while an endpoint was. */
  lemma RemoveUndoesMerge(document: Json, fragment: Json, fits: Json -> bool)
    requires Settings(document) && Loaded(fragment) && Merge(document, fragment, fits).Ok?
    requires AsksForNew(document, RequestOf(fragment))
    requires Remove(Merge(document, fragment, fits).value.0, fragment, fits).Ok?
    ensures var (merged, additions) := Merge(document, fragment, fits).value; var (removed, count) := Remove(merged, fragment, fits).value;
      count == additions > 0 && (removed == document <==> Restorable(document, RequestOf(fragment)))
  {
    var request := RequestOf(fragment);
    RequestIsLoaded(fragment);
    FragmentAsks(fragment);
    if request.endpoint.None? { EntryUndone(document, request); }
    else if request.entry.None? { EndpointUndone(document, request); }
    else { BothUndone(document, request); }
  }

  lemma FragmentAsks(fragment: Json)
    requires IsFragment(fragment)
    ensures RequestOf(fragment).entry.Some? || RequestOf(fragment).endpoint.Some?
  {
    assert fragment.fields[0].key in {NETWORK, MCP};
  }

  function Allowing(items: seq<Json>): Json { Obj([Field(NETWORK, Obj([Field(SOCKETS, List(items))]))]) }

  lemma AllowingIsFragment(endpoint: string)
    requires IsEndpoint(endpoint)
    ensures IsFragment(Allowing([Str(endpoint)])) && RequestOf(Allowing([Str(endpoint)])) == Request(None, Some(endpoint))
  {
    var fragment := Allowing([Str(endpoint)]);
    assert fragment.fields[0].key == NETWORK && HasKey(fragment.fields, NETWORK);
    assert |NETWORK| == 7 && |MCP| == 11;
    assert !HasKey(fragment.fields, MCP);
  }

  lemma NothingAllowedYet(endpoint: string)
    requires endpoint != ""
    ensures MergeEndpoint(Obj([]), endpoint) == Ok((Allowing([Str(endpoint)]), 1))
    ensures RemoveEndpoint(Allowing([Str(endpoint)]), endpoint) == (Allowing([]), 1)
    ensures MergeEndpoint(Allowing([Str(endpoint)]), endpoint) == Ok((Allowing([Str(endpoint)]), 0))
  {
    var network := Obj([]);
    assert Sockets(network) == List([]) && Network(Obj([])) == network;
    assert [] + [Str(endpoint)] == [Str(endpoint)];
    EndpointTakenLast([], network, endpoint);
    assert Str(endpoint) in [Str(endpoint)];
  }

  lemma NoHooksInNetwork(items: seq<Json>)
    ensures NoInlineHooks(Obj([])) && NoInlineHooks(Allowing(items))
  {
    assert |NETWORK| == 7 && |"hooks"| == 5;
    assert !HasKey(Allowing(items).fields, "hooks");
  }

  /** Settings `{}` do not come back: merging a fragment that allows any one endpoint and
      removing it leaves `{"network": {"allow_unix_sockets": []}}`. */
  lemma EmptyListStays(endpoint: string, fits: Json -> bool)
    requires IsEndpoint(endpoint) && forall document :: fits(document)
    ensures Merge(Obj([]), Allowing([Str(endpoint)]), fits) == Ok((Allowing([Str(endpoint)]), 1))
    ensures Remove(Allowing([Str(endpoint)]), Allowing([Str(endpoint)]), fits) == Ok((Allowing([]), 1))
  {
    AllowingIsFragment(endpoint);
    NothingAllowedYet(endpoint);
    NoHooksInNetwork([Str(endpoint)]);
  }

  // ------------------------------------------------------- what decides a merge

  predicate Absent(document: Json)
    requires document.Obj? && Servers(document).Obj?
  {
    !HasKey(Servers(document).fields, "atellagent")
  }

  /** Why a fragment is refused, in the order in which it is looked at. */
  function RefusalOf(document: Json, request: Request): Option<Refusal>
    requires document.Obj?
  {
    if !NoInlineHooks(document) then Some(InlineHooks)
    else if request.entry.Some? && !Servers(document).Obj? then Some(Invalid)
    else if request.entry.Some? && !Absent(document)
            && !SameJson(Get(Servers(document).fields, "atellagent", Null), request.entry.value) then Some(EntryConflict)
    else if request.endpoint.Some? && !NetworkOk(document) then Some(Invalid)
    else None
  }

  /** The two settings with what was asked for and missing added last. */
  predicate Added(document: Json, request: Request, result: Json, additions: nat)
    requires document.Obj? && RefusalOf(document, request) == None
  {
    var newEntry := request.entry.Some? && Absent(document);
    var newEndpoint := request.endpoint.Some? && Str(request.endpoint.value) !in Sockets(Network(document)).items;
    && result.Obj?
    && additions == (if newEntry then 1 else 0) + (if newEndpoint then 1 else 0)
    && Servers(result) == (if newEntry then Obj(Servers(document).fields + [Field("atellagent", request.entry.value)]) else Servers(document))
    && (request.endpoint.Some? ==>
          && Network(result).Obj? && Sockets(Network(result)).List?
          && Sockets(Network(result)).items
             == Sockets(Network(document)).items + (if newEndpoint then [Str(request.endpoint.value)] else []))
    && (request.endpoint.None? ==> Network(result) == Network(document))
  }

  lemma EntryStep(document: Json, entry: Json)
    requires Settings(document) && Loaded(entry) && Servers(document).Obj?
    requires Absent(document) || SameJson(Get(Servers(document).fields, "atellagent", Null), entry)
    ensures MergeEntry(document, entry).Ok?
    ensures var (result, additions) := MergeEntry(document, entry).value;
      && Settings(result) && Network(result) == Network(document) && additions == (if Absent(document) then 1 else 0)
      && Servers(result) == (if Absent(document) then Obj(Servers(document).fields + [Field("atellagent", entry)]) else Servers(document))
  {
    EntryMerged(document, entry);
    var result := MergeEntry(document, entry).value.0;
    assert Network(result) == Network(document);
    if Absent(document) { EntryAddedAndTaken(document, entry); }
  }

  lemma EndpointStep(document: Json, endpoint: string)
    requires Settings(document) && IsEndpoint(endpoint) && NetworkOk(document)
    ensures MergeEndpoint(document, endpoint).Ok?
    ensures var (result, additions) := MergeEndpoint(document, endpoint).value; var items := Sockets(Network(document)).items;
      && result.Obj? && Servers(result) == Servers(document) && additions == (if Str(endpoint) in items then 0 else 1)
      && Network(result).Obj? && Sockets(Network(result)) == List(items + (if Str(endpoint) in items then [] else [Str(endpoint)]))
  {
    EndpointIsAppendedOnce(document, endpoint);
    EndpointMerged(document, endpoint);
    var result := MergeEndpoint(document, endpoint).value.0;
    assert Servers(result) == Servers(document);
  }

  lemma AppliesUnlessRefused(document: Json, request: Request)
    requires Settings(document) && RefusalOf(document, request) == None
    requires (request.entry.Some? ==> Loaded(request.entry.value)) && (request.endpoint.Some? ==> IsEndpoint(request.endpoint.value))
    ensures Apply(document, request).Ok? && Added(document, request, Apply(document, request).value.0, Apply(document, request).value.1)
  {
    var changed := document;
    if request.entry.Some? {
      EntryStep(document, request.entry.value);
      changed := MergeEntry(document, request.entry.value).value.0;
    }
    if request.endpoint.Some? { EndpointStep(changed, request.endpoint.value); }
  }

  lemma RefusedIsNotApplied(document: Json, request: Request)
    requires Settings(document) && RefusalOf(document, request).Some? && NoInlineHooks(document)
    requires request.entry.Some? ==> Loaded(request.entry.value)
    ensures Apply(document, request) == Err(RefusalOf(document, request).value)
  {
    if RefusalOf(document, request).value.Invalid? && request.entry.Some? && Servers(document).Obj? {
      EntryStep(document, request.entry.value);
    }
  }

  /** Exactly these settings take a fragment: no inline hooks, servers that hold no entry of the
      client's name or the very one, and a network table that lists sockets or nothing. What is
      missing is added, once each, after what is there. */
  lemma FragmentDecides(document: Json, fragment: Json, fits: Json -> bool)
    requires Settings(document) && Loaded(fragment) && IsFragment(fragment) && forall result :: fits(result)
    ensures var merged := Merge(document, fragment, fits); var refusal := RefusalOf(document, RequestOf(fragment));
      if refusal.Some? then merged == Err(refusal.value)
      else merged.Ok? && Added(document, RequestOf(fragment), merged.value.0, merged.value.1)
  {
    var request := RequestOf(fragment);
    RequestIsLoaded(fragment);
    if RefusalOf(document, request) == None {
      AppliesUnlessRefused(document, request);
      ApplyTwice(document, request);
    } else if NoInlineHooks(document) {
      RefusedIsNotApplied(document, request);
    }
  }

  /** A socket path is allowed exactly when it is absolute, not a share, without a parent
      component, a wildcard or a control character. */
  lemma EndpointsAreExact(endpoint: string)
    ensures IsEndpoint(endpoint) <==>
      && |endpoint| > 1 && endpoint[0] == '/' && endpoint[1] != '/'
      && !HookParser.HasParent(endpoint, c => c == '/')
      && forall i :: 0 <= i < |endpoint| ==> endpoint[i] >= ' ' && endpoint[i] !in {'*', '?', '[', ']'}
  {
    HookParser.PathsAreAbsolute(endpoint);
    if |endpoint| > 0 { assert "//" <= endpoint <==> |endpoint| > 1 && endpoint[0] == '/' && endpoint[1] == '/'; }
    assert forall c: char :: c in "*?[]" <==> c in {'*', '?', '[', ']'};
  }
}
