/** The one entry the client keeps among a host's MCP servers (`cli/native_mcp_settings.py`).
    Contents are parsed values: printing and parsing again is taken to be the identity. */
module McpSettings {
  import opened Outcomes
  import opened Json
  import HookCommands

  datatype Rejection = SettingsInvalid | SettingsConflict

  const SERVERS := "mcpServers"
  const NAME := "atellagent"
  const LOADING := "alwaysLoad"

  /** `_same_entry`: equal as printed JSON with sorted keys, so types matter and order does not. */
  predicate SameJson(a: Json, b: Json)
    decreases a
  {
    match (a, b)
    case (Null, Null) => true
    case (Bool(x), Bool(y)) => x == y
    case (Int(x), Int(y)) => x == y
    case (Float(_, x), Float(_, y)) => x == y
    case (Str(x), Str(y)) => x == y
    case (List(xs), List(ys)) => |xs| == |ys| && forall i :: 0 <= i < |xs| ==> SameJson(xs[i], ys[i])
    case (Obj(xs), Obj(ys)) => |xs| == |ys| && forall i :: 0 <= i < |xs| ==> HasSameField(xs[i], ys)
    case _ => false
  }

  predicate HasSameField(f: Field, ys: seq<Field>)
    decreases f
  {
    exists j :: 0 <= j < |ys| && f.key == ys[j].key && SameJson(f.value, ys[j].value)
  }

  lemma {:induction false} SameAsItself(a: Json)
    requires Loaded(a)
    ensures SameJson(a, a)
    decreases a
  {
    match a
    case List(items) =>
      forall i | 0 <= i < |items| ensures SameJson(items[i], items[i]) { SameAsItself(items[i]); }
    case Obj(fields) =>
      forall i | 0 <= i < |fields| ensures HasSameField(fields[i], fields) { SameAsItself(fields[i].value); }
    case _ =>
  }

  // ------------------------------------------------------------------ the entry

  function Value(entry: Json, key: string): Json
    requires entry.Obj?
  {
    Get(entry.fields, key, Null)
  }

  predicate HasKeys(entry: Json, keys: set<string>) {
    entry.Obj? && |entry.fields| == |keys| && forall k :: k in keys ==> HasKey(entry.fields, k)
  }

  /** The launch arguments are printable as a guarded command of the client. */
  predicate Launches(entry: Json)
    requires entry.Obj?
  {
    && Value(entry, "command").Str? && Value(entry, "args").List?
    && var args := Value(entry, "args").items;
      && |args| == 3 && args[0] == Str("mcp-bridge") && args[1] == Str("--socket") && args[2].Str?
      && var executable := Value(entry, "command").text;
         HookCommands.Command([executable, "hook", "--host", "codex", "--socket", args[2].text],
                              if "/" <= executable then "darwin" else "win32", "codex").Ok?
  }

  /** `entry` for JSON hosts. */
  predicate IsEntry(entry: Json) {
    && HasKeys(entry, {"command", "args", "type", LOADING}) && Launches(entry)
    && Value(entry, "type") == Str("stdio") && Value(entry, LOADING) == Bool(true)
  }

  predicate IsFragment(fragment: Json) {
    && fragment.Obj? && |fragment.fields| == 1 && fragment.fields[0].key == SERVERS
    && var servers := fragment.fields[0].value;
      servers.Obj? && |servers.fields| == 1 && servers.fields[0].key == NAME && IsEntry(servers.fields[0].value)
  }

  function Generated(fragment: Json): Json
    requires IsFragment(fragment)
  {
    fragment.fields[0].value.fields[0].value
  }

  /** The launch earlier versions wrote, without the loading preference. */
  function PriorLaunch(entry: Json): Json
    requires entry.Obj?
  {
    Obj(Delete(entry.fields, LOADING))
  }

  // ------------------------------------------------------------------ merge

  function Saved(document: Json): Json
    requires document.Obj?
  {
    Get(document.fields, SERVERS, Obj([]))
  }

  predicate Holds(servers: Json, entry: Json) {
    servers.Obj? && HasKey(servers.fields, NAME) && SameJson(Get(servers.fields, NAME, Null), entry)
  }

  function Installed(document: Json, entry: Json): Json
    requires document.Obj? && Saved(document).Obj?
  {
    Obj(Put(document.fields, SERVERS, Obj(Put(Saved(document).fields, NAME, entry))))
  }

  function Uninstalled(document: Json): Json
    requires document.Obj? && Saved(document).Obj?
  {
    var servers := Delete(Saved(document).fields, NAME);
    if servers == [] then Obj(Delete(document.fields, SERVERS)) else Obj(Put(document.fields, SERVERS, Obj(servers)))
  }

  /** `merge_json`, both ways. */
  function Merge(document: Json, fragment: Json, remove: bool, fits: Json -> bool): Result<(Json, nat), Rejection> {
    if !document.Obj? || !IsFragment(fragment) || !Saved(document).Obj? then Err(SettingsInvalid)
    else
      var servers, entry := Saved(document), Generated(fragment);
      var update := Holds(servers, PriorLaunch(entry));
      if !update && HasKey(servers.fields, NAME) && !Holds(servers, entry) then Err(SettingsConflict)
      else if !update && HasKey(servers.fields, NAME) == !remove then Ok((document, 0))
      else
        var result := if remove then Uninstalled(document) else Installed(document, entry);
        if fits(result) then Ok((result, 1)) else Err(SettingsInvalid)
  }

  // ------------------------------------------------------------- properties

  predicate Settings(document: Json) { Loaded(document) && document.Obj? && Saved(document).Obj? }

  /** Only the field `key` differs: every other one keeps its place and value. */
  predicate OnlyField(before: seq<Field>, after: seq<Field>, key: string) {
    && |before| <= |after| <= |before| + 1
    && (forall i :: 0 <= i < |before| ==> after[i].key == before[i].key && (before[i].key != key ==> after[i] == before[i]))
    && (|after| > |before| ==> after[|before|].key == key && !HasKey(before, key))
  }

  lemma PutAtField(fields: seq<Field>, key: string, value: Json, i: nat)
    requires DistinctKeys(fields) && i < |fields| && fields[i].key == key
    ensures var after := Put(fields, key, value);
      && after == fields[i := Field(key, value)] && DistinctKeys(after) && OnlyField(fields, after, key)
  {
    PutReplaces(fields, key, value, i);
  }

  lemma PutAtEnd(fields: seq<Field>, key: string, value: Json)
    requires DistinctKeys(fields) && !HasKey(fields, key)
    ensures var after := Put(fields, key, value);
      && after == fields + [Field(key, value)] && DistinctKeys(after) && OnlyField(fields, after, key)
  {
    GetMisses(fields, key, value);
  }

  lemma PutIsOnlyField(fields: seq<Field>, key: string, value: Json)
    requires DistinctKeys(fields)
    ensures OnlyField(fields, Put(fields, key, value), key)
    ensures DistinctKeys(Put(fields, key, value)) && HasKey(Put(fields, key, value), key)
    ensures forall default: Json :: Get(Put(fields, key, value), key, default) == value
  {
    var after := Put(fields, key, value);
    var at: nat := |fields|;
    if HasKey(fields, key) {
      at :| at < |fields| && fields[at].key == key;
      PutAtField(fields, key, value, at);
    } else {
      PutAtEnd(fields, key, value);
    }
    assert after[at] == Field(key, value);
    forall default: Json ensures Get(after, key, default) == value { GetFinds(after, key, default, at); }
  }

  lemma SavedIsDistinct(document: Json)
    requires Settings(document)
    ensures DistinctKeys(document.fields) && DistinctKeys(Saved(document).fields)
  {
    if HasKey(document.fields, SERVERS) {
      var i :| 0 <= i < |document.fields| && document.fields[i].key == SERVERS;
      GetFinds(document.fields, SERVERS, Obj([]), i);
      assert Loaded(document.fields[i].value);
    } else {
      GetMisses(document.fields, SERVERS, Obj([]));
    }
  }

  lemma GeneratedIsLoaded(fragment: Json)
    requires Loaded(fragment) && IsFragment(fragment)
    ensures Loaded(Generated(fragment))
  {
    assert Loaded(fragment.fields[0].value);
    assert Loaded(fragment.fields[0].value.fields[0].value);
  }

  lemma PriorIsShorter(entry: Json)
    requires IsEntry(entry) && Loaded(entry)
    ensures |PriorLaunch(entry).fields| == |entry.fields| - 1 && !SameJson(entry, PriorLaunch(entry))
  {
    var i :| 0 <= i < |entry.fields| && entry.fields[i].key == LOADING;
    DeleteRemoves(entry.fields, LOADING, i);
  }

  lemma InstalledServers(document: Json, entry: Json)
    requires Settings(document)
    ensures Installed(document, entry).Obj? && Saved(Installed(document, entry)) == Obj(Put(Saved(document).fields, NAME, entry))
    ensures OnlyField(document.fields, Installed(document, entry).fields, SERVERS)
    ensures OnlyField(Saved(document).fields, Saved(Installed(document, entry)).fields, NAME)
    ensures HasKey(Saved(Installed(document, entry)).fields, NAME)
    ensures Get(Saved(Installed(document, entry)).fields, NAME, Null) == entry
  {
    SavedIsDistinct(document);
    PutIsOnlyField(Saved(document).fields, NAME, entry);
    PutIsOnlyField(document.fields, SERVERS, Obj(Put(Saved(document).fields, NAME, entry)));
  }

  /** What installing the entry over something else leaves. */
  lemma InstalledOverOther(document: Json, entry: Json)
    requires Settings(document) && IsEntry(entry) && Loaded(entry) && !Holds(Saved(document), entry)
    ensures Installed(document, entry) != document && Holds(Saved(Installed(document, entry)), entry)
    ensures !Holds(Saved(Installed(document, entry)), PriorLaunch(entry))
  {
    InstalledServers(document, entry);
    SameAsItself(entry);
    NotBothForms(Saved(Installed(document, entry)), entry);
  }

  /** A successful merge leaves the generated entry, changes no other setting and no other
      server, and a second merge changes nothing. The saved entry is replaced in place only
      when it is the exact launch an earlier version wrote. */
  lemma MergeInstallsOnlyItsEntry(document: Json, fragment: Json, fits: Json -> bool)
    requires Settings(document) && Loaded(fragment) && Merge(document, fragment, false, fits).Ok?
    ensures var (result, additions) := Merge(document, fragment, false, fits).value;
      && result.Obj? && Holds(Saved(result), Generated(fragment)) && Merge(result, fragment, false, fits) == Ok((result, 0))
      && OnlyField(document.fields, result.fields, SERVERS) && OnlyField(Saved(document).fields, Saved(result).fields, NAME)
      && (additions == 0 <==> result == document)
      && (additions == 1 && HasKey(Saved(document).fields, NAME) ==> Holds(Saved(document), PriorLaunch(Generated(fragment))))
  {
    var entry := Generated(fragment);
    var (result, additions) := Merge(document, fragment, false, fits).value;
    GeneratedIsLoaded(fragment);
    NotBothForms(Saved(document), entry);
    if additions == 1 {
      InstalledServers(document, entry);
      InstalledOverOther(document, entry);
    }
  }

  /** No entry equals both the generated one and the one without its loading preference. */
  lemma NotBothForms(servers: Json, entry: Json)
    requires IsEntry(entry) && Loaded(entry)
    ensures !(Holds(servers, entry) && Holds(servers, PriorLaunch(entry)))
  {
    PriorIsShorter(entry);
  }

  /** Exactly the field `key` is gone; the others keep their order and values. */
  predicate FieldGone(before: seq<Field>, after: seq<Field>, key: string) {
    exists i :: 0 <= i < |before| && before[i].key == key && after == before[..i] + before[i + 1..]
  }

  lemma DeletedField(fields: seq<Field>, key: string)
    requires DistinctKeys(fields) && HasKey(fields, key)
    ensures FieldGone(fields, Delete(fields, key), key) && !HasKey(Delete(fields, key), key)
  {
    var i :| 0 <= i < |fields| && fields[i].key == key;
    DeleteRemoves(fields, key, i);
  }

  lemma UninstalledServers(document: Json)
    requires Settings(document) && HasKey(Saved(document).fields, NAME)
    ensures var result := Uninstalled(document);
      && result.Obj? && Saved(result).Obj? && !HasKey(Saved(result).fields, NAME)
      && FieldGone(Saved(document).fields, Saved(result).fields, NAME)
      && if Saved(result).fields == [] then FieldGone(document.fields, result.fields, SERVERS)
         else OnlyField(document.fields, result.fields, SERVERS) && |result.fields| == |document.fields|
  {
    SavedIsDistinct(document);
    DeletedField(Saved(document).fields, NAME);
    var servers := Delete(Saved(document).fields, NAME);
    if !HasKey(document.fields, SERVERS) { GetMisses(document.fields, SERVERS, Obj([])); }
    if servers == [] {
      DeletedField(document.fields, SERVERS);
      GetMisses(Delete(document.fields, SERVERS), SERVERS, Obj([]));
    } else {
      PutIsOnlyField(document.fields, SERVERS, Obj(servers));
    }
  }

  /** A removal that succeeds takes the generated entry or the exact earlier launch and nothing
      else: every other server and setting keeps its place and value, only an `mcpServers`
      object left empty goes too, and a second removal changes nothing. Settings without an
      entry of the client's name are returned as they are. */
  lemma RemovalTakesOnlyItsEntry(document: Json, fragment: Json, fits: Json -> bool)
    requires Settings(document) && Merge(document, fragment, true, fits).Ok?
    ensures var (result, removals) := Merge(document, fragment, true, fits).value; var before := Saved(document);
      && result.Obj? && Saved(result).Obj? && !HasKey(Saved(result).fields, NAME)
      && Merge(result, fragment, true, fits) == Ok((result, 0))
      && removals == (if HasKey(before.fields, NAME) then 1 else 0)
      && (removals == 0 ==> result == document)
      && (removals == 1 ==> Holds(before, Generated(fragment)) || Holds(before, PriorLaunch(Generated(fragment))))
      && (removals == 1 ==> FieldGone(before.fields, Saved(result).fields, NAME))
      && (removals == 1 && Saved(result).fields == [] ==> FieldGone(document.fields, result.fields, SERVERS))
      && (removals == 1 && Saved(result).fields != [] ==>
            OnlyField(document.fields, result.fields, SERVERS) && |result.fields| == |document.fields|)
  {
    if HasKey(Saved(document).fields, NAME) { UninstalledServers(document); }
  }

  lemma AddedAndTaken(fields: seq<Field>, key: string, value: Json)
    requires DistinctKeys(fields) && !HasKey(fields, key)
    ensures var grown := fields + [Field(key, value)]; Put(fields, key, value) == grown && HasKey(grown, key) && Delete(grown, key) == fields
  {
    PutAtEnd(fields, key, value);
    var grown := fields + [Field(key, value)];
    assert grown[|fields|].key == key;
    DeleteRemoves(grown, key, |fields|);
  }

  /** Removing right after adding the entry to settings that had none gives the settings back,
      exactly unless they held an empty `mcpServers` object, which goes with the entry. */
  lemma RemoveUndoesMerge(document: Json, fragment: Json, fits: Json -> bool)
    requires Settings(document) && Loaded(fragment) && Merge(document, fragment, false, fits).Ok?
    requires !HasKey(Saved(document).fields, NAME)
    requires Merge(Merge(document, fragment, false, fits).value.0, fragment, true, fits).Ok?
    ensures var removed := Merge(Merge(document, fragment, false, fits).value.0, fragment, true, fits).value;
      && removed.1 == 1
      && (removed.0 == document <==> !(HasKey(document.fields, SERVERS) && Saved(document) == Obj([])))
  {
    var entry := Generated(fragment);
    GeneratedIsLoaded(fragment);
    SameAsItself(entry);
    PriorIsShorter(entry);
    InstalledServers(document, entry);
    SavedIsDistinct(document);
    var result := Installed(document, entry);
    AddedAndTaken(Saved(document).fields, NAME, entry);
    PutIsOnlyField(document.fields, SERVERS, Saved(result));
    RestoredField(document.fields, SERVERS, Saved(result));
  }

  /** Taking the whole field away again restores the settings exactly if it was not there. */
  lemma DeletedAgain(fields: seq<Field>, key: string, value: Json)
    requires DistinctKeys(fields)
    ensures Delete(Put(fields, key, value), key) == fields <==> !HasKey(fields, key)
  {
    if HasKey(fields, key) {
      var i :| 0 <= i < |fields| && fields[i].key == key;
      PutAtField(fields, key, value, i);
      DeleteRemoves(fields[i := Field(key, value)], key, i);
      assert |fields[..i] + fields[i + 1..]| < |fields|;
    } else {
      PutAtEnd(fields, key, value);
      DeleteRemoves(fields + [Field(key, value)], key, |fields|);
    }
  }

  lemma PutBack(fields: seq<Field>, key: string, value: Json)
    requires DistinctKeys(fields) && HasKey(fields, key)
    ensures Put(Put(fields, key, value), key, Get(fields, key, Obj([]))) == fields
  {
    var i :| 0 <= i < |fields| && fields[i].key == key;
    var saved := Get(fields, key, Obj([]));
    GetFinds(fields, key, Obj([]), i);
    PutTwice(fields, key, value, saved);
    PutAtField(fields, key, saved, i);
    assert fields[i] == Field(key, saved);
  }

  /** Writing the saved value back, or dropping the field where that was an empty object,
      restores the fields exactly unless they held an empty object. */
  lemma RestoredField(fields: seq<Field>, key: string, value: Json)
    requires DistinctKeys(fields)
    ensures var saved := Get(fields, key, Obj([]));
      var restored := if saved == Obj([]) then Delete(Put(fields, key, value), key) else Put(Put(fields, key, value), key, saved);
      restored == fields <==> !(HasKey(fields, key) && saved == Obj([]))
  {
    DeletedAgain(fields, key, value);
    if HasKey(fields, key) {
      PutBack(fields, key, value);
    } else {
      GetMisses(fields, key, Obj([]));
    }
  }

  // ------------------------------------------------------- what decides a merge

  /** The generated entry as an earlier version wrote it: without its loading preference. */
  ghost predicate Earlier(entry: Json, prior: Json) {
    entry.Obj? && prior.Obj? && FieldGone(entry.fields, prior.fields, "alwaysLoad")
  }

  /** The saved servers with the entry where the client's name is, or after the others. */
  predicate EntryWritten(before: seq<Field>, after: seq<Field>, entry: Json) {
    if HasKey(before, "atellagent") then
      exists i :: 0 <= i < |before| && before[i].key == "atellagent" && after == before[i := Field("atellagent", entry)]
    else after == before + [Field("atellagent", entry)]
  }

  lemma WrittenOnce(servers: seq<Field>, entry: Json)
    requires DistinctKeys(servers)
    ensures EntryWritten(servers, Put(servers, NAME, entry), entry)
  {
    if HasKey(servers, NAME) {
      var i :| 0 <= i < |servers| && servers[i].key == NAME;
      PutAtField(servers, NAME, entry, i);
    } else {
      PutAtEnd(servers, NAME, entry);
    }
  }

  /** What a saved entry of the client's name makes of a merge or a removal: with none, the
      entry is added, and there is nothing to remove; the generated entry is kept or removed;
      the exact earlier launch is brought up to date or removed; any other is a conflict. */
  lemma SavedEntryDecides(document: Json, fragment: Json, fits: Json -> bool) returns (prior: Json)
    requires Settings(document) && Loaded(fragment) && IsFragment(fragment) && forall result :: fits(result)
    ensures Earlier(Generated(fragment), prior)
    ensures var servers := Saved(document).fields; var entry := Generated(fragment);
      var saved := Get(servers, "atellagent", Null);
      var merged := Merge(document, fragment, false, fits); var removed := Merge(document, fragment, true, fits);
      if !HasKey(servers, "atellagent") then
        merged.Ok? && merged.value.1 == 1 && Rewritten(document, merged.value.0, entry) && removed == Ok((document, 0))
      else if SameJson(saved, entry) then merged == Ok((document, 0)) && removed.Ok? && removed.value.1 == 1
      else if SameJson(saved, prior) then
        merged.Ok? && merged.value.1 == 1 && Rewritten(document, merged.value.0, entry) && removed.Ok? && removed.value.1 == 1
      else merged == removed == Err(SettingsConflict)
  {
    var entry := Generated(fragment);
    prior := PriorLaunch(entry);
    GeneratedIsLoaded(fragment);
    DeletedField(entry.fields, LOADING);
    NotBothForms(Saved(document), entry);
    InstalledIsRewritten(document, entry);
  }

  /** The entry is written among the saved servers, and nothing else changes. */
  predicate Rewritten(document: Json, result: Json, entry: Json)
    requires document.Obj? && Saved(document).Obj?
  {
    && result.Obj? && Saved(result).Obj? && OnlyField(document.fields, result.fields, "mcpServers")
    && EntryWritten(Saved(document).fields, Saved(result).fields, entry)
  }

  lemma InstalledIsRewritten(document: Json, entry: Json)
    requires Settings(document)
    ensures Rewritten(document, Installed(document, entry), entry)
  {
    SavedIsDistinct(document);
    InstalledServers(document, entry);
    WrittenOnce(Saved(document).fields, entry);
  }

  // ------------------------------------------------------------- an example

  function ExampleEntry(): Json {
    Obj([Field("command", Str("/a")), Field("args", List([Str("mcp-bridge"), Str("--socket"), Str("/s")])),
         Field("type", Str("stdio")), Field(LOADING, Bool(true))])
  }

  function ExampleFragment(): Json { Obj([Field(SERVERS, Obj([Field(NAME, ExampleEntry())]))]) }

  lemma ExampleLaunches()
    ensures HookCommands.Command(["/a", "hook", "--host", "codex", "--socket", "/s"], "darwin", "codex").Ok?
  {
    var argv := ["/a", "hook", "--host", "codex", "--socket", "/s"];
    assert argv[1..5] == ["hook", "--host", "codex", "--socket"];
    assert forall i :: 0 <= i < |argv| ==> HookCommands.Bounded(argv[i]);
    assert HookCommands.PosixAbsolute("/a") && HookCommands.PosixAbsolute("/s");
  }

  lemma ExampleValues()
    ensures var entry := ExampleEntry();
      && DistinctKeys(entry.fields)
      && Value(entry, "command") == Str("/a") && Value(entry, "type") == Str("stdio") && Value(entry, LOADING) == Bool(true)
      && Value(entry, "args") == List([Str("mcp-bridge"), Str("--socket"), Str("/s")])
  {
    var fields := ExampleEntry().fields;
    assert |"command"| == 7 && |"args"| == 4 && |"type"| == 4 && |LOADING| == 10 && "args"[0] != "type"[0];
    GetFinds(fields, "command", Null, 0);
    GetFinds(fields, "args", Null, 1);
    GetFinds(fields, "type", Null, 2);
    GetFinds(fields, LOADING, Null, 3);
  }

  lemma ExampleKeys()
    ensures HasKeys(ExampleEntry(), {"command", "args", "type", LOADING})
  {
    var fields := ExampleEntry().fields;
    assert fields[0].key == "command" && fields[1].key == "args" && fields[2].key == "type" && fields[3].key == LOADING;
    assert |"command"| == 7 && |"args"| == 4 && |"type"| == 4 && |LOADING| == 10 && "args"[0] != "type"[0];
    assert |{"command", "args", "type", LOADING}| == 4;
  }

  lemma ExampleIsEntry()
    ensures IsEntry(ExampleEntry())
  {
    ExampleValues();
    ExampleKeys();
    ExampleLaunches();
    assert "/" <= "/a";
  }

  lemma ExampleIsLoaded()
    ensures Loaded(ExampleFragment())
  {
    ExampleValues();
    var entry := ExampleEntry();
    assert Loaded(entry.fields[1].value);
    assert Loaded(entry);
    assert Loaded(Obj([Field(NAME, entry)]));
  }

  lemma ExampleIsFragment()
    ensures IsFragment(ExampleFragment()) && Loaded(ExampleFragment()) && Generated(ExampleFragment()) == ExampleEntry()
  {
    ExampleIsEntry();
    ExampleIsLoaded();
  }

  function EmptyServers(): Json { Obj([Field(SERVERS, Obj([]))]) }

  function ExampleInstalled(): Json { Obj([Field(SERVERS, Obj([Field(NAME, ExampleEntry())]))]) }

  lemma ExampleInstalls()
    ensures var document := EmptyServers();
      && Settings(document) && Saved(document) == Obj([]) && !HasKey(Saved(document).fields, NAME)
      && Installed(document, ExampleEntry()) == ExampleInstalled()
  {
    assert Loaded(Obj([]));
    assert Loaded(EmptyServers());
  }

  lemma ExampleUninstalls()
    ensures var installed := ExampleInstalled();
      && Saved(installed) == Obj([Field(NAME, ExampleEntry())]) && HasKey(Saved(installed).fields, NAME)
      && Uninstalled(installed) == Obj([])
  {
    var servers := [Field(NAME, ExampleEntry())];
    assert servers[0].key == NAME && Delete(servers, NAME) == [];
    assert Delete(ExampleInstalled().fields, SERVERS) == [];
  }

  /** Settings `{"mcpServers": {}}` do not come back: adding and removing the entry leaves `{}`. */
  lemma EmptyServersAreDropped(fits: Json -> bool)
    requires forall document :: fits(document)
    ensures Settings(EmptyServers())
    ensures Merge(EmptyServers(), ExampleFragment(), false, fits) == Ok((ExampleInstalled(), 1))
    ensures Merge(ExampleInstalled(), ExampleFragment(), true, fits) == Ok((Obj([]), 1))
  {
    ExampleIsFragment();
    GeneratedIsLoaded(ExampleFragment());
    SameAsItself(ExampleEntry());
    ExampleInstalls();
    ExampleUninstalls();
    NotBothForms(Saved(ExampleInstalled()), ExampleEntry());
  }
}
