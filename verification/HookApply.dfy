/** Saving reviewed host settings while other programs may edit them
    (`cli/native_hook_posix_apply.py`, `cli/native_hook_review.py`). */
module HookApply {
  import opened Outcomes

  /** A settings file below the home directory. */
  datatype Path = Path(parents: seq<string>, name: string)

  type Bytes = seq<nat>

  /** A snapshot. `version` stands for inode, times, owner and mode: every write changes it.
      `missing` counts the path's missing components. */
  datatype File = Missing(missing: nat) | Present(version: nat, content: Bytes)

  function Content(f: File): Bytes { if f.Present? then f.content else [] }

  datatype Edit = Edit(path: Path, before: File, after: Bytes)

  datatype Guard = Guard(path: Path, before: File)

  datatype Review = Review(edits: seq<Edit>, guards: seq<Guard>)

  datatype Result = Refused | Saved(written: seq<Path>) | ApplyError(written: seq<Path>)

  /** One file replaced by `Apply`: what each reviewed path held at its own final check
      (`seen`), what it held at the rename (`moment`), and the paths nobody edited in between. */
  datatype Write = Write(path: Path, content: Bytes, seen: map<Path, File>, moment: map<Path, File>, untouched: set<Path>)

  /** The home directory. `edits` counts, path by path, what other programs did to it, and
      `failures` the operations that failed; `made` are the directories and `writes` the
      replacements of this program. */
  class Home {
    var files: map<Path, File>
    var directories: set<seq<string>>
    ghost var edits: Path -> nat
    ghost var failures: nat
    ghost var made: seq<seq<string>>
    ghost var writes: seq<Write>

    function Look(path: Path): File
      reads this
    {
      if path in files then files[path] else Missing(if path.parents in directories || path.parents == [] then 1 else 2)
    }

    ghost function LookAll(paths: set<Path>): map<Path, File>
      reads this
    {
      map p | p in paths :: Look(p)
    }

    /** Only other programs have changed what any path shows. */
    twostate predicate OnlyOthers()
      reads this
    {
      && writes == old(writes) && made == old(made) && old(failures) <= failures
      && forall p :: old(edits(p)) <= edits(p) && (edits(p) == old(edits(p)) ==> Look(p) == old(Look(p)))
    }

    /** Since then nothing has failed and nobody has edited. */
    ghost predicate Calm(since: Path -> nat, failed: nat)
      reads this
    {
      failures == failed && forall p :: edits(p) == since(p)
    }

    predicate Shows(shown: map<Path, File>)
      reads this
    {
      forall p :: p in shown ==> Look(p) == shown[p]
    }

    predicate Holds(edit: Edit)
      reads this
    {
      Look(edit.path).Present? && Look(edit.path).content == edit.after
    }

    /** Each path showed what was seen, and still does unless it was edited since. */
    ghost predicate Saw(seen: map<Path, File>, since: map<Path, nat>)
      reads this
    {
      seen.Keys == since.Keys && forall p :: p in seen ==> since[p] <= edits(p) && (edits(p) == since[p] ==> Look(p) == seen[p])
    }

    twostate predicate Later()
      reads this
    {
      old(failures) <= failures && forall p :: old(edits(p)) <= edits(p)
    }

    /** Other programs run for a while; they may change anything. */
    method Meanwhile()
      modifies this
      ensures OnlyOthers() && failures == old(failures)
    {
      files := *;
      directories := *;
      ghost var before, changed := edits, iset p: Path | Look(p) != old(Look(p));
      edits := p => before(p) + if p in changed then 1 else 0;
    }

    /** `snapshot`, or its failure. */
    method Snapshot(path: Path) returns (file: Option<File>)
      modifies this
      ensures OnlyOthers() && failures == old(failures) + if file.None? then 1 else 0
      ensures file.Some? ==> file.value == Look(path)
    {
      Meanwhile();
      var fails: bool := *;
      file := if fails then None else Some(Look(path));
      if fails { failures := failures + 1; }
    }

    /** The path shows what it did, or is missing in a directory made now. */
    predicate ShownOrMade(p: Path, before: File, madeNow: bool, parents: seq<string>)
      reads this
    {
      Look(p) == before || (madeNow && p.parents == parents && Look(p).Missing? && before.Missing?)
    }

    /** `os.mkdir`: `None` for an error, else whether this call made the directory. */
    method MakeDirectory(parents: seq<string>) returns (created: Option<bool>)
      modifies this
      ensures writes == old(writes)
      ensures made == old(made) + if created == Some(true) then [parents] else []
      ensures failures == old(failures) + if created.None? then 1 else 0
      ensures forall p :: old(edits(p)) <= edits(p)
      ensures forall p :: edits(p) == old(edits(p)) ==> ShownOrMade(p, old(Look(p)), created == Some(true), parents)
    {
      Meanwhile();
      var fails: bool := *;
      if fails {
        failures := failures + 1;
        return None;
      }
      if parents in directories { return Some(false); }
      directories := directories + {parents};
      made := made + [parents];
      return Some(true);
    }

    /** `os.replace`, all or nothing. */
    method Replace(path: Path, content: Bytes, ghost seen: map<Path, File>, ghost since: map<Path, nat>) returns (ok: bool)
      requires since.Keys == seen.Keys
      modifies this
      ensures made == old(made) && (!ok ==> writes == old(writes))
      ensures var write := Write(path, content, seen, old(LookAll(seen.Keys)), set p | p in seen && old(edits(p)) == since[p]);
        ok ==> writes == old(writes) + [write]
      ensures ok ==> Look(path).Present? && Look(path).content == content
      ensures edits == old(edits) && failures == old(failures) + (if ok then 0 else 1)
      ensures forall p :: p != path ==> Look(p) == old(Look(p))
    {
      var fails: bool := *;
      if fails {
        failures := failures + 1;
        return false;
      }
      var version: nat := *;
      writes := writes + [Write(path, content, seen, LookAll(seen.Keys), set p | p in seen && edits(p) == since[p])];
      files := files[path := Present(version, content)];
      return true;
    }
  }

  // ---------------------------------------------------------- specification

  /** The reviewed paths and what was reviewed of each. */
  function Reviewed(r: Review): seq<Guard> {
    seq(|r.edits|, i requires 0 <= i < |r.edits| => Guard(r.edits[i].path, r.edits[i].before)) + r.guards
  }

  function Paths(guards: seq<Guard>): set<Path> { set i | 0 <= i < |guards| :: guards[i].path }

  /** `prepare` never reviews a path twice. */
  predicate Distinct(guards: seq<Guard>) { forall i, j :: 0 <= i < j < |guards| ==> guards[i].path != guards[j].path }

  function Changed(edits: seq<Edit>): seq<Edit> {
    if edits == [] then []
    else
      var front, last := edits[..|edits| - 1], edits[|edits| - 1];
      if last.after == Content(last.before) then Changed(front) else Changed(front) + [last]
  }

  /** A path this call has already replaced holds its reviewed new content; any other still is
      as reviewed, where a missing file may have gained a directory this call created. */
  predicate AsReviewed(g: Guard, created: set<seq<string>>, done: seq<Edit>, file: File) {
    if exists i :: 0 <= i < |done| && done[i].path == g.path then
      exists i :: 0 <= i < |done| && done[i].path == g.path && file.Present? && file.content == done[i].after
    else file == g.before || (file.Missing? && g.before.Missing? && g.path.parents in created)
  }

  predicate Baselines(guards: seq<Guard>, created: set<seq<string>>, done: seq<Edit>, files: map<Path, File>) {
    files.Keys == Paths(guards) && forall i :: 0 <= i < |guards| ==> AsReviewed(guards[i], created, done, files[guards[i].path])
  }

  /** One replacement, after those of `done`: every reviewed path was seen at its baseline, and
      at the rename still holds it unless it was edited since. */
  predicate WriteOk(guards: seq<Guard>, created: set<seq<string>>, done: seq<Edit>, edit: Edit, w: Write) {
    && w.path == edit.path && w.content == edit.after
    && Baselines(guards, created, done, w.seen) && w.moment.Keys == w.seen.Keys
    && forall p :: p in w.untouched ==> p in w.seen && w.moment[p] == w.seen[p]
  }

  predicate WritesOk(guards: seq<Guard>, created: set<seq<string>>, edits: seq<Edit>, writes: seq<Write>) {
    |writes| <= |edits| && forall i :: 0 <= i < |writes| ==> WriteOk(guards, created, edits[..i], edits[i], writes[i])
  }

  function Written(edits: seq<Edit>): seq<Path> { seq(|edits|, i requires 0 <= i < |edits| => edits[i].path) }

  // --------------------------------------------------------------- the code

  /** One more snapshot. */
  method LookAgain(home: Home, path: Path, ghost seen: map<Path, File>, ghost since: map<Path, nat>)
      returns (file: Option<File>, ghost now: map<Path, nat>)
    requires home.Saw(seen, since)
    modifies home
    ensures home.OnlyOthers() && home.failures == old(home.failures) + if file.None? then 1 else 0
    ensures file.None? ==> home.Saw(seen, now)
    ensures file.Some? ==> file.value == home.Look(path) && home.Saw(seen[path := file.value], now)
  {
    now := since;
    file := home.Snapshot(path);
    if file.Some? { now := now[path := home.edits(path)]; }
  }

  lemma NextPaths(order: seq<Guard>, i: nat)
    requires i < |order|
    ensures order[i].path in Paths(order) && Paths(order[..i + 1]) == Paths(order[..i]) + {order[i].path}
  {
    assert order[..i + 1] == order[..i] + [order[i]];
  }

  /** Compares every baseline with a fresh snapshot, one path after the other. */
  method RequireUnchanged(home: Home, order: seq<Guard>, baselines: map<Path, File>)
      returns (ok: bool, ghost seen: map<Path, File>, ghost since: map<Path, nat>)
    requires Paths(order) == baselines.Keys
    modifies home
    ensures home.OnlyOthers()
    ensures home.Calm(old(home.edits), old(home.failures)) && old(home.Shows(baselines)) ==> ok
    ensures ok ==> seen == baselines && home.Saw(seen, since)
  {
    seen, since := map[], map[];
    for i := 0 to |order|
      invariant home.OnlyOthers()
      invariant seen.Keys == Paths(order[..i]) && home.Saw(seen, since)
      invariant forall p :: p in seen ==> p in baselines && seen[p] == baselines[p]
    {
      var path := order[i].path;
      var file;
      NextPaths(order, i);
      file, since := LookAgain(home, path, seen, since);
      if file.None? || file.value != baselines[path] { return false, seen, since; }
      seen := seen[path := file.value];
    }
    assert order[..|order|] == order;
    ok := true;
  }

  /** The directories made since a call began. */
  ghost predicate MadeSince(made: seq<seq<string>>, base: nat, created: set<seq<string>>) {
    base <= |made| && forall d :: d in created <==> d in made[base..]
  }

  method MakeParents(home: Home, edits: seq<Edit>) returns (ok: bool, created: set<seq<string>>)
    modifies home
    ensures home.writes == old(home.writes) && old(home.made) <= home.made
    ensures MadeSince(home.made, |old(home.made)|, created)
    ensures old(home.failures) <= home.failures && (home.failures == old(home.failures) ==> ok)
    ensures forall p :: old(home.edits(p)) <= home.edits(p)
    ensures forall p :: home.edits(p) == old(home.edits(p)) ==> home.ShownOrMade(p, old(home.Look(p)), p.parents in created, p.parents)
  {
    created := {};
    for i := 0 to |edits|
      invariant home.writes == old(home.writes) && old(home.made) <= home.made
      invariant MadeSince(home.made, |old(home.made)|, created)
      invariant home.failures == old(home.failures)
      invariant forall p :: old(home.edits(p)) <= home.edits(p)
      invariant forall p :: home.edits(p) == old(home.edits(p)) ==> home.ShownOrMade(p, old(home.Look(p)), p.parents in created, p.parents)
    {
      var parents := edits[i].path.parents;
      if parents != [] && parents !in created {
        ghost var base, before := |old(home.made)|, home.made;
        var made := home.MakeDirectory(parents);
        assert home.made[base..] == before[base..] + if made == Some(true) then [parents] else [];
        if made.None? { return false, created; }
        if made.value { created := created + {parents}; }
      }
    }
    ok := true;
  }

  /** Only a directory made by this call may change the snapshot of a missing file. */
  method TakeBaselines(home: Home, guards: seq<Guard>, created: set<seq<string>>) returns (ok: bool, baselines: map<Path, File>)
    requires Distinct(guards)
    modifies home
    ensures home.OnlyOthers()
    ensures home.Calm(old(home.edits), old(home.failures)) && (forall i :: 0 <= i < |guards| ==> AsReviewed(guards[i], created, [], old(home.Look(guards[i].path)))) ==> ok
    ensures ok ==> Baselines(guards, created, [], baselines)
    ensures ok && home.Calm(old(home.edits), old(home.failures)) ==> home.Shows(baselines)
  {
    baselines := map[];
    for i := 0 to |guards|
      invariant home.OnlyOthers()
      invariant baselines.Keys == Paths(guards[..i])
      invariant home.Calm(old(home.edits), old(home.failures)) ==> home.Shows(baselines)
      invariant forall k :: 0 <= k < i ==> guards[k].path in baselines && AsReviewed(guards[k], created, [], baselines[guards[k].path])
    {
      var g := guards[i];
      var file := home.Snapshot(g.path);
      if file.None? { return false, baselines; }
      if g.path.parents in created && g.before.Missing? {
        if file.value.Present? { return false, baselines; }
      } else if file.value != g.before {
        return false, baselines;
      }
      baselines := baselines[g.path := file.value];
      assert guards[..i + 1] == guards[..i] + [g];
    }
    assert guards[..|guards|] == guards;
    ok := true;
  }

  lemma BaselinesAfterWrite(guards: seq<Guard>, created: set<seq<string>>, done: seq<Edit>, edit: Edit, files: map<Path, File>, file: File)
    requires Baselines(guards, created, done, files) && edit.path in Paths(guards)
    requires file.Present? && file.content == edit.after
    requires forall i :: 0 <= i < |done| ==> done[i].path != edit.path
    ensures Baselines(guards, created, done + [edit], files[edit.path := file])
  {
    var later := done + [edit];
    forall i | 0 <= i < |guards| ensures AsReviewed(guards[i], created, later, files[edit.path := file][guards[i].path]) {
      var g := guards[i];
      assert AsReviewed(g, created, done, files[g.path]);
      if g.path == edit.path {
        assert later[|done|] == edit;
      } else {
        assert forall k :: 0 <= k < |later| && later[k].path == g.path ==> k < |done| && done[k] == later[k];
        assert forall k :: 0 <= k < |done| ==> later[k] == done[k];
      }
    }
  }

  lemma {:induction false} ChangedAreEdits(edits: seq<Edit>, i: nat)
    requires i < |Changed(edits)|
    ensures exists k :: 0 <= k < |edits| && edits[k] == Changed(edits)[i]
    decreases edits
  {
    var front := edits[..|edits| - 1];
    if i < |Changed(front)| {
      ChangedAreEdits(front, i);
      var k :| 0 <= k < |front| && front[k] == Changed(front)[i];
      assert edits[k] == Changed(edits)[i];
    } else {
      assert edits[|edits| - 1] == Changed(edits)[i];
    }
  }

  lemma {:induction false} ChangedArePrefixed(edits: seq<Edit>, n: nat)
    requires n <= |edits|
    ensures Changed(edits[..n]) <= Changed(edits)
    decreases |edits| - n
  {
    if n == |edits| {
      assert edits[..n] == edits;
    } else {
      assert edits[..n + 1][..n] == edits[..n];
      ChangedArePrefixed(edits, n + 1);
    }
  }

  predicate DistinctEdits(edits: seq<Edit>) { forall i, j :: 0 <= i < j < |edits| ==> edits[i].path != edits[j].path }

  lemma ReviewedEdits(r: Review)
    requires Distinct(Reviewed(r))
    ensures DistinctEdits(r.edits)
  {
    forall i, j | 0 <= i < j < |r.edits| ensures r.edits[i].path != r.edits[j].path {
      assert Reviewed(r)[i].path == r.edits[i].path && Reviewed(r)[j].path == r.edits[j].path;
    }
  }

  lemma {:induction false} ChangedAreDistinct(edits: seq<Edit>, i: nat, j: nat)
    requires DistinctEdits(edits) && i < j < |Changed(edits)|
    ensures Changed(edits)[i].path != Changed(edits)[j].path
    decreases |edits|
  {
    var front, last := edits[..|edits| - 1], edits[|edits| - 1];
    if j < |Changed(front)| {
      ChangedAreDistinct(front, i, j);
    } else {
      ChangedAreEdits(front, i);
      var k :| 0 <= k < |front| && front[k] == Changed(front)[i];
      assert edits[k].path != last.path;
    }
  }

  /** One pass of the replacement loop for an edit that changes something. */
  method ReplaceOne(home: Home, guards: seq<Guard>, edit: Edit, baselines: map<Path, File>,
                    ghost created: set<seq<string>>, ghost done: seq<Edit>)
      returns (replaced: bool, ok: bool, after: map<Path, File>)
    requires Baselines(guards, created, done, baselines) && edit.path in Paths(guards)
    requires forall i :: 0 <= i < |done| ==> done[i].path != edit.path
    modifies home
    ensures home.made == old(home.made) && (!replaced ==> home.writes == old(home.writes))
    ensures replaced ==> |home.writes| == |old(home.writes)| + 1 && home.writes[..|old(home.writes)|] == old(home.writes)
                         && WriteOk(guards, created, done, edit, home.writes[|old(home.writes)|])
    ensures ok ==> replaced && Baselines(guards, created, done + [edit], after)
    ensures home.Later()
    ensures home.Calm(old(home.edits), old(home.failures)) && old(home.Shows(baselines)) ==> ok && home.Shows(after)
  {
    after := baselines;
    home.Meanwhile();
    var staged: bool, selected: bool := *, *;
    if !staged || !selected {
      home.failures := home.failures + 1;
      return false, false, after;
    }
    var same, seen, since := RequireUnchanged(home, guards, baselines);
    if !same { return false, false, after; }
    home.Meanwhile();
    replaced := home.Replace(edit.path, edit.after, seen, since);
    if !replaced { return false, false, after; }
    ok, after := Finish(home, guards, edit, baselines, created, done);
  }

  /** After the rename: the directory is forced, the new file read back, the backup removed. */
  method Finish(home: Home, guards: seq<Guard>, edit: Edit, baselines: map<Path, File>,
                ghost created: set<seq<string>>, ghost done: seq<Edit>) returns (ok: bool, after: map<Path, File>)
    requires Baselines(guards, created, done, baselines) && edit.path in Paths(guards)
    requires forall i :: 0 <= i < |done| ==> done[i].path != edit.path
    modifies home
    ensures home.OnlyOthers() && home.Later()
    ensures ok ==> Baselines(guards, created, done + [edit], after)
    ensures home.Calm(old(home.edits), old(home.failures)) && old(home.Shows(baselines - {edit.path}) && home.Holds(edit)) ==>
      ok && home.Shows(after)
  {
    after := baselines;
    var synced: bool := *;
    if !synced {
      home.failures := home.failures + 1;
      return false, after;
    }
    var file := home.Snapshot(edit.path);
    if file.None? || file.value.Missing? || file.value.content != edit.after { return false, after; }
    after := baselines[edit.path := file.value];
    BaselinesAfterWrite(guards, created, done, edit, baselines, file.value);
    var unlinked: bool := *;
    if !unlinked { home.failures := home.failures + 1; }
    ok := unlinked;
  }

  predicate Suitable(edits: seq<Edit>) { forall i :: 0 <= i < |edits| ==> |edits[i].path.parents| <= 1 }

  /** `Review.require_unchanged`. */
  method RequireReviewed(home: Home, guards: seq<Guard>) returns (ok: bool)
    modifies home
    ensures home.OnlyOthers()
    ensures home.Calm(old(home.edits), old(home.failures)) && (forall i :: 0 <= i < |guards| ==> old(home.Look(guards[i].path)) == guards[i].before) ==> ok
    ensures ok && home.Calm(old(home.edits), old(home.failures)) ==> forall i :: 0 <= i < |guards| ==> home.Look(guards[i].path) == guards[i].before
  {
    for i := 0 to |guards|
      invariant home.OnlyOthers()
      invariant home.Calm(old(home.edits), old(home.failures)) ==> forall j :: 0 <= j < i ==> home.Look(guards[j].path) == guards[j].before
    {
      var file := home.Snapshot(guards[i].path);
      if file != Some(guards[i].before) { return false; }
    }
    return true;
  }

  /** The changed edits before edit `i`. */
  function Done(r: Review, i: nat): seq<Edit>
    requires i <= |r.edits|
  {
    Changed(r.edits[..i])
  }

  lemma NextDone(r: Review, i: nat)
    requires i < |r.edits|
    ensures Done(r, i) <= Changed(r.edits) && Done(r, i + 1) <= Changed(r.edits)
    ensures Done(r, i + 1) == if r.edits[i].after == Content(r.edits[i].before) then Done(r, i) else Done(r, i) + [r.edits[i]]
  {
    assert r.edits[..i + 1][..i] == r.edits[..i];
    ChangedArePrefixed(r.edits, i);
    ChangedArePrefixed(r.edits, i + 1);
  }

  lemma NotYetDone(r: Review, i: nat)
    requires Distinct(Reviewed(r)) && i < |r.edits| && r.edits[i].after != Content(r.edits[i].before)
    ensures r.edits[i].path in Paths(Reviewed(r))
    ensures forall j :: 0 <= j < |Done(r, i)| ==> Done(r, i)[j].path != r.edits[i].path
  {
    NextDone(r, i);
    ReviewedEdits(r);
    var done := Done(r, i);
    assert Changed(r.edits)[|done|] == Done(r, i + 1)[|done|];
    forall j | 0 <= j < |done| ensures done[j].path != r.edits[i].path {
      assert Changed(r.edits)[j] == done[j];
      ChangedAreDistinct(r.edits, j, |done|);
    }
    assert Reviewed(r)[i].path == r.edits[i].path;
  }

  lemma WritesAppend(guards: seq<Guard>, created: set<seq<string>>, edits: seq<Edit>, writes: seq<Write>, w: Write)
    requires WritesOk(guards, created, edits, writes) && |writes| < |edits|
    requires WriteOk(guards, created, edits[..|writes|], edits[|writes|], w)
    ensures WritesOk(guards, created, edits, writes + [w])
  {
    forall i | 0 <= i < |writes + [w]| ensures WriteOk(guards, created, edits[..i], edits[i], (writes + [w])[i]) {
      if i < |writes| { assert (writes + [w])[i] == writes[i]; }
    }
  }

  lemma WrittenAppend(edits: seq<Edit>, edit: Edit)
    ensures Written(edits + [edit]) == Written(edits) + [edit.path]
  {
  }

  lemma WritesExtend(r: Review, created: set<seq<string>>, i: nat, writes: seq<Write>, w: Write)
    requires i < |r.edits| && r.edits[i].after != Content(r.edits[i].before)
    requires WritesOk(Reviewed(r), created, Changed(r.edits), writes) && |writes| == |Done(r, i)|
    requires WriteOk(Reviewed(r), created, Done(r, i), r.edits[i], w)
    ensures WritesOk(Reviewed(r), created, Changed(r.edits), writes + [w])
    ensures Written(Done(r, i + 1)) == Written(Done(r, i)) + [r.edits[i].path]
  {
    NextDone(r, i);
    var k := |writes|;
    assert Changed(r.edits)[..k] == Done(r, i) && Changed(r.edits)[k] == r.edits[i];
    WritesAppend(Reviewed(r), created, Changed(r.edits), writes, w);
    WrittenAppend(Done(r, i), r.edits[i]);
  }

  /** The replacement loop up to edit `i`. */
  predicate Progress(r: Review, created: set<seq<string>>, i: nat, writes: seq<Write>, written: seq<Path>) {
    && i <= |r.edits| && |writes| == |Done(r, i)|
    && WritesOk(Reviewed(r), created, Changed(r.edits), writes) && written == Written(Done(r, i))
  }

  /** What the loop has achieved when it stops. */
  predicate Report(r: Review, created: set<seq<string>>, writes: seq<Write>, result: Result) {
    && WritesOk(Reviewed(r), created, Changed(r.edits), writes)
    && !result.Refused? && result.written == Written(Changed(r.edits)[..|writes|])
    && (result.Saved? ==> |writes| == |Changed(r.edits)|)
  }

  lemma Reported(r: Review, created: set<seq<string>>, i: nat, writes: seq<Write>, written: seq<Path>)
    requires Progress(r, created, i, writes, written)
    ensures Report(r, created, writes, ApplyError(written)) && (i == |r.edits| ==> Report(r, created, writes, Saved(written)))
  {
    ChangedArePrefixed(r.edits, i);
    assert Changed(r.edits)[..|writes|] == Done(r, i);
    assert r.edits[..|r.edits|] == r.edits;
  }

  lemma Unchanged(r: Review, created: set<seq<string>>, i: nat, writes: seq<Write>, written: seq<Path>)
    requires Progress(r, created, i, writes, written) && i < |r.edits| && r.edits[i].after == Content(r.edits[i].before)
    ensures Progress(r, created, i + 1, writes, written)
  {
    NextDone(r, i);
  }

  lemma Replaced(r: Review, created: set<seq<string>>, i: nat, writes: seq<Write>, written: seq<Path>, w: Write)
    requires Progress(r, created, i, writes, written) && i < |r.edits| && r.edits[i].after != Content(r.edits[i].before)
    requires WriteOk(Reviewed(r), created, Done(r, i), r.edits[i], w)
    ensures Progress(r, created, i + 1, writes + [w], written + [r.edits[i].path])
  {
    NextDone(r, i);
    WritesExtend(r, created, i, writes, w);
  }

  lemma OneMore(writes: seq<Write>, later: seq<Write>, base: nat)
    requires base <= |writes| && |later| == |writes| + 1 && later[..|writes|] == writes
    ensures later[base..] == writes[base..] + [later[|writes|]] && later[..base] == writes[..base]
  {
    assert later == writes + [later[|writes|]];
  }

  /** Edit `i` within the loop; `stop` ends it with a report of `written`. */
  method ReplaceNext(home: Home, r: Review, ghost created: set<seq<string>>, i: nat, ghost base: nat, baselines: map<Path, File>, written: seq<Path>)
      returns (stop: bool, after: map<Path, File>, reported: seq<Path>)
    requires Distinct(Reviewed(r)) && base <= |home.writes| && Progress(r, created, i, home.writes[base..], written)
    requires i < |r.edits| && Baselines(Reviewed(r), created, Done(r, i), baselines)
    requires r.edits[i].after != Content(r.edits[i].before)
    modifies home
    ensures home.made == old(home.made) && base <= |home.writes| && home.writes[..base] == old(home.writes[..base])
    ensures stop ==> Report(r, created, home.writes[base..], ApplyError(reported))
    ensures !stop ==> Progress(r, created, i + 1, home.writes[base..], reported) && Baselines(Reviewed(r), created, Done(r, i + 1), after)
    ensures home.Later()
    ensures home.Calm(old(home.edits), old(home.failures)) && old(home.Shows(baselines)) ==> !stop && home.Shows(after)
  {
    ghost var before := home.writes;
    NextDone(r, i);
    NotYetDone(r, i);
    var replaced, ok;
    replaced, ok, after := ReplaceOne(home, Reviewed(r), r.edits[i], baselines, created, Done(r, i));
    if !replaced {
      Reported(r, created, i, before[base..], written);
      return true, after, written;
    }
    OneMore(before, home.writes, base);
    Replaced(r, created, i, before[base..], written, home.writes[|before|]);
    reported := written + [r.edits[i].path];
    Reported(r, created, i + 1, home.writes[base..], reported);
    stop := !ok;
  }

  /** Every changed edit has its reviewed content, and every other reviewed path is as it was
      reviewed, or missing below a directory this call created. */
  predicate AllDone(home: Home, r: Review, created: set<seq<string>>)
    reads home
  {
    forall i :: 0 <= i < |Reviewed(r)| ==> AsReviewed(Reviewed(r)[i], created, Changed(r.edits), home.Look(Reviewed(r)[i].path))
  }

  lemma BaselinesDone(home: Home, r: Review, created: set<seq<string>>, baselines: map<Path, File>)
    requires Baselines(Reviewed(r), created, Done(r, |r.edits|), baselines) && home.Shows(baselines)
    ensures AllDone(home, r, created)
  {
    assert r.edits[..|r.edits|] == r.edits;
    forall i | 0 <= i < |Reviewed(r)| ensures AsReviewed(Reviewed(r)[i], created, Changed(r.edits), home.Look(Reviewed(r)[i].path)) {
      assert Reviewed(r)[i].path in Paths(Reviewed(r));
    }
  }

  lemma AllSaved(home: Home, r: Review, created: set<seq<string>>, baselines: map<Path, File>, writes: seq<Write>, written: seq<Path>)
    requires Progress(r, created, |r.edits|, writes, written) && Baselines(Reviewed(r), created, Done(r, |r.edits|), baselines)
    ensures Report(r, created, writes, Saved(written)) && written == Written(Changed(r.edits))
    ensures home.Shows(baselines) ==> AllDone(home, r, created)
  {
    Reported(r, created, |r.edits|, writes, written);
    assert r.edits[..|r.edits|] == r.edits;
    if home.Shows(baselines) { BaselinesDone(home, r, created, baselines); }
  }

  /** The replacement loop. */
  method ReplaceAll(home: Home, r: Review, ghost created: set<seq<string>>, taken: map<Path, File>) returns (result: Result)
    requires Distinct(Reviewed(r)) && Baselines(Reviewed(r), created, [], taken)
    modifies home
    ensures home.made == old(home.made) && old(home.writes) <= home.writes && Report(r, created, home.writes[|old(home.writes)|..], result)
    ensures home.Later()
    ensures home.Calm(old(home.edits), old(home.failures)) && old(home.Shows(taken)) ==>
      result == Saved(Written(Changed(r.edits))) && AllDone(home, r, created)
  {
    var baselines, written := taken, [];
    ghost var base := |home.writes|;
    for i := 0 to |r.edits|
      invariant home.made == old(home.made) && base <= |home.writes| && home.writes[..base] == old(home.writes)
      invariant Progress(r, created, i, home.writes[base..], written)
      invariant Baselines(Reviewed(r), created, Done(r, i), baselines)
      invariant home.Later()
      invariant home.Calm(old(home.edits), old(home.failures)) && old(home.Shows(taken)) ==> home.Shows(baselines)
    {
      if r.edits[i].after == Content(r.edits[i].before) {
        NextDone(r, i);
        Unchanged(r, created, i, home.writes[base..], written);
      } else {
        var stop;
        stop, baselines, written := ReplaceNext(home, r, created, i, base, baselines, written);
        if stop { return ApplyError(written); }
      }
    }
    AllSaved(home, r, created, baselines, home.writes[base..], written);
    return Saved(written);
  }

  predicate Matches(home: Home, r: Review)
    reads home
  {
    forall i :: 0 <= i < |Reviewed(r)| ==> home.Look(Reviewed(r)[i].path) == Reviewed(r)[i].before
  }

  /** `apply`, against other programs that edit whenever they like and disk operations that
      fail whenever they like. `hashMatches` and `selected` are the caller's two guards. It
      replaces a prefix of the changed edits, in order, each with its reviewed content, and
      reports exactly those paths, all of them on success. Every replacement follows a check
      of every reviewed path against its baseline, which differs from what was reviewed only
      below a directory this call created; a path nobody edits after its own check still
      matches at the rename. When nothing fails and nobody edits, settings that are as they
      were reviewed are all saved. */
  method Apply(home: Home, r: Review, hashMatches: bool, selected: bool) returns (result: Result, ghost created: set<seq<string>>)
    requires Distinct(Reviewed(r))
    modifies home
    ensures old(home.writes) <= home.writes && MadeSince(home.made, |old(home.made)|, created)
    ensures result.Refused? <==> !hashMatches
    ensures result.Refused? ==> home.writes == old(home.writes)
    ensures !result.Refused? ==> Report(r, created, home.writes[|old(home.writes)|..], result)
    ensures hashMatches && selected && Suitable(r.edits) && old(Matches(home, r)) && home.Calm(old(home.edits), old(home.failures)) ==>
      result == Saved(Written(Changed(r.edits))) && AllDone(home, r, created)
  {
    created := {};
    if !hashMatches { return Refused, created; }
    ghost var before := home.writes;
    assert before[|before|..] == [] && Written(Changed(r.edits)[..0]) == [];
    if !selected { return ApplyError([]), created; }
    var same := RequireReviewed(home, Reviewed(r));
    if !same { return ApplyError([]), created; }
    if Changed(r.edits) == [] { return Saved([]), created; }
    if !Suitable(r.edits) { return ApplyError([]), created; }
    var made, directories := MakeParents(home, r.edits);
    created := directories;
    if !made { return ApplyError([]), created; }
    var taken, baselines := TakeBaselines(home, Reviewed(r), directories);
    if !taken { return ApplyError([]), created; }
    result := ReplaceAll(home, r, created, baselines);
  }
}
