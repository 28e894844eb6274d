/** A renewal that is not disturbed, from whatever earlier calls and crashes left behind
    (`device_renewal_protocol.py`), and the bounded walk it starts with
    (`device_renewal_loading.py`). `Placed` says where such a call stands at each of its steps
    and `Measure` how far it still has to go; every step keeps the one and lowers the other. A
    lost activation reply counts as no disturbance, and what becomes of an activation of unknown
    outcome, and of calls that lose a race, is followed among any other calls. */
module RenewalRun {
  import opened Outcomes
  import opened Renewal
  import opened RenewalInvariant
  import opened RenewalSafety

  // --------------------------------------------------------------- the walk

  /** The selected links from `dir` to the end of its chain. */
  function Links(w: World, dir: Dir): nat
    decreases w.unused - dir
  {
    if dir in w.selected && dir < w.selected[dir].generation < w.unused then 1 + Links(w, w.selected[dir].generation) else 0
  }

  lemma SelectedFollows(w: World, dir: Dir)
    requires FilesOk(w) && dir in w.selected
    ensures Follows(w, dir) && dir < w.selected[dir].generation < w.unused
  {
    assert SelectedOk(w, dir) && PointerOk(w, Slot(dir, w.selected[dir].op));
  }

  /** Selected links, each read back as valid. */
  predicate Linked(w: World, device: Dir, path: seq<Dir>) {
    && path != [] && path[0] == device
    && forall i :: 0 <= i < |path| - 1 ==> Follows(w, path[i]) && path[i + 1] == w.selected[path[i]].generation
  }

  /** The links of a chain up to a generation with readable material and no successor. */
  predicate Path(w: World, device: Dir, path: seq<Dir>) {
    Linked(w, device, path) && path[|path| - 1] !in w.selected && Material(w, path[|path| - 1])
  }

  lemma {:induction false} OneContinuation(w: World, device: Dir, walked: seq<Dir>, path: seq<Dir>)
    requires Linked(w, device, walked) && Path(w, device, path)
    ensures |walked| <= |path| && path[..|walked|] == walked
    decreases |walked|
  {
    var n := |walked| - 1;
    if n > 0 {
      OneContinuation(w, device, walked[..n], path);
      assert path[n - 1] == walked[..n][n - 1] && Follows(w, walked[n - 1]);
      assert |path| > n;
      assert path[..n + 1] == path[..n] + [path[n]] && walked == walked[..n] + [walked[n]];
    }
  }

  lemma Stuck(w: World, device: Dir, walked: seq<Dir>, path: seq<Dir>)
    requires Linked(w, device, walked) && !Follows(w, walked[|walked| - 1])
    requires walked[|walked| - 1] in w.selected || !Material(w, walked[|walked| - 1])
    ensures !Path(w, device, path)
  {
    if Path(w, device, path) {
      OneContinuation(w, device, walked, path);
    }
  }

  /** `_load` over files that no other call changes meanwhile, valid or not: it returns the
      end of the one chain of at most 63 valid links, and fails when there is none. */
  method Load(w: World, device: Dir) returns (end: Option<Dir>)
    ensures end.Some? ==> exists path :: Path(w, device, path) && |path| <= 64 && path[|path| - 1] == end.value
    ensures end.None? ==> forall path :: Path(w, device, path) ==> |path| > 64
  {
    var current := device;
    ghost var walked := [device];
    for lookups := 0 to MAX_LOOKUPS
      invariant |walked| == lookups + 1 && Linked(w, device, walked) && current == walked[lookups]
    {
      if current !in w.selected && Material(w, current) {
        assert Path(w, device, walked);
        return Some(current);
      }
      if current !in w.selected || !Follows(w, current) {
        forall path ensures !Path(w, device, path) { Stuck(w, device, walked, path); }
        return None;
      }
      current := w.selected[current].generation;
      walked := walked + [current];
    }
    forall path | Path(w, device, path) ensures |path| > MAX_LOOKUPS { OneContinuation(w, device, walked, path); }
    return None;
  }

  /** On the files that renewals leave behind, the chain of every directory is valid, has
      `Links` links and ends at its tail: 63 links load and 64 fail. */
  lemma {:induction false} ChainsAreValid(w: World, dir: Dir) returns (path: seq<Dir>)
    requires FilesOk(w) && dir in w.named
    ensures Path(w, dir, path) && |path| == Links(w, dir) + 1 && path[|path| - 1] == Tail(w, dir)
    decreases w.unused - dir
  {
    assert NamedOk(w, dir);
    if dir in w.selected {
      SelectedFollows(w, dir);
      var rest := ChainsAreValid(w, w.selected[dir].generation);
      path := [dir] + rest;
      assert forall i :: 0 < i < |path| ==> path[i] == rest[i - 1];
    } else {
      path := [dir];
    }
  }

  // -------------------------------------------------------- undisturbed runs

  /** A step of the one call, a certificate issued by the service, or the loss of the reply to
      the call's activation. */
  predicate Harmless(s: State, e: Event) {
    e == Advance(0) || e.Issue? || (e == ReplyLost(0) && 0 in s.callers && s.callers[0].pc.Activating?)
  }

  /** Nothing else happens: no other reply is lost, nothing raises, nothing is killed. */
  ghost predicate Undisturbed(s: State, schedule: seq<Event>) {
    forall i :: 0 <= i < |schedule| && Exec(s, schedule[..i]).Some? ==> Harmless(Exec(s, schedule[..i]).value, schedule[i])
  }

  lemma UndisturbedFront(s: State, schedule: seq<Event>)
    requires Undisturbed(s, schedule) && schedule != [] && Exec(s, schedule).Some?
    ensures var front := schedule[..|schedule| - 1];
      Undisturbed(s, front) && Exec(s, front).Some? && Harmless(Exec(s, front).value, schedule[|schedule| - 1])
  {
    var front := schedule[..|schedule| - 1];
    forall i | 0 <= i < |front| && Exec(s, front[..i]).Some? ensures Harmless(Exec(s, front[..i]).value, front[i]) {
      assert front[..i] == schedule[..i];
    }
  }

  function Call(w: World, device: Dir, pc: Pc): State { State(w, map[0 := Caller(device, pc)]) }

  /** The call has returned the end of the selected chain, and that is what the service holds
      active. */
  predicate Finished(w: World, pc: Pc) { pc.Done? && pc.dir == Tail(w, ROOT) && HoldsPair(w, pc.dir, w.active) }

  /** `dir` is the end of the chain and holds the active certificate. */
  predicate Home(w: World, dir: Dir) {
    On(w, dir) && dir == Tail(w, ROOT) && dir in w.certificates && w.certificates[dir] == w.active
  }

  /** Where an undisturbed call stands, beyond what every call knows. */
  predicate Placed(w: World, device: Dir, pc: Pc) {
    match pc
    case Loading(final, cur, hops) => if final then Home(w, cur) && hops == 0 else hops + Links(w, cur) < MAX_LOOKUPS
    case Reconciling(dir) => dir == Tail(w, ROOT)
    case Asking(dir, r, mode) => dir == Tail(w, ROOT) && (mode.Recovering? || (mode.Retry? && Receipt(w, r)))
    case Selecting(dir, _, _) => dir == Tail(w, ROOT)
    case SyncingSelection(_, r, _) => Home(w, r.generation) && device != r.generation
    case Polling(dir, p) => Home(w, dir) && p.op in w.ops
    case Staging(dir, p, cert) => Home(w, dir) && cert.key == p.key
    case WritingCertificate(k) => Home(w, k.dir) && Slot(k.dir, k.proposal.op) !in w.pointers
    case WritingKey(k) => Home(w, k.dir) && Slot(k.dir, k.proposal.op) !in w.pointers
    case LinkingPointer(k) => Home(w, k.dir) && Slot(k.dir, k.proposal.op) !in w.pointers
    case SyncingPointer(k) => Home(w, k.dir)
    case Checking(dir, p, _) => Home(w, dir) && Slot(dir, p.op) in w.pointers
    case Done(dir) => Finished(w, pc)
    case Failed | Cleaning(_, _) => false
    case _ => Home(w, pc.dir)
  }

  ghost predicate OnTrack(w: World, device: Dir, pc: Pc) { On(w, device) && PcOk(w, pc) && Placed(w, device, pc) }

  function Pending(w: World): set<nat> { set op | op in w.ops && w.ops[op].status.Pending? }

  /** Steps left at most, not counting certificates still to be issued. */
  function Rank(w: World, pc: Pc): nat {
    match pc
    case Done(_) | Failed | Cleaning(_, _) => 0
    case Confirming(_) => 1
    case SyncingSelection(_, _, mode) => if mode.Recovering? then 21 else 1
    case Selecting(_, _, mode) => if mode.Recovering? then 22 else 2
    case Activating(_, _) => 4
    case Checking(_, _, _) => 5
    case SyncingPointer(_) => 6
    case LinkingPointer(_) => 7
    case WritingKey(_) => 8
    case WritingCertificate(_) => 9
    case Staging(_, _, _) => 10
    case Polling(_, _) => 11
    case Posting(_, _) => 13
    case SyncingPrepared(_) => 14
    case LinkingPrepared(_, _) => 15
    case Preparing(_) => 16
    case Asking(_, _, mode) => if mode.Recovering? then 23 else 3
    case Reconciling(_) => 24
    case Loading(final, cur, _) => if final then 20 else 25 + Links(w, cur)
  }

  function Measure(w: World, pc: Pc): nat { Rank(w, pc) + |Pending(w)| }

  // ------------------------------------------------------------ each phase

  /** A step that leads to the right place, nearer to the end. */
  predicate Nearer(w: World, device: Dir, pc: Pc, result: (World, Pc)) {
    Placed(result.0, device, result.1) && Rank(result.0, result.1) + (if pc.Posting? then 1 else 0) < Rank(w, pc)
  }

  /** What selecting at the end of the chain leads to. */
  lemma AfterSelect(w: World, dir: Dir, r: Record)
    requires WorldOk(w) && Pointed(w, dir, r) && Receipt(w, r) && dir !in w.selected
    ensures var v := w.(selected := w.selected[dir := r]);
      WorldOk(v) && Home(v, r.generation) && dir < r.generation
  {
    var v := w.(selected := w.selected[dir := r]);
    Selection(w, dir, r, v);
    SelectionTails(w, dir, r, v);
    assert PointerOk(w, Slot(dir, r.op));
    TailIsLast(v, ROOT);
    assert NamedOk(v, r.generation);
    assert Expected(v) == v.certificates[r.generation];
  }

  lemma SelectsFirst(w: World, dir: Dir, r: Record, mode: Mode)
    requires FilesOk(w) && Pointed(w, dir, r) && dir !in w.selected
    ensures SelectStep(w, dir, r, mode) == (w.(selected := w.selected[dir := r]), SyncingSelection(dir, r, mode))
  {
    assert PointerOk(w, Slot(dir, r.op));
  }

  lemma SelectingNears(w: World, device: Dir, dir: Dir, r: Record, mode: Mode)
    requires WorldOk(w) && Pointed(w, dir, r) && Receipt(w, r) && dir == Tail(w, ROOT) && On(w, device)
    ensures Nearer(w, device, Selecting(dir, r, mode), SelectStep(w, dir, r, mode))
  {
    TailIsLast(w, ROOT);
    AfterSelect(w, dir, r);
    SelectsFirst(w, dir, r, mode);
    SelectedPlace(w, device, dir, r, mode);
  }

  lemma SelectedPlace(w: World, device: Dir, dir: Dir, r: Record, mode: Mode)
    requires dir == Tail(w, ROOT) && On(w, device) && dir < r.generation
    requires Home(w.(selected := w.selected[dir := r]), r.generation)
    ensures Nearer(w, device, Selecting(dir, r, mode), (w.(selected := w.selected[dir := r]), SyncingSelection(dir, r, mode)))
  {
    assert device <= dir;
  }

  lemma StepKeepsChain(w: World, device: Dir, pc: Pc)
    requires Next(w, device, pc).Some? && !pc.Selecting? && !pc.Activating?
    ensures var v := Next(w, device, pc).value.0; v.selected == w.selected && v.active == w.active && w.unused <= v.unused
  {
  }

  lemma KeepsHome(w: World, v: World, dir: Dir)
    requires FilesOk(w) && Keeps(w, v) && v.selected == w.selected && v.active == w.active && w.unused <= v.unused
    requires Home(w, dir)
    ensures Home(v, dir)
  {
    assert NamedOk(w, dir);
    SameTail(w, v, ROOT);
    SameTail(w, v, dir);
  }

  /** One undisturbed step that selects and activates nothing. */
  lemma StepKeepsHome(w: World, device: Dir, pc: Pc, dir: Dir)
    requires WorldOk(w) && PcOk(w, pc) && Home(w, dir) && Next(w, device, pc).Some?
    requires !pc.Selecting? && !pc.Activating?
    ensures Home(Next(w, device, pc).value.0, dir)
  {
    var result := Next(w, device, pc).value;
    NextOk(w, device, pc);
    FairKeeps(w, result.0, pc, result.1);
    StepKeepsChain(w, device, pc);
    KeepsHome(w, result.0, dir);
  }

  lemma HomeIsComplete(w: World, dir: Dir)
    requires FilesOk(w) && Home(w, dir)
    ensures dir !in w.selected && Material(w, dir) && HoldsPair(w, dir, w.active)
  {
    assert NamedOk(w, dir);
    TailIsLast(w, ROOT);
  }

  lemma SelectedNears(w: World, device: Dir, dir: Dir, r: Record, mode: Mode)
    requires Placed(w, device, SyncingSelection(dir, r, mode)) && Home(Sync(w, dir), r.generation) && HoldsPair(w, r.generation, w.active)
    ensures Nearer(w, device, SyncingSelection(dir, r, mode), (Sync(w, dir), AfterSelection(r, mode)))
  {
  }

  lemma SyncedSelectionNears(w: World, device: Dir, dir: Dir, r: Record, mode: Mode)
    requires WorldOk(w) && OnTrack(w, device, SyncingSelection(dir, r, mode))
    ensures Nearer(w, device, SyncingSelection(dir, r, mode), (Sync(w, dir), AfterSelection(r, mode)))
  {
    StepKeepsHome(w, device, SyncingSelection(dir, r, mode), r.generation);
    HomeIsComplete(w, r.generation);
    SelectedNears(w, device, dir, r, mode);
  }

  lemma {:induction false} TailOfTail(w: World, dir: Dir)
    ensures Tail(w, Tail(w, dir)) == Tail(w, dir)
    decreases w.unused - dir
  {
    if dir in w.selected && dir < w.selected[dir].generation < w.unused { TailOfTail(w, w.selected[dir].generation); }
  }

  lemma NotActivatedIsHome(w: World, dir: Dir)
    requires WorldOk(w) && dir == Tail(w, ROOT)
    requires dir in w.prepared && w.prepared[dir].op in w.ops ==> !w.ops[w.prepared[dir].op].status.Activated?
    ensures Home(w, dir)
  {
    TailIsNamed(w, ROOT);
    assert NamedOk(w, dir);
    TailOfTail(w, ROOT);
  }

  lemma AskingNears(w: World, device: Dir, dir: Dir, r: Record, mode: Mode)
    requires WorldOk(w) && Pointed(w, dir, r) && dir == Tail(w, ROOT) && (mode.Recovering? || (mode.Retry? && Receipt(w, r)))
    ensures Nearer(w, device, Asking(dir, r, mode), Next(w, device, Asking(dir, r, mode)).value)
  {
    assert PointerOk(w, Slot(dir, r.op));
    if !Receipt(w, r) {
      if r.op in w.ops { ActivationHome(w, dir, r); }
      NotActivatedIsHome(w, dir);
    }
  }

  lemma OnePointer(w: World, dir: Dir, slot: Slot)
    requires FilesOk(w) && slot in PointersIn(w, dir)
    ensures PointersIn(w, dir) == {Slot(dir, w.prepared[dir].op)} && dir in w.prepared
  {
    assert PointerOk(w, slot);
    forall other | other in PointersIn(w, dir) ensures other == slot { assert PointerOk(w, other); }
  }

  lemma NoPointerIsHome(w: World, dir: Dir)
    requires WorldOk(w) && dir == Tail(w, ROOT) && PointersIn(w, dir) == {}
    ensures Home(w, dir)
  {
    if dir in w.prepared && w.prepared[dir].op in w.ops {
      var op := w.prepared[dir].op;
      var home :| OperationOk(w, op, home);
      assert home == dir;
      assert Slot(dir, op) !in PointersIn(w, dir);
    }
    NotActivatedIsHome(w, dir);
  }

  lemma ReconcilingNears(w: World, device: Dir, dir: Dir)
    requires WorldOk(w) && dir == Tail(w, ROOT)
    ensures Nearer(w, device, Reconciling(dir), (w, ReconcileStep(w, dir)))
  {
    if PointersIn(w, dir) == {} {
      NoPointerIsHome(w, dir);
    } else {
      var slot :| slot in PointersIn(w, dir);
      OnePointer(w, dir, slot);
      ReadsCandidate(w, dir);
    }
  }

  lemma ReadsCandidate(w: World, dir: Dir)
    requires FilesOk(w) && dir in w.prepared && PointersIn(w, dir) == {Slot(dir, w.prepared[dir].op)}
    ensures ReconcileStep(w, dir) == Asking(dir, w.pointers[Slot(dir, w.prepared[dir].op)], Recovering)
  {
    var own := Slot(dir, w.prepared[dir].op);
    assert own in PointersIn(w, dir) && PointerOk(w, own);
  }

  lemma NextLink(w: World, cur: Dir)
    requires FilesOk(w) && On(w, cur) && cur in w.selected
    ensures var child := w.selected[cur].generation;
      cur < child < w.unused && Follows(w, cur) && On(w, child) && Links(w, cur) == 1 + Links(w, child)
  {
    SelectedFollows(w, cur);
    OnChild(w, cur);
  }

  lemma LoadingNears(w: World, device: Dir, cur: Dir, hops: nat)
    requires WorldOk(w) && On(w, cur) && hops + Links(w, cur) < MAX_LOOKUPS
    ensures Nearer(w, device, Loading(false, cur, hops), (w, LoadStep(w, device, false, cur, hops)))
  {
    if cur in w.selected { NextLink(w, cur); } else { assert NamedOk(w, cur); }
  }

  lemma FinalLoadNears(w: World, device: Dir, dir: Dir)
    requires WorldOk(w) && Home(w, dir)
    ensures Nearer(w, device, Loading(true, dir, 0), (w, LoadStep(w, device, true, dir, 0)))
  {
    HomeIsComplete(w, dir);
  }

  lemma ConfirmingNears(w: World, device: Dir, dir: Dir)
    requires WorldOk(w) && Home(w, dir)
    ensures Nearer(w, device, Confirming(dir), (w, Done(dir)))
    ensures Next(w, device, Confirming(dir)) == Some((w, Done(dir)))
  {
    HomeIsComplete(w, dir);
  }

  lemma ReadingNears(w: World, device: Dir, pc: Pc)
    requires WorldOk(w) && OnTrack(w, device, pc) && (pc.Loading? || pc.Reconciling? || pc.Asking? || pc.Confirming?)
    ensures Nearer(w, device, pc, Next(w, device, pc).value)
  {
    if pc.Asking? { AskingNears(w, device, pc.dir, pc.record, pc.mode); }
    else if pc.Reconciling? { ReconcilingNears(w, device, pc.dir); }
    else if pc.Confirming? { ConfirmingNears(w, device, pc.dir); }
    else if pc.final { FinalLoadNears(w, device, pc.cur); }
    else { LoadingNears(w, device, pc.cur, pc.hops); }
  }

  // -------------------------------------------------- renewing the chain's end

  /** The directory in which the call prepares and commits. */
  function WorksIn(pc: Pc): Option<Dir> {
    if InCommit(pc) then Some(pc.commit.dir)
    else if pc.Preparing? || pc.LinkingPrepared? || pc.SyncingPrepared? || pc.Staging? then Some(pc.dir)
    else None
  }

  lemma CommitPlaced(w: World, device: Dir, pc: Pc)
    requires InCommit(pc) && Placed(w, device, pc) && Home(CommitStep(w, pc).0, pc.commit.dir)
    requires pc.SyncingPointer? ==> Committed(w, pc.commit)
    ensures Nearer(w, device, pc, CommitStep(w, pc))
  {
  }

  lemma PreparationPlaced(w: World, device: Dir, pc: Pc)
    requires pc.Preparing? || pc.LinkingPrepared? || (pc.SyncingPrepared? && pc.dir in w.prepared)
    requires Placed(w, device, pc) && Home(Next(w, device, pc).value.0, pc.dir)
    ensures Nearer(w, device, pc, Next(w, device, pc).value)
  {
  }

  lemma StagingPlaced(w: World, device: Dir, dir: Dir, p: Proposal, cert: Cert)
    requires Proposed(w, dir, p) && Placed(w, device, Staging(dir, p, cert)) && Home(StageStep(w, dir, p, cert).0, dir)
    ensures Nearer(w, device, Staging(dir, p, cert), StageStep(w, dir, p, cert))
  {
  }

  lemma WorkPlaced(w: World, device: Dir, pc: Pc)
    requires PcOk(w, pc) && Placed(w, device, pc) && WorksIn(pc).Some? && Home(Next(w, device, pc).value.0, WorksIn(pc).value)
    ensures Nearer(w, device, pc, Next(w, device, pc).value)
  {
    if InCommit(pc) { CommitPlaced(w, device, pc); }
    else if pc.Staging? { StagingPlaced(w, device, pc.dir, pc.proposal, pc.cert); }
    else { PreparationPlaced(w, device, pc); }
  }

  lemma WorksAtHome(w: World, device: Dir, pc: Pc)
    requires Placed(w, device, pc) && WorksIn(pc).Some?
    ensures Home(w, WorksIn(pc).value) && Next(w, device, pc).Some? && !pc.Selecting? && !pc.Activating?
  {
  }

  lemma WorkNears(w: World, device: Dir, pc: Pc)
    requires WorldOk(w) && OnTrack(w, device, pc) && WorksIn(pc).Some?
    ensures Nearer(w, device, pc, Next(w, device, pc).value)
  {
    WorksAtHome(w, device, pc);
    StepKeepsHome(w, device, pc, WorksIn(pc).value);
    WorkPlaced(w, device, pc);
  }

  lemma PolledCertificate(w: World, dir: Dir, p: Proposal)
    requires WorldOk(w) && Home(w, dir) && Proposed(w, dir, p) && p.op in w.ops
    ensures w.ops[p.op].key == p.key && !w.ops[p.op].status.Activated?
    ensures w.ops[p.op].status.Issued? ==> w.ops[p.op].status.cert.key == p.key
  {
    var home :| OperationOk(w, p.op, home);
    assert home == dir;
    ActiveParent(w, dir);
  }

  lemma PostingNears(w: World, device: Dir, dir: Dir, p: Proposal)
    requires WorldOk(w) && Home(w, dir) && Proposed(w, dir, p)
    ensures Nearer(w, device, Posting(dir, p), Next(w, device, Posting(dir, p)).value)
  {
    if p.op in w.ops { PolledCertificate(w, dir, p); }
    assert Accepts(w, dir, p);
    StepKeepsHome(w, device, Posting(dir, p), dir);
  }

  lemma PollingNears(w: World, device: Dir, dir: Dir, p: Proposal)
    requires WorldOk(w) && Home(w, dir) && Proposed(w, dir, p) && p.op in w.ops && !w.ops[p.op].status.Pending?
    ensures PollStep(w, dir, p).Some? && Nearer(w, device, Polling(dir, p), (w, PollStep(w, dir, p).value))
  {
    PolledCertificate(w, dir, p);
  }

  lemma CheckingNears(w: World, device: Dir, dir: Dir, p: Proposal, cert: Cert)
    requires WorldOk(w) && OnTrack(w, device, Checking(dir, p, cert))
    ensures Nearer(w, device, Checking(dir, p, cert), (w, CheckStep(w, dir, p, cert)))
  {
    var slot := Slot(dir, p.op);
    assert PointerOk(w, slot);
    CheckPasses(w, dir, p, cert);
    CheckedNears(w, device, dir, p, cert);
  }

  lemma CheckedNears(w: World, device: Dir, dir: Dir, p: Proposal, cert: Cert)
    requires Home(w, dir) && Slot(dir, p.op) in w.pointers && CheckStep(w, dir, p, cert) == Activating(dir, w.pointers[Slot(dir, p.op)])
    ensures Nearer(w, device, Checking(dir, p, cert), (w, CheckStep(w, dir, p, cert)))
  {
  }

  /** The service issues one certificate per operation. */
  lemma CheckPasses(w: World, dir: Dir, p: Proposal, cert: Cert)
    requires PcOk(w, Checking(dir, p, cert)) && PointerOk(w, Slot(dir, p.op))
    ensures CheckStep(w, dir, p, cert) == Activating(dir, w.pointers[Slot(dir, p.op)])
  {
  }

  lemma ActivationSucceeds(w: World, dir: Dir, r: Record)
    requires WorldOk(w) && Home(w, dir) && Pointed(w, dir, r)
    ensures Receipt(Activate(w, r), r) && Activate(w, r) != w
  {
    assert PointerOk(w, Slot(dir, r.op));
    ActivationHome(w, dir, r);
    ActiveParent(w, dir);
  }

  lemma ActivatingNears(w: World, device: Dir, dir: Dir, r: Record)
    requires WorldOk(w) && Home(w, dir) && Pointed(w, dir, r)
    ensures Nearer(w, device, Activating(dir, r), Next(w, device, Activating(dir, r)).value)
  {
    ActivationSucceeds(w, dir, r);
    SameTail(w, Activate(w, r), ROOT);
    ActivatedNears(w, device, dir, r);
  }

  lemma ActivatedNears(w: World, device: Dir, dir: Dir, r: Record)
    requires Receipt(Activate(w, r), r) && dir == Tail(Activate(w, r), ROOT)
    ensures Nearer(w, device, Activating(dir, r), Next(w, device, Activating(dir, r)).value)
  {
  }

  lemma FinishingNears(w: World, device: Dir, pc: Pc)
    requires WorldOk(w) && OnTrack(w, device, pc) && (pc.Checking? || pc.Activating? || pc.Selecting? || pc.SyncingSelection?)
    ensures Nearer(w, device, pc, Next(w, device, pc).value)
  {
    if pc.Checking? { CheckingNears(w, device, pc.dir, pc.proposal, pc.cert); }
    else if pc.Activating? { ActivatingNears(w, device, pc.dir, pc.record); }
    else if pc.Selecting? { SelectingNears(w, device, pc.dir, pc.record, pc.mode); }
    else { SyncedSelectionNears(w, device, pc.dir, pc.record, pc.mode); }
  }

  lemma StepNears(w: World, device: Dir, pc: Pc)
    requires WorldOk(w) && OnTrack(w, device, pc) && Next(w, device, pc).Some?
    ensures Nearer(w, device, pc, Next(w, device, pc).value)
  {
    if WorksIn(pc).Some? { WorkNears(w, device, pc); }
    else if pc.Polling? { PollingNears(w, device, pc.dir, pc.proposal); }
    else if pc.Posting? { PostingNears(w, device, pc.dir, pc.proposal); }
    else if pc.Loading? || pc.Reconciling? || pc.Asking? || pc.Confirming? { ReadingNears(w, device, pc); }
    else { FinishingNears(w, device, pc); }
  }

  lemma StepIssuesNothing(w: World, device: Dir, pc: Pc)
    requires Next(w, device, pc).Some? && !pc.Posting?
    ensures var v := Next(w, device, pc).value.0;
      if pc.Activating? then v == Activate(w, pc.record) else v.ops == w.ops
  {
  }

  lemma PostPends(w: World, dir: Dir, p: Proposal)
    ensures |Pending(Post(w, dir, p))| <= |Pending(w)| + 1
  {
    assert Pending(Post(w, dir, p)) <= Pending(w) + {p.op};
    Smaller(Pending(Post(w, dir, p)), Pending(w) + {p.op});
  }

  lemma StepPends(w: World, device: Dir, pc: Pc)
    requires Next(w, device, pc).Some?
    ensures var v := Next(w, device, pc).value.0; |Pending(v)| <= |Pending(w)| + if pc.Posting? then 1 else 0
  {
    var v := Next(w, device, pc).value.0;
    if pc.Posting? {
      PostPends(w, pc.dir, pc.proposal);
    } else {
      StepIssuesNothing(w, device, pc);
      assert Pending(v) <= Pending(w);
      Smaller(Pending(v), Pending(w));
    }
  }

  lemma Smaller<T>(part: set<T>, whole: set<T>)
    requires part <= whole
    ensures |part| <= |whole|
  {
    assert whole == part + (whole - part);
  }

  lemma StepStaysOnTrack(w: World, device: Dir, pc: Pc)
    requires WorldOk(w) && OnTrack(w, device, pc) && Next(w, device, pc).Some?
    ensures var (v, next) := Next(w, device, pc).value;
      WorldOk(v) && OnTrack(v, device, next) && Measure(v, next) < Measure(w, pc)
  {
    NextOk(w, device, pc);
    StepNears(w, device, pc);
    StepPends(w, device, pc);
  }

  // ------------------------------------------------------- issued certificates

  lemma {:induction false} SameLinks(w: World, v: World, dir: Dir)
    requires v.selected == w.selected && v.unused == w.unused
    ensures Links(v, dir) == Links(w, dir) && Tail(v, dir) == Tail(w, dir)
    decreases w.unused - dir
  {
    if dir in w.selected && dir < w.selected[dir].generation < w.unused { SameLinks(w, v, w.selected[dir].generation); }
  }

  lemma IssuedPlaced(w: World, v: World, device: Dir, pc: Pc)
    requires v == w.(ops := v.ops, serial := v.serial) && w.ops.Keys <= v.ops.Keys && Placed(w, device, pc)
    requires pc.Asking? && Receipt(w, pc.record) ==> Receipt(v, pc.record)
    ensures Placed(v, device, pc) && Rank(v, pc) == Rank(w, pc)
  {
    forall d ensures Tail(v, d) == Tail(w, d) && Links(v, d) == Links(w, d) { SameLinks(w, v, d); }
  }

  lemma IssueStaysOnTrack(w: World, device: Dir, pc: Pc, op: nat)
    requires WorldOk(w) && OnTrack(w, device, pc) && IssueStep(w, op).Some?
    ensures var v := IssueStep(w, op).value; WorldOk(v) && OnTrack(v, device, pc) && Measure(v, pc) < Measure(w, pc)
  {
    var v := IssueStep(w, op).value;
    Issuing(w, op, v);
    IssuedPc(w, v, device, pc);
    IssuedReceipts(w, op);
    IssuedPlaced(w, v, device, pc);
    IssuedPends(w, op);
  }

  lemma IssuedReceipts(w: World, op: nat)
    requires IssueStep(w, op).Some?
    ensures var v := IssueStep(w, op).value;
      v == w.(ops := v.ops, serial := v.serial) && w.ops.Keys <= v.ops.Keys && forall r :: Receipt(w, r) ==> Receipt(v, r)
  {
  }

  lemma IssuedPc(w: World, v: World, device: Dir, pc: Pc)
    requires Grows(w, v, w.unused) && On(w, device) && PcOk(w, pc)
    ensures On(v, device) && PcOk(v, pc)
  {
    OwnedAreOld(w, pc);
    GrowsPc(w, v, w.unused, pc);
  }

  lemma IssuedPends(w: World, op: nat)
    requires IssueStep(w, op).Some?
    ensures |Pending(IssueStep(w, op).value)| < |Pending(w)|
  {
    assert Pending(IssueStep(w, op).value) == Pending(w) - {op};
  }

  // --------------------------------------------------- a lost activation reply

  lemma LossPends(w: World, r: Record)
    ensures |Pending(Activate(w, r))| <= |Pending(w)|
  {
    assert Pending(Activate(w, r)) <= Pending(w);
    Smaller(Pending(Activate(w, r)), Pending(w));
  }

  /** The service has activated what was asked for, and the call reads the receipt. */
  lemma LossStaysOnTrack(w: World, device: Dir, dir: Dir, r: Record)
    requires WorldOk(w) && OnTrack(w, device, Activating(dir, r))
    ensures var (v, next) := Lost(w, Activating(dir, r)).value;
      && next == Asking(dir, r, Retry) && WorldOk(v) && OnTrack(v, device, next)
      && Measure(v, next) < Measure(w, Activating(dir, r))
  {
    LostOk(w, Activating(dir, r));
    ActivationSucceeds(w, dir, r);
    SameTail(w, Activate(w, r), ROOT);
    LossPlaced(w, Activate(w, r), device, dir, r);
    LossPends(w, r);
  }

  lemma LossPlaced(w: World, v: World, device: Dir, dir: Dir, r: Record)
    requires Placed(w, device, Activating(dir, r)) && Receipt(v, r) && Tail(v, ROOT) == Tail(w, ROOT)
    ensures Placed(v, device, Asking(dir, r, Retry)) && Rank(v, Asking(dir, r, Retry)) < Rank(w, Activating(dir, r))
  {
  }

  // ------------------------------------------------------------- whole runs

  /** What holds at every moment of an undisturbed call. */
  ghost predicate Underway(s: State, device: Dir) {
    0 in s.callers && s == Call(s.world, device, s.callers[0].pc) && WorldOk(s.world) && OnTrack(s.world, device, s.callers[0].pc)
  }

  function Remaining(s: State): nat
    requires 0 in s.callers
  {
    Measure(s.world, s.callers[0].pc)
  }

  lemma AdvanceCall(w: World, device: Dir, pc: Pc)
    requires Next(w, device, pc).Some?
    ensures var (v, next) := Next(w, device, pc).value; Step(Call(w, device, pc), Advance(0)) == Some(Call(v, device, next))
  {
    var (v, next) := Next(w, device, pc).value;
    assert map[0 := Caller(device, pc)][0 := Caller(device, next)] == map[0 := Caller(device, next)];
  }

  lemma LoseCall(w: World, device: Dir, pc: Pc)
    requires Lost(w, pc).Some?
    ensures var (v, next) := Lost(w, pc).value; Step(Call(w, device, pc), ReplyLost(0)) == Some(Call(v, device, next))
  {
    var (v, next) := Lost(w, pc).value;
    assert map[0 := Caller(device, pc)][0 := Caller(device, next)] == map[0 := Caller(device, next)];
  }

  lemma AdvanceStaysUnderway(w: World, device: Dir, pc: Pc)
    requires Underway(Call(w, device, pc), device) && Next(w, device, pc).Some?
    ensures var (v, next) := Next(w, device, pc).value; var t := Call(v, device, next);
      Step(Call(w, device, pc), Advance(0)) == Some(t) && Underway(t, device) && Remaining(t) < Measure(w, pc)
  {
    StepStaysOnTrack(w, device, pc);
    AdvanceCall(w, device, pc);
  }

  lemma LossStaysUnderway(w: World, device: Dir, pc: Pc)
    requires Underway(Call(w, device, pc), device) && pc.Activating?
    ensures var (v, next) := Lost(w, pc).value; var t := Call(v, device, next);
      Step(Call(w, device, pc), ReplyLost(0)) == Some(t) && Underway(t, device) && Remaining(t) < Measure(w, pc)
  {
    LossStaysOnTrack(w, device, pc.dir, pc.record);
    LoseCall(w, device, pc);
  }

  lemma EventStaysUnderway(s: State, device: Dir, e: Event)
    requires Underway(s, device) && Step(s, e).Some? && Harmless(s, e)
    ensures Underway(Step(s, e).value, device) && Remaining(Step(s, e).value) < Remaining(s)
  {
    var pc := s.callers[0].pc;
    if e.Issue? {
      IssueStaysOnTrack(s.world, device, pc, e.op);
    } else if e.ReplyLost? {
      LossStaysUnderway(s.world, device, pc);
    } else {
      AdvanceStaysUnderway(s.world, device, pc);
    }
  }

  lemma {:induction false} RunStaysUnderway(s: State, device: Dir, schedule: seq<Event>)
    requires Underway(s, device) && Undisturbed(s, schedule) && Exec(s, schedule).Some?
    ensures var t := Exec(s, schedule).value; Underway(t, device) && |schedule| + Remaining(t) <= Remaining(s)
    decreases |schedule|
  {
    if schedule != [] {
      var front := schedule[..|schedule| - 1];
      UndisturbedFront(s, schedule);
      RunStaysUnderway(s, device, front);
      EventStaysUnderway(Exec(s, front).value, device, schedule[|schedule| - 1]);
    }
  }

  /** The call itself, or the service on the operation it polls, can go on. */
  predicate CanGoOn(s: State) {
    0 in s.callers &&
    (Step(s, Advance(0)).Some? || (s.callers[0].pc.Polling? && Step(s, Issue(s.callers[0].pc.proposal.op)).Some?))
  }

  lemma OnTrackGoesOn(s: State, device: Dir)
    requires Underway(s, device) && !s.callers[0].pc.Done?
    ensures CanGoOn(s)
  {
    var pc := s.callers[0].pc;
    if pc.Polling? && !s.world.ops[pc.proposal.op].status.Pending? { PolledCertificate(s.world, pc.dir, pc.proposal); }
  }

  /** After any run of concurrent calls, lost replies, failures and kills, every renewal whose
      replies are delivered, but for that of its activation, which may be lost, from any
      directory of the chain at most 63 links from its end and however the service's
      certificates come in between: never fails, can always go on until it has returned, has
      returned after at most so many steps, and then the end of the selected chain is what it
      returned and what the service holds active. */
  lemma RenewalConverges(s: State, device: Dir, schedule: seq<Event>, t: State)
    requires Reachable(s) && On(s.world, device) && Links(s.world, device) < 64
    requires var start := Call(s.world, device, Loading(false, device, 0)); Undisturbed(start, schedule) && Exec(start, schedule) == Some(t)
    ensures 0 in t.callers && !t.callers[0].pc.Failed?
    ensures if t.callers[0].pc.Done? then Finished(t.world, t.callers[0].pc) else CanGoOn(t)
    ensures |schedule| <= 25 + Links(s.world, device) + |Pending(s.world)|
  {
    ReachableInv(s);
    var start := Call(s.world, device, Loading(false, device, 0));
    RunStaysUnderway(start, device, schedule);
    if !t.callers[0].pc.Done? { OnTrackGoesOn(t, device); }
  }

  // ------------------------------------------------ asking about a candidate

  /** Until the candidate `r` of `dir` is selected, the call is busy completing it. */
  predicate Completing(w: World, device: Dir, dir: Dir, r: Record, pc: Pc) {
    && Pointed(w, dir, r)
    && (dir in w.selected || pc.Selecting? || (pc.Asking? && pc.record == r && Receipt(w, r)) ||
        (dir == device && !pc.Confirming? && !pc.Done?))
  }

  /** The call leaves a candidate that is not activated alone: its own material is elsewhere. */
  predicate Leaving(w: World, device: Dir, dir: Dir, r: Record, pc: Pc) {
    && dir != device && On(w, dir) && dir !in w.selected && !Receipt(w, r)
    && ((pc.Asking? && pc.record == r) || (pc.Loading? && pc.final) || pc.Confirming? || pc.Done?)
  }

  predicate Settles(w: World, v: World, device: Dir, dir: Dir, r: Record, pc: Pc, next: Pc) {
    && (Completing(w, device, dir, r, pc) ==> Completing(v, device, dir, r, next))
    && (Leaving(w, device, dir, r, pc) ==> Leaving(v, device, dir, r, next))
  }

  lemma PointedStays(w: World, device: Dir, pc: Pc, dir: Dir, r: Record)
    requires WorldOk(w) && PcOk(w, pc) && Next(w, device, pc).Some? && Pointed(w, dir, r)
    ensures var v := Next(w, device, pc).value.0; Pointed(v, dir, r) && (dir in w.selected ==> dir in v.selected)
  {
    var result := Next(w, device, pc).value;
    NextOk(w, device, pc);
    FairKeeps(w, result.0, pc, result.1);
  }

  lemma CompletesFurther(w: World, device: Dir, dir: Dir, r: Record, pc: Pc, result: (World, Pc))
    requires WorldOk(w) && OnTrack(w, device, pc) && Completing(w, device, dir, r, pc) && dir !in w.selected
    requires Next(w, device, pc) == Some(result)
    ensures Completing(w, device, dir, r, result.1) || dir in result.0.selected
  {
    Unselected(w, dir);
    if pc.Selecting? {
      SelectsFirst(w, dir, pc.record, pc.mode);
    } else if pc.Loading? && pc.final {
      HomeIsComplete(w, pc.cur);
    } else {
      GoesOn(w, device, dir, r, pc, result);
    }
  }

  lemma GoesOn(w: World, device: Dir, dir: Dir, r: Record, pc: Pc, result: (World, Pc))
    requires PcOk(w, pc) && Placed(w, device, pc) && Completing(w, device, dir, r, pc) && dir !in w.selected && dir == Tail(w, ROOT)
    requires Next(w, device, pc) == Some(result) && !pc.Selecting? && !(pc.Loading? && pc.final)
    ensures Completing(w, device, dir, r, result.1)
  {
  }

  lemma StepCompletes(w: World, device: Dir, dir: Dir, r: Record, pc: Pc)
    requires WorldOk(w) && OnTrack(w, device, pc) && Completing(w, device, dir, r, pc) && Next(w, device, pc).Some?
    ensures var (v, next) := Next(w, device, pc).value; Completing(v, device, dir, r, next)
  {
    var result := Next(w, device, pc).value;
    PointedStays(w, device, pc, dir, r);
    if dir !in w.selected { CompletesFurther(w, device, dir, r, pc, result); }
  }

  lemma StepLeaves(w: World, device: Dir, dir: Dir, r: Record, pc: Pc)
    requires WorldOk(w) && OnTrack(w, device, pc) && Leaving(w, device, dir, r, pc) && Next(w, device, pc).Some?
    ensures var (v, next) := Next(w, device, pc).value; Leaving(v, device, dir, r, next)
  {
    Unselected(w, dir);
    if pc.Loading? { HomeIsComplete(w, pc.cur); }
    LeavesFurther(w, device, dir, r, pc);
  }

  lemma LeavesFurther(w: World, device: Dir, dir: Dir, r: Record, pc: Pc)
    requires Placed(w, device, pc) && Leaving(w, device, dir, r, pc) && dir == Tail(w, ROOT) && Next(w, device, pc).Some?
    requires pc.Loading? ==> pc.cur !in w.selected && Material(w, pc.cur)
    ensures var (v, next) := Next(w, device, pc).value; Leaving(v, device, dir, r, next)
  {
  }

  lemma IssueSettles(w: World, device: Dir, dir: Dir, r: Record, pc: Pc, op: nat)
    requires WorldOk(w) && IssueStep(w, op).Some?
    ensures Settles(w, IssueStep(w, op).value, device, dir, r, pc, pc)
  {
    var v := IssueStep(w, op).value;
    Issuing(w, op, v);
    IssuedSettles(w, op, v, device, dir, r, pc);
  }

  lemma IssuedSettles(w: World, op: nat, v: World, device: Dir, dir: Dir, r: Record, pc: Pc)
    requires IssueStep(w, op) == Some(v) && StaysOn(w, v)
    ensures Settles(w, v, device, dir, r, pc, pc)
  {
  }

  lemma {:induction false} RunSettles(s: State, device: Dir, dir: Dir, r: Record, schedule: seq<Event>)
    requires Underway(s, device) && Undisturbed(s, schedule) && Exec(s, schedule).Some?
    ensures var t := Exec(s, schedule).value;
      Underway(t, device) && Settles(s.world, t.world, device, dir, r, s.callers[0].pc, t.callers[0].pc)
    decreases |schedule|
  {
    if schedule != [] {
      var front, e := schedule[..|schedule| - 1], schedule[|schedule| - 1];
      UndisturbedFront(s, schedule);
      RunSettles(s, device, dir, r, front);
      var t := Exec(s, front).value;
      EventStaysUnderway(t, device, e);
      EventSettles(t, device, dir, r, e);
    }
  }

  lemma LossSettles(w: World, device: Dir, dir: Dir, r: Record, pc: Pc)
    requires WorldOk(w) && PcOk(w, pc) && pc.Activating?
    ensures Settles(w, Activate(w, pc.record), device, dir, r, pc, Asking(pc.dir, pc.record, Retry))
  {
    SameTail(w, Activate(w, pc.record), dir);
    SameTail(w, Activate(w, pc.record), ROOT);
    LostSettles(w, Activate(w, pc.record), device, dir, r, pc);
  }

  lemma LostSettles(w: World, v: World, device: Dir, dir: Dir, r: Record, pc: Pc)
    requires pc.Activating? && v == w.(ops := v.ops, active := v.active) && Tail(v, dir) == Tail(w, dir) && Tail(v, ROOT) == Tail(w, ROOT)
    ensures Settles(w, v, device, dir, r, pc, Asking(pc.dir, pc.record, Retry))
  {
  }

  lemma EventSettles(s: State, device: Dir, dir: Dir, r: Record, e: Event)
    requires Underway(s, device) && Step(s, e).Some? && Harmless(s, e)
    ensures var t := Step(s, e).value;
      0 in t.callers && Settles(s.world, t.world, device, dir, r, s.callers[0].pc, t.callers[0].pc)
  {
    var w, pc := s.world, s.callers[0].pc;
    if e.Issue? {
      IssueSettles(w, device, dir, r, pc, e.op);
    } else if e.ReplyLost? {
      LossSettles(w, device, dir, r, pc);
    } else {
      StepSettles(w, device, dir, r, pc);
    }
  }

  lemma StepSettles(w: World, device: Dir, dir: Dir, r: Record, pc: Pc)
    requires WorldOk(w) && OnTrack(w, device, pc) && Next(w, device, pc).Some?
    ensures var (v, next) := Next(w, device, pc).value; Settles(w, v, device, dir, r, pc, next)
  {
    if Completing(w, device, dir, r, pc) { StepCompletes(w, device, dir, r, pc); }
    if Leaving(w, device, dir, r, pc) { StepLeaves(w, device, dir, r, pc); }
  }

  lemma OneSelection(w: World, dir: Dir, r: Record)
    requires FilesOk(w) && Pointed(w, dir, r) && dir in w.selected
    ensures w.selected[dir] == r
  {
    assert SelectedOk(w, dir) && PointerOk(w, Slot(dir, r.op)) && PointerOk(w, Slot(dir, w.selected[dir].op));
  }

  predicate Settled(w: World, activated: bool, device: Dir, dir: Dir, r: Record, pc: Pc) {
    Finished(w, pc) &&
    if activated || dir == device then dir in w.selected && w.selected[dir] == r else dir !in w.selected && pc.dir == dir
  }

  lemma CompletedIsSettled(w: World, activated: bool, device: Dir, dir: Dir, r: Record, pc: Pc)
    requires FilesOk(w) && Finished(w, pc) && if activated || dir == device then Completing(w, device, dir, r, pc) else Leaving(w, device, dir, r, pc)
    ensures Settled(w, activated, device, dir, r, pc)
  {
    if activated || dir == device { OneSelection(w, dir, r); } else { Unselected(w, dir); }
  }

  lemma AskingStarts(w: World, device: Dir, dir: Dir, r: Record)
    requires Pointed(w, dir, r) && dir == Tail(w, ROOT) && On(w, device) && dir !in w.selected
    ensures var pc := Asking(dir, r, Recovering);
      && OnTrack(w, device, pc)
      && (if Receipt(w, r) || dir == device then Completing(w, device, dir, r, pc) else Leaving(w, device, dir, r, pc))
  {
  }

  lemma PlacedEnds(w: World, device: Dir, pc: Pc)
    requires Placed(w, device, pc)
    ensures !pc.Failed? && (pc.Done? ==> Finished(w, pc))
  {
  }

  lemma EndIsSettled(w: World, activated: bool, device: Dir, dir: Dir, r: Record, pc: Pc)
    requires FilesOk(w) && Placed(w, device, pc)
    requires if activated || dir == device then Completing(w, device, dir, r, pc) else Leaving(w, device, dir, r, pc)
    ensures !pc.Failed? && (pc.Done? ==> Settled(w, activated, device, dir, r, pc))
  {
    PlacedEnds(w, device, pc);
    if pc.Done? { CompletedIsSettled(w, activated, device, dir, r, pc); }
  }

  /** Every call that finds a retained candidate at the end of the chain: when it returns, the
      candidate is selected if the service had activated it or the call's own material is its
      parent; otherwise the call has returned the parent and selected nothing. */
  lemma CandidateIsSettled(s: State, device: Dir, dir: Dir, r: Record, schedule: seq<Event>, t: State)
    requires Reachable(s) && Pointed(s.world, dir, r) && dir == Tail(s.world, ROOT) && On(s.world, device)
    requires var start := Call(s.world, device, Asking(dir, r, Recovering)); Undisturbed(start, schedule) && Exec(start, schedule) == Some(t)
    ensures 0 in t.callers && !t.callers[0].pc.Failed? && (t.callers[0].pc.Done? ==> Settled(t.world, Receipt(s.world, r), device, dir, r, t.callers[0].pc))
  {
    ReachableInv(s);
    TailIsLast(s.world, ROOT);
    AskingStarts(s.world, device, dir, r);
    var start := Call(s.world, device, Asking(dir, r, Recovering));
    RunSettles(start, device, dir, r, schedule);
    EndIsSettled(t.world, Receipt(s.world, r), device, dir, r, t.callers[0].pc);
  }

  // ---------------------------------------------- an activation of unknown outcome

  lemma {:induction false} ExecCons(s: State, e: Event, more: seq<Event>)
    requires Step(s, e).Some?
    ensures Exec(s, [e] + more) == Exec(Step(s, e).value, more)
    decreases |more|
  {
    if more == [] {
      assert ([e] + more)[..0] == [];
    } else {
      ExecCons(s, e, more[..|more| - 1]);
      assert ([e] + more)[..|more|] == [e] + more[..|more| - 1];
    }
  }

  function Advances(c: nat, n: nat): seq<Event> { seq(n, _ => Advance(c)) }

  /** The call has returned the candidate and selected it. */
  predicate Returned(s: State, c: nat, dir: Dir, r: Record) {
    && c in s.callers && s.callers[c].pc == Done(r.generation)
    && dir in s.world.selected && s.world.selected[dir] == r
  }

  lemma OneAdvance(s: State, c: nat, n: nat)
    requires Step(s, Advance(c)).Some?
    ensures Exec(s, Advances(c, n + 1)) == Exec(Step(s, Advance(c)).value, Advances(c, n))
  {
    ExecCons(s, Advance(c), Advances(c, n));
    assert [Advance(c)] + Advances(c, n) == Advances(c, n + 1);
  }

  lemma ReadsReceipt(s: State, c: nat, dir: Dir, r: Record)
    requires c in s.callers && s.callers[c].pc == Asking(dir, r, Retry)
    ensures Step(s, Advance(c)) == Some(s.(callers := s.callers[c := Caller(s.callers[c].device,
      if Receipt(s.world, r) then Selecting(dir, r, Retry) else Failed)]))
  {
  }

  lemma FirstSelects(s: State, c: nat, dir: Dir, r: Record)
    requires FilesOk(s.world) && Pointed(s.world, dir, r) && c in s.callers && s.callers[c].pc == Selecting(dir, r, Retry)
    requires dir !in s.world.selected
    ensures Exec(s, Advances(c, 2)).Some? && Returned(Exec(s, Advances(c, 2)).value, c, dir, r)
  {
    SelectsFirst(s.world, dir, r, Retry);
    var t := Put(s, c, s.callers[c].device, (s.world.(selected := s.world.selected[dir := r]), SyncingSelection(dir, r, Retry)));
    assert Step(s, Advance(c)) == Some(t);
    OneAdvance(s, c, 1);
    ForcesAndReturns(t, c, dir, r);
  }

  lemma ForcesAndReturns(t: State, c: nat, dir: Dir, r: Record)
    requires c in t.callers && t.callers[c].pc == SyncingSelection(dir, r, Retry) && dir in t.world.selected && t.world.selected[dir] == r
    ensures Exec(t, Advances(c, 1)).Some? && Returned(Exec(t, Advances(c, 1)).value, c, dir, r)
  {
    OneAdvance(t, c, 0);
    assert Advances(c, 0) == [];
  }

  lemma FindsSelected(s: State, c: nat, dir: Dir, r: Record)
    requires FilesOk(s.world) && Pointed(s.world, dir, r) && c in s.callers && s.callers[c].pc == Selecting(dir, r, Retry)
    requires dir in s.world.selected
    ensures Exec(s, Advances(c, 1)).Some? && Returned(Exec(s, Advances(c, 1)).value, c, dir, r)
  {
    OneSelection(s.world, dir, r);
    assert PointerOk(s.world, Slot(dir, r.op));
    SelectedAlready(s.world, dir, r);
    OneAdvance(s, c, 0);
    assert Advances(c, 0) == [];
  }

  lemma SelectedAlready(w: World, dir: Dir, r: Record)
    requires dir in w.selected && w.selected[dir] == r && PointerOk(w, Slot(dir, r.op)) && w.pointers[Slot(dir, r.op)] == r
    ensures SelectStep(w, dir, r, Retry) == (w, Done(r.generation))
  {
  }

  /** In every reachable state, whatever other calls are doing: a call whose activation got no
      reply or could not be sent, or whose selection failed, reads the receipt. If the service has activated exactly its
      candidate, at most three steps of the call select it and return it; otherwise the next
      step fails the call and nothing has changed. */
  lemma UncertainActivationIsResolved(s: State, c: nat, dir: Dir, r: Record, e: Event, t: State) returns (n: nat)
    requires Reachable(s) && c in s.callers && TriesFirst(s.callers[c].pc, dir, r)
    requires (e == Raises(c) || (e == ReplyLost(c) && s.callers[c].pc.Activating?)) && Step(s, e) == Some(t)
    ensures 1 <= n <= 3 && Exec(t, Advances(c, n)).Some?
    ensures var u := Exec(t, Advances(c, n)).value;
      if r.op in t.world.ops && t.world.ops[r.op].status == Activated(r.cert) then Returned(u, c, dir, r)
      else n == 1 && c in u.callers && u.callers[c].pc == Failed && u.world == t.world
  {
    ReachableInv(s);
    StepKeepsInv(s, e);
    AsksForReceipt(s, c, dir, r, e, t);
    n := ReceiptDecides(t, c, dir, r);
  }

  /** The call activates its candidate, or selects it on the reply. */
  predicate TriesFirst(pc: Pc, dir: Dir, r: Record) {
    pc == Activating(dir, r) || pc == Selecting(dir, r, FirstTry) || pc == SyncingSelection(dir, r, FirstTry)
  }

  lemma AsksForReceipt(s: State, c: nat, dir: Dir, r: Record, e: Event, t: State)
    requires c in s.callers && TriesFirst(s.callers[c].pc, dir, r)
    requires (e == Raises(c) || (e == ReplyLost(c) && s.callers[c].pc.Activating?)) && Step(s, e) == Some(t)
    ensures c in t.callers && t.callers[c].pc == Asking(dir, r, Retry)
  {
  }

  lemma ReceiptDecides(t: State, c: nat, dir: Dir, r: Record) returns (n: nat)
    requires Inv(t) && c in t.callers && t.callers[c].pc == Asking(dir, r, Retry)
    ensures 1 <= n <= 3 && Exec(t, Advances(c, n)).Some?
    ensures var u := Exec(t, Advances(c, n)).value;
      if Receipt(t.world, r) then Returned(u, c, dir, r)
      else n == 1 && c in u.callers && u.callers[c].pc == Failed && u.world == t.world
  {
    ReadsReceipt(t, c, dir, r);
    assert PcOk(t.world, t.callers[c].pc);
    var u := Step(t, Advance(c)).value;
    if !Receipt(t.world, r) {
      n := 1;
      OneAdvance(t, c, 0);
      assert Advances(c, 0) == [];
    } else if dir in t.world.selected {
      n := 2;
      FindsSelected(u, c, dir, r);
      OneAdvance(t, c, 1);
    } else {
      n := 3;
      FirstSelects(u, c, dir, r);
      OneAdvance(t, c, 2);
    }
  }

  /** A lost reply does not undo the activation: over the issued certificate, with its parent
      active, the service holds the candidate active all the same. */
  lemma LostReplyStillActivates(s: State, c: nat, dir: Dir, r: Record)
    requires Reachable(s) && c in s.callers && s.callers[c].pc == Activating(dir, r) && Home(s.world, dir)
    ensures Step(s, ReplyLost(c)).Some?
    ensures var w := Step(s, ReplyLost(c)).value.world;
      r.op in w.ops && w.ops[r.op].status == Activated(r.cert) && w.active == r.cert
  {
    ReachableInv(s);
    LosesReply(s, c, dir, r);
    assert PcOk(s.world, s.callers[c].pc);
    HomeActivates(s.world, dir, r);
  }

  lemma LosesReply(s: State, c: nat, dir: Dir, r: Record)
    requires c in s.callers && s.callers[c].pc == Activating(dir, r)
    ensures Step(s, ReplyLost(c)).Some? && Step(s, ReplyLost(c)).value.world == Activate(s.world, r)
  {
  }

  lemma HomeActivates(w: World, dir: Dir, r: Record)
    requires WorldOk(w) && Home(w, dir) && Pointed(w, dir, r)
    ensures Receipt(Activate(w, r), r) && Activate(w, r).active == r.cert
  {
    ActivationSucceeds(w, dir, r);
    Activation(w, dir, r, Activate(w, r));
  }

  // ------------------------------------------------------ calls that lose a race

  /** A generation is gone from the disk. */
  predicate Gone(w: World, generation: Dir) { generation !in w.certificates && generation !in w.keys }

  lemma CleansUp(s: State, c: nat, k: Commit, existed: bool)
    requires c in s.callers && s.callers[c].pc == Cleaning(k, existed) && !Committed(s.world, k)
    ensures Step(s, Advance(c)) == Some(Put(s, c, s.callers[c].device, (Remove(s.world, k.generation), AfterCleaning(k, existed))))
    ensures Gone(Remove(s.world, k.generation), k.generation)
  {
  }

  lemma ExistingPointer(w: World, k: Commit)
    requires FilesOk(w) && CommittingOk(w, LinkingPointer(k)) && Slot(k.dir, k.proposal.op) in w.pointers
    ensures !Committed(w, k) && w.pointers[Slot(k.dir, k.proposal.op)].generation != k.generation
  {
  }

  lemma ChecksExisting(w: World, v: World, k: Commit)
    requires FilesOk(w) && CommittingOk(w, LinkingPointer(k)) && Slot(k.dir, k.proposal.op) in w.pointers
    requires v == Remove(w, k.generation) && FilesOk(v)
    ensures CheckStep(v, k.dir, k.proposal, k.cert) == Activating(k.dir, w.pointers[Slot(k.dir, k.proposal.op)])
  {
    assert PointerOk(v, Slot(k.dir, k.proposal.op));
  }

  lemma FindsPointer(s: State, c: nat, k: Commit)
    requires c in s.callers && s.callers[c].pc == LinkingPointer(k) && Slot(k.dir, k.proposal.op) in s.world.pointers
    ensures Step(s, Advance(c)) == Some(Put(s, c, s.callers[c].device, (s.world, Cleaning(k, true))))
  {
  }

  lemma GoesOnToActivate(s: State, c: nat, k: Commit, r: Record)
    requires c in s.callers && s.callers[c].pc == Checking(k.dir, k.proposal, k.cert)
    requires CheckStep(s.world, k.dir, k.proposal, k.cert) == Activating(k.dir, r)
    ensures Step(s, Advance(c)) == Some(Put(s, c, s.callers[c].device, (s.world, Activating(k.dir, r))))
  {
  }

  lemma ThreeAdvances(s: State, t: State, u: State, v: State, c: nat)
    requires Step(s, Advance(c)) == Some(t) && Step(t, Advance(c)) == Some(u) && Step(u, Advance(c)) == Some(v)
    ensures Exec(s, Advances(c, 3)) == Some(v)
  {
    OneAdvance(s, c, 2);
    OneAdvance(t, c, 1);
    OneAdvance(u, c, 0);
    assert Advances(c, 0) == [];
  }

  lemma CleanedFiles(s: State, c: nat, k: Commit)
    requires Inv(s) && c in s.callers && s.callers[c].pc == Cleaning(k, true) && !Committed(s.world, k)
    ensures FilesOk(Remove(s.world, k.generation))
  {
    CleansUp(s, c, k, true);
    StepKeepsInv(s, Advance(c));
  }

  lemma Committing(s: State, c: nat)
    requires Inv(s) && c in s.callers && InCommit(s.callers[c].pc)
    ensures FilesOk(s.world) && CommittingOk(s.world, s.callers[c].pc)
  {
    assert PcOk(s.world, s.callers[c].pc);
  }

  /** A call that finds the pointer of its proposal when it links its own, removes the
      generation it has written and activates the one that is there. */
  lemma ExistingPointerIsAdopted(s: State, c: nat, k: Commit)
    requires Reachable(s) && c in s.callers && s.callers[c].pc == LinkingPointer(k) && Slot(k.dir, k.proposal.op) in s.world.pointers
    ensures Exec(s, Advances(c, 3)).Some?
    ensures var t := Exec(s, Advances(c, 3)).value;
      c in t.callers && t.callers[c].pc == Activating(k.dir, s.world.pointers[Slot(k.dir, k.proposal.op)])
      && Gone(t.world, k.generation) && t.world == Remove(s.world, k.generation)
  {
    ReachableInv(s);
    PointerIsAdopted(s, c, k);
  }

  lemma PointerIsAdopted(s: State, c: nat, k: Commit)
    requires Inv(s) && c in s.callers && s.callers[c].pc == LinkingPointer(k) && Slot(k.dir, k.proposal.op) in s.world.pointers
    ensures Exec(s, Advances(c, 3)).Some?
    ensures var t := Exec(s, Advances(c, 3)).value;
      c in t.callers && t.callers[c].pc == Activating(k.dir, s.world.pointers[Slot(k.dir, k.proposal.op)])
      && Gone(t.world, k.generation) && t.world == Remove(s.world, k.generation)
  {
    Committing(s, c);
    ExistingPointer(s.world, k);
    FindsPointer(s, c, k);
    StepKeepsInv(s, Advance(c));
    AdoptsPointer(s, c, k, Step(s, Advance(c)).value);
  }

  lemma AdoptsPointer(s: State, c: nat, k: Commit, t: State)
    requires FilesOk(s.world) && CommittingOk(s.world, LinkingPointer(k)) && Slot(k.dir, k.proposal.op) in s.world.pointers
    requires c in s.callers && t == Put(s, c, s.callers[c].device, (s.world, Cleaning(k, true))) && Step(s, Advance(c)) == Some(t) && Inv(t)
    requires !Committed(s.world, k)
    ensures Exec(s, Advances(c, 3)).Some?
    ensures var v := Exec(s, Advances(c, 3)).value;
      c in v.callers && v.callers[c].pc == Activating(k.dir, s.world.pointers[Slot(k.dir, k.proposal.op)])
      && Gone(v.world, k.generation) && v.world == Remove(s.world, k.generation)
  {
    var device, w, r := s.callers[c].device, Remove(s.world, k.generation), s.world.pointers[Slot(k.dir, k.proposal.op)];
    CleansUp(t, c, k, true);
    CleanedFiles(t, c, k);
    ChecksExisting(s.world, w, k);
    var u := Put(t, c, device, (w, Checking(k.dir, k.proposal, k.cert)));
    GoesOnToActivate(u, c, k, r);
    ThreeAdvances(s, t, u, Put(u, c, device, (w, Activating(k.dir, r))), c);
  }

  lemma NotYetCommitted(w: World, pc: Pc)
    requires FilesOk(w) && InCommit(pc) && CommittingOk(w, pc) && !pc.SyncingPointer? && !pc.Cleaning?
    ensures !Committed(w, pc.commit)
  {
  }

  lemma AlreadyCommitted(s: State, c: nat, k: Commit)
    requires c in s.callers && s.callers[c].pc == Cleaning(k, false) && Committed(s.world, k)
    ensures Step(s, Advance(c)) == Some(Put(s, c, s.callers[c].device, (s.world, Failed)))
  {
  }

  lemma RaisesInCommit(s: State, c: nat)
    requires c in s.callers && InCommit(s.callers[c].pc) && !s.callers[c].pc.Cleaning?
    ensures Step(s, Raises(c)) == Some(Put(s, c, s.callers[c].device, (s.world, Cleaning(s.callers[c].pc.commit, false))))
  {
  }

  /** A commit that fails before its pointer is linked leaves nothing of its generation; one
      that fails after keeps pointer and generation. Either way the call fails. */
  lemma FailedCommitCleansUp(s: State, c: nat, t: State)
    requires Reachable(s) && c in s.callers && InCommit(s.callers[c].pc) && !s.callers[c].pc.Cleaning?
    requires Step(s, Raises(c)) == Some(t)
    ensures Step(t, Advance(c)).Some?
    ensures var k := s.callers[c].pc.commit; var u := Step(t, Advance(c)).value;
      && c in u.callers && u.callers[c].pc == Failed
      && (if s.callers[c].pc.SyncingPointer? then u.world == s.world else Gone(u.world, k.generation))
  {
    ReachableInv(s);
    Committing(s, c);
    RaisesInCommit(s, c);
    FailsInCommit(s, c, t);
  }

  lemma FailsInCommit(s: State, c: nat, t: State)
    requires FilesOk(s.world) && c in s.callers && InCommit(s.callers[c].pc) && CommittingOk(s.world, s.callers[c].pc) && !s.callers[c].pc.Cleaning?
    requires t == Put(s, c, s.callers[c].device, (s.world, Cleaning(s.callers[c].pc.commit, false)))
    ensures Step(t, Advance(c)).Some?
    ensures var k := s.callers[c].pc.commit; var u := Step(t, Advance(c)).value;
      && c in u.callers && u.callers[c].pc == Failed
      && (if s.callers[c].pc.SyncingPointer? then u.world == s.world else Gone(u.world, k.generation))
  {
    var pc := s.callers[c].pc;
    if pc.SyncingPointer? {
      AlreadyCommitted(t, c, pc.commit);
    } else {
      NotYetCommitted(s.world, pc);
      CleansUp(t, c, pc.commit, false);
    }
  }
}
