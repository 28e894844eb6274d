/** No run of concurrent, crashing renewals loses a key or a committed generation.

    What is committed stays, what is selected was activated, and callers on one generation
    agree. A power failure may take what was not forced to disk; which keys then survive is
    decided by the steps that forced a directory (`atomic_private_file.py`), over runs with any
    number of power failures. A run shows how adopting files that another call has linked but
    not forced leaves a key exposed. */
module RenewalSafety {
  import opened Outcomes
  import opened Renewal
  import opened RenewalInvariant

  const START: State := State(Enrolled(), map[])

  /** A state some run without a power failure reaches. */
  ghost predicate Reachable(s: State) {
    exists schedule :: Uninterrupted(schedule) && Exec(START, schedule) == Some(s)
  }

  lemma ReachableInv(s: State)
    requires Reachable(s)
    ensures Inv(s)
  {
    var schedule :| Uninterrupted(schedule) && Exec(START, schedule) == Some(s);
    EnrolledOk();
    RunKeepsInv(START, schedule);
  }

  // ------------------------------------------------------------------- keys

  /** `dir` retains the proposal, private key included, of operation `op`. */
  predicate Retains(w: World, dir: Dir, op: nat, key: nat) { dir in w.prepared && w.prepared[dir] == Proposal(op, key) }

  /** `dir` holds a certificate together with its private key. */
  predicate HoldsPair(w: World, dir: Dir, cert: Cert) {
    dir in w.certificates && dir in w.keys && w.certificates[dir] == cert && w.keys[dir] == cert.key
  }

  /** Every operation the service knows, from before it issues anything, has its private key
      retained on disk, and the active certificate lies beside its key. */
  lemma KeysAreRetained(s: State)
    requires Reachable(s)
    ensures forall op :: op in s.world.ops ==> exists dir :: Retains(s.world, dir, op, s.world.ops[op].key)
    ensures exists dir :: HoldsPair(s.world, dir, s.world.active)
  {
    ReachableInv(s);
    var w := s.world;
    forall op | op in w.ops ensures exists dir :: Retains(w, dir, op, w.ops[op].key) {
      var dir :| OperationOk(w, op, dir);
      assert Retains(w, dir, op, w.ops[op].key);
    }
    ActiveIsHeld(w);
  }

  lemma ActiveIsHeld(w: World)
    requires WorldOk(w)
    ensures exists dir :: HoldsPair(w, dir, w.active)
  {
    var tail := Tail(w, ROOT);
    TailIsNamed(w, ROOT);
    assert NamedOk(w, tail);
    if w.active == w.certificates[tail] {
      assert HoldsPair(w, tail, w.active);
    } else {
      var op := w.prepared[tail].op;
      var home :| OperationOk(w, op, home);
      assert home == tail && PointerOk(w, Slot(tail, op));
      assert HoldsPair(w, w.pointers[Slot(tail, op)].generation, w.active);
    }
  }

  /** A generation is selected only if the service activated exactly its operation, key and
      certificate, and what is selected is the complete generation a pointer names. */
  lemma SelectionsWereActivated(s: State, dir: Dir)
    requires Reachable(s) && dir in s.world.selected
    ensures var r := s.world.selected[dir];
      && r.op in s.world.ops && s.world.ops[r.op].status == Activated(r.cert) && s.world.ops[r.op].key == r.key
      && HoldsPair(s.world, r.generation, r.cert)
      && Slot(dir, r.op) in s.world.pointers && s.world.pointers[Slot(dir, r.op)] == r
  {
    ReachableInv(s);
    var r := s.world.selected[dir];
    assert SelectedOk(s.world, dir) && PointerOk(s.world, Slot(dir, r.op));
    var home :| OperationOk(s.world, r.op, home);
  }

  /** Every pointer names a complete generation, different from that of every other pointer,
      with the certificate the service issued for its directory's one proposal. */
  lemma PointersAreComplete(s: State, slot: Slot)
    requires Reachable(s) && slot in s.world.pointers
    ensures var r := s.world.pointers[slot];
      && HoldsPair(s.world, r.generation, r.cert) && r.cert.key == r.key
      && Retains(s.world, slot.dir, slot.op, r.key) && r.op == slot.op && IssuedAs(s.world, r.op, r.cert)
    ensures forall other :: other in s.world.pointers && other != slot ==>
      s.world.pointers[other].generation != s.world.pointers[slot].generation && other.dir != slot.dir
  {
    ReachableInv(s);
    assert PointerOk(s.world, slot);
    forall other | other in s.world.pointers && other != slot
      ensures s.world.pointers[other].generation != s.world.pointers[slot].generation && other.dir != slot.dir
    {
      assert PointerOk(s.world, other);
    }
  }

  // ------------------------------------------------------------ write-once

  /** Nothing committed in `w` changes or goes away in `v`. */
  ghost predicate Keeps(w: World, v: World) {
    && (forall d :: d in w.prepared ==> d in v.prepared && v.prepared[d] == w.prepared[d])
    && (forall slot :: slot in w.pointers ==> slot in v.pointers && v.pointers[slot] == w.pointers[slot])
    && (forall d :: d in w.selected ==> d in v.selected && v.selected[d] == w.selected[d])
    && w.named <= v.named
    && (forall d :: d in w.named && d in w.certificates ==> d in v.certificates && v.certificates[d] == w.certificates[d])
    && (forall d :: d in w.named && d in w.keys ==> d in v.keys && v.keys[d] == w.keys[d])
  }

  lemma FairKeeps(w: World, v: World, pc: Pc, next: Pc)
    requires Fair(w, v, pc, next)
    ensures Keeps(w, v)
  {
    var name :| (Grows(w, v, name) || Quiet(w, v, name)) && (name in Owned(pc) || w.unused <= name);
    if Grows(w, v, name) {
    } else {
      assert Quiet(w, v, name);
    }
  }

  lemma NextKeeps(w: World, device: Dir, pc: Pc)
    requires WorldOk(w) && PcOk(w, pc) && Next(w, device, pc).Some?
    ensures Keeps(w, Next(w, device, pc).value.0)
  {
    NextOk(w, device, pc);
    FairKeeps(w, Next(w, device, pc).value.0, pc, Next(w, device, pc).value.1);
  }

  lemma LostKeeps(w: World, pc: Pc)
    requires WorldOk(w) && PcOk(w, pc) && Lost(w, pc).Some?
    ensures Keeps(w, Lost(w, pc).value.0)
  {
    LostOk(w, pc);
    FairKeeps(w, Lost(w, pc).value.0, pc, Lost(w, pc).value.1);
  }

  lemma StepKeeps(s: State, e: Event)
    requires Inv(s) && Step(s, e).Some? && !e.PowerLoss?
    ensures Keeps(s.world, Step(s, e).value.world)
  {
    match e
    case Advance(c) => NextKeeps(s.world, s.callers[c].device, s.callers[c].pc);
    case ReplyLost(c) => LostKeeps(s.world, s.callers[c].pc);
    case Issue(op) => Issuing(s.world, op, IssueStep(s.world, op).value);
    case _ =>
  }

  lemma KeepsOn(u: World, w: World, v: World)
    requires Keeps(u, w) && Keeps(w, v)
    ensures Keeps(u, v)
  {
  }

  /** Retained proposals, pointers, selections and the generations they name are write-once:
      no later step of any call, failure path or crash changes or removes one. */
  lemma {:induction false} CommittedFilesStay(s: State, more: seq<Event>)
    requires Inv(s) && Exec(s, more).Some? && Uninterrupted(more)
    ensures Keeps(s.world, Exec(s, more).value.world)
    decreases |more|
  {
    if more != [] {
      var front := more[..|more| - 1];
      var before := Exec(s, front).value;
      CommittedFilesStay(s, front);
      RunKeepsInv(s, front);
      StepKeeps(before, more[|more| - 1]);
      KeepsOn(s.world, before.world, Exec(s, more).value.world);
    }
  }

  /** The directory and proposal a call works with, once it has prepared. */
  function ProposalOf(pc: Pc): Option<(Dir, Proposal)> {
    match pc
    case Posting(dir, p) => Some((dir, p))
    case Polling(dir, p) => Some((dir, p))
    case Staging(dir, p, _) => Some((dir, p))
    case WritingCertificate(k) => Some((k.dir, k.proposal))
    case WritingKey(k) => Some((k.dir, k.proposal))
    case LinkingPointer(k) => Some((k.dir, k.proposal))
    case SyncingPointer(k) => Some((k.dir, k.proposal))
    case Cleaning(k, _) => Some((k.dir, k.proposal))
    case Checking(dir, p, _) => Some((dir, p))
    case _ => None
  }

  lemma ProposalIsRetained(w: World, pc: Pc)
    requires PcOk(w, pc) && ProposalOf(pc).Some?
    ensures var (dir, p) := ProposalOf(pc).value; dir in w.prepared && w.prepared[dir] == p
  {
  }

  /** All calls that ever prepare a renewal of one generation, at once, one after another or
      after crashes, work with the same operation and key. */
  lemma OneProposalPerGeneration(s: State, more: seq<Event>, i: nat, j: nat)
    requires Reachable(s) && Exec(s, more).Some? && Uninterrupted(more)
    requires i in s.callers && ProposalOf(s.callers[i].pc).Some?
    requires j in Exec(s, more).value.callers && ProposalOf(Exec(s, more).value.callers[j].pc).Some?
    requires ProposalOf(s.callers[i].pc).value.0 == ProposalOf(Exec(s, more).value.callers[j].pc).value.0
    ensures ProposalOf(s.callers[i].pc) == ProposalOf(Exec(s, more).value.callers[j].pc)
  {
    ReachableInv(s);
    var t := Exec(s, more).value;
    RunKeepsInv(s, more);
    CommittedFilesStay(s, more);
    ProposalIsRetained(s.world, s.callers[i].pc);
    ProposalIsRetained(t.world, t.callers[j].pc);
  }

  // ----------------------------------------------------------- power failure

  lemma NextKeepsSynced(w: World, device: Dir, pc: Pc)
    requires Next(w, device, pc).Some?
    ensures var v := Next(w, device, pc).value.0;
      w.synced <= v.synced && forall d :: d in w.prepared ==> d in v.prepared && v.prepared[d] == w.prepared[d]
  {
  }

  /** A step of any kind, power failures included, leaves a durable proposal in place. */
  lemma StepKeepsSynced(s: State, e: Event, dir: Dir)
    requires Step(s, e).Some? && dir in s.world.prepared && PreparedEntry(dir) in s.world.synced
    ensures var v := Step(s, e).value.world;
      dir in v.prepared && v.prepared[dir] == s.world.prepared[dir] && PreparedEntry(dir) in v.synced
  {
    match e
    case Advance(c) => NextKeepsSynced(s.world, s.callers[c].device, s.callers[c].pc);
    case _ =>
  }

  lemma {:induction false} SyncedStays(s: State, more: seq<Event>, dir: Dir)
    requires Exec(s, more).Some? && dir in s.world.prepared && PreparedEntry(dir) in s.world.synced
    ensures var v := Exec(s, more).value.world;
      dir in v.prepared && v.prepared[dir] == s.world.prepared[dir] && PreparedEntry(dir) in v.synced
    decreases |more|
  {
    if more != [] {
      var front := more[..|more| - 1];
      SyncedStays(s, front, dir);
      StepKeepsSynced(Exec(s, front).value, more[|more| - 1], dir);
    }
  }

  /** The key of a proposal is drawn together with its operation. */
  predicate KeyOf(p: Proposal) { p.key == p.op + 1 }

  /** A copy in `g` of the key that `dir` proposes was made by a commit of `dir`. */
  predicate MadeFor(w: World, g: Dir, dir: Dir)
    requires g in w.keys && dir in w.prepared
  {
    w.keys[g] == w.prepared[dir].key ==> g in w.parents && w.parents[g] == dir
  }

  /** A generation's entry is never durable before the proposal of its parent. */
  predicate EntryOk(w: World, g: Dir) {
    GenerationEntry(g) in w.synced ==> g < w.unused && (g in w.parents ==> PreparedEntry(w.parents[g]) in w.synced)
  }

  /** What holds of keys over any run, power failures included. */
  ghost predicate CopiesOk(w: World) {
    && (forall d :: d in w.prepared ==> KeyOf(w.prepared[d]) && w.prepared[d].key < w.unused)
    && (forall i, j :: i in w.prepared && j in w.prepared && w.prepared[i].op == w.prepared[j].op ==> i == j)
    && (forall g :: g in w.keys ==> w.keys[g] < w.unused)
    && (forall g, d :: g in w.keys && d in w.prepared ==> MadeFor(w, g, d))
    && (forall g :: g in w.parents ==> g < w.unused)
    && (forall g :: EntryOk(w, g))
  }

  predicate Fresh(w: World, p: Proposal) {
    && KeyOf(p) && p.key < w.unused
    && (forall d :: d in w.prepared ==> w.prepared[d].op != p.op)
    && (forall g :: g in w.keys ==> w.keys[g] != p.key)
  }

  /** What a call knows of the key it has drawn, adopted or copies. */
  predicate CopyingOk(w: World, pc: Pc) {
    && (pc.LinkingPrepared? ==> Fresh(w, pc.proposal))
    && (InCommit(pc) ==> pc.commit.generation in w.parents && w.parents[pc.commit.generation] == pc.commit.dir)
    && (ProposalOf(pc).Some? ==> ProposalOf(pc).value.0 in w.prepared && w.prepared[ProposalOf(pc).value.0] == ProposalOf(pc).value.1)
    && (WithRecord(pc) || pc.SyncingPrepared? ==> pc.dir in w.prepared)
  }

  ghost predicate KeysOk(s: State) {
    && CopiesOk(s.world)
    && (forall c :: c in s.callers ==> CopyingOk(s.world, s.callers[c].pc))
    && (forall i, j :: i in s.callers && j in s.callers && i != j ==> Owned(s.callers[i].pc) !! Owned(s.callers[j].pc))
  }

  /** The directory a call is about to force to disk. */
  function Forcing(pc: Pc): Option<Dir> {
    match pc
    case SyncingPrepared(dir) => Some(dir)
    case SyncingPointer(k) => Some(k.dir)
    case SyncingSelection(dir, _, _) => Some(dir)
    case _ => None
  }

  lemma ForcedIsPrepared(w: World, pc: Pc)
    requires CopyingOk(w, pc) && Forcing(pc).Some?
    ensures Forcing(pc).value in w.prepared
  {
  }

  lemma SyncCopies(w: World, dir: Dir)
    requires CopiesOk(w) && dir in w.prepared
    ensures CopiesOk(Sync(w, dir))
  {
    var v := Sync(w, dir);
    forall g ensures EntryOk(v, g) { assert EntryOk(w, g); }
    forall g, d | g in v.keys && d in v.prepared ensures MadeFor(v, g, d) { assert MadeFor(w, g, d); }
  }

  lemma DrawnCopies(w: World, v: World)
    requires CopiesOk(w) && v == w.(unused := v.unused) && w.unused <= v.unused
    ensures CopiesOk(v)
  {
    forall g ensures EntryOk(v, g) { assert EntryOk(w, g); }
    forall g, d | g in v.keys && d in v.prepared ensures MadeFor(v, g, d) { assert MadeFor(w, g, d); }
  }

  lemma LinkedCopies(w: World, dir: Dir, p: Proposal)
    requires CopiesOk(w) && dir !in w.prepared && Fresh(w, p)
    ensures CopiesOk(w.(prepared := w.prepared[dir := p]))
  {
    var v := w.(prepared := w.prepared[dir := p]);
    forall g ensures EntryOk(v, g) { assert EntryOk(w, g); }
    forall g, d | g in v.keys && d in v.prepared ensures MadeFor(v, g, d) {
      if d != dir { assert MadeFor(w, g, d); }
    }
  }

  lemma BegunCopies(w: World, dir: Dir)
    requires CopiesOk(w)
    ensures CopiesOk(w.(parents := w.parents[w.unused := dir], unused := w.unused + 1))
  {
    var v := w.(parents := w.parents[w.unused := dir], unused := w.unused + 1);
    forall g ensures EntryOk(v, g) { assert EntryOk(w, g); }
    forall g, d | g in v.keys && d in v.prepared ensures MadeFor(v, g, d) { assert MadeFor(w, g, d); }
  }

  lemma WrittenCopies(w: World, k: Commit)
    requires CopiesOk(w) && CopyingOk(w, WritingKey(k))
    ensures CopiesOk(w.(keys := w.keys[k.generation := k.proposal.key]))
  {
    var v := w.(keys := w.keys[k.generation := k.proposal.key]);
    forall g ensures EntryOk(v, g) { assert EntryOk(w, g); }
    forall g, d | g in v.keys && d in v.prepared ensures MadeFor(v, g, d) {
      if g != k.generation { assert MadeFor(w, g, d); }
    }
  }

  lemma RemovedCopies(w: World, generation: Dir)
    requires CopiesOk(w)
    ensures CopiesOk(Remove(w, generation))
  {
    var v := Remove(w, generation);
    forall g ensures EntryOk(v, g) { assert EntryOk(w, g); }
    forall g, d | g in v.keys && d in v.prepared ensures MadeFor(v, g, d) { assert MadeFor(w, g, d); }
  }

  lemma OutageCopies(w: World, lost: set<Entry>)
    requires CopiesOk(w)
    ensures CopiesOk(Outage(w, lost))
  {
    var v := Outage(w, lost);
    forall g ensures EntryOk(v, g) { assert EntryOk(w, g); }
    forall g, d | g in v.keys && d in v.prepared ensures MadeFor(v, g, d) { assert MadeFor(w, g, d); }
  }

  /** Nothing about keys changes. */
  predicate SameCopies(w: World, v: World) {
    v == w.(pointers := v.pointers, selected := v.selected, named := v.named, certificates := v.certificates,
            ops := v.ops, active := v.active, serial := v.serial)
  }

  lemma UntouchedCopies(w: World, v: World)
    requires CopiesOk(w) && SameCopies(w, v)
    ensures CopiesOk(v) && forall pc :: CopyingOk(w, pc) ==> CopyingOk(v, pc)
  {
    forall g ensures EntryOk(v, g) { assert EntryOk(w, g); }
    forall g, d | g in v.keys && d in v.prepared ensures MadeFor(v, g, d) { assert MadeFor(w, g, d); }
  }

  lemma CommitStepCopies(w: World, pc: Pc)
    requires CopiesOk(w) && CopyingOk(w, pc) && InCommit(pc) && !pc.SyncingPointer?
    ensures CopiesOk(CommitStep(w, pc).0)
  {
    if pc.WritingKey? { WrittenCopies(w, pc.commit); }
    else if pc.Cleaning? { RemovedCopies(w, pc.commit.generation); }
    else { UntouchedCopies(w, CommitStep(w, pc).0); }
  }

  lemma StagedCopies(w: World, dir: Dir, p: Proposal, cert: Cert)
    requires CopiesOk(w)
    ensures CopiesOk(StageStep(w, dir, p, cert).0)
  {
    BegunCopies(w, dir);
  }

  lemma PreparedCopies(w: World, device: Dir, pc: Pc)
    requires CopiesOk(w) && CopyingOk(w, pc) && (pc.Preparing? || pc.LinkingPrepared?)
    ensures CopiesOk(Next(w, device, pc).value.0)
  {
    if pc.Preparing? { DrawnCopies(w, PrepareStep(w, pc.dir).0); }
    else if pc.dir !in w.prepared { LinkedCopies(w, pc.dir, pc.proposal); }
  }

  lemma ElsewhereUntouched(w: World, device: Dir, pc: Pc)
    requires Next(w, device, pc).Some? && !InCommit(pc) && Forcing(pc).None?
    requires !pc.Preparing? && !pc.LinkingPrepared? && !pc.Staging?
    ensures SameCopies(w, Next(w, device, pc).value.0)
  {
  }

  lemma ForcingSyncs(w: World, device: Dir, pc: Pc)
    requires Forcing(pc).Some?
    ensures Next(w, device, pc).Some? && Next(w, device, pc).value.0 == Sync(w, Forcing(pc).value)
  {
  }

  lemma NextCopies(w: World, device: Dir, pc: Pc)
    requires CopiesOk(w) && CopyingOk(w, pc) && Next(w, device, pc).Some?
    ensures CopiesOk(Next(w, device, pc).value.0)
  {
    if Forcing(pc).Some? {
      ForcedIsPrepared(w, pc);
      ForcingSyncs(w, device, pc);
      SyncCopies(w, Forcing(pc).value);
    }
    else if InCommit(pc) { CommitStepCopies(w, pc); }
    else if pc.Preparing? || pc.LinkingPrepared? { PreparedCopies(w, device, pc); }
    else if pc.Staging? { StagedCopies(w, pc.dir, pc.proposal, pc.cert); }
    else {
      ElsewhereUntouched(w, device, pc);
      UntouchedCopies(w, Next(w, device, pc).value.0);
    }
  }

  lemma CommitFiles(w: World, pc: Pc)
    requires InCommit(pc)
    ensures var (v, next) := CommitStep(w, pc);
      && v.prepared == w.prepared && (!pc.Cleaning? ==> v.parents == w.parents)
      && (ProposalOf(next) == ProposalOf(pc) || next.Failed?) && (InCommit(next) ==> !pc.Cleaning? && next.commit == pc.commit)
  {
  }

  lemma CommitCopying(w: World, pc: Pc)
    requires CopyingOk(w, pc) && InCommit(pc)
    ensures var (v, next) := CommitStep(w, pc); CopyingOk(v, next)
  {
    CommitFiles(w, pc);
  }

  lemma DrawnCopying(w: World, dir: Dir)
    requires CopiesOk(w)
    ensures var (v, next) := PrepareStep(w, dir); CopyingOk(v, next)
  {
  }

  lemma NextCopying(w: World, device: Dir, pc: Pc)
    requires CopiesOk(w) && CopyingOk(w, pc) && Next(w, device, pc).Some?
    ensures var (v, next) := Next(w, device, pc).value; CopyingOk(v, next)
  {
    if InCommit(pc) { CommitCopying(w, pc); }
    else if pc.Preparing? { DrawnCopying(w, pc.dir); }
    else if pc.Staging? { StagedCopying(w, pc.dir, pc.proposal, pc.cert); }
    else if WithRecord(pc) { RecordCopying(w, device, pc); }
    else if pc.Loading? || pc.Reconciling? || pc.Checking? { ReadCopying(w, device, pc); }
    else { OtherwiseCopying(w, device, pc); }
  }

  lemma StagedCopying(w: World, dir: Dir, p: Proposal, cert: Cert)
    requires CopyingOk(w, Staging(dir, p, cert))
    ensures var (v, next) := StageStep(w, dir, p, cert); CopyingOk(v, next)
  {
  }

  lemma RecordCopying(w: World, device: Dir, pc: Pc)
    requires CopyingOk(w, pc) && Next(w, device, pc).Some? && WithRecord(pc)
    ensures var (v, next) := Next(w, device, pc).value; CopyingOk(v, next)
  {
  }

  lemma ReadCopying(w: World, device: Dir, pc: Pc)
    requires CopyingOk(w, pc) && Next(w, device, pc).Some? && (pc.Loading? || pc.Reconciling? || pc.Checking?)
    ensures var (v, next) := Next(w, device, pc).value; CopyingOk(v, next)
  {
  }

  lemma OtherwiseCopying(w: World, device: Dir, pc: Pc)
    requires CopyingOk(w, pc) && Next(w, device, pc).Some?
    requires pc.LinkingPrepared? || pc.SyncingPrepared? || pc.Posting? || pc.Polling? || pc.Confirming?
    ensures var (v, next) := Next(w, device, pc).value; CopyingOk(v, next)
  {
  }

  /** A step takes no generation from another call and changes no proposal. */
  lemma OtherFiles(w: World, device: Dir, pc: Pc)
    requires Next(w, device, pc).Some?
    ensures var v := Next(w, device, pc).value.0;
      && w.unused <= v.unused
      && (forall d :: d in w.prepared ==> d in v.prepared && v.prepared[d] == w.prepared[d])
      && (forall g :: g in w.parents && g !in Owned(pc) && g < w.unused ==> g in v.parents && v.parents[g] == w.parents[g])
  {
    NextKeepsSynced(w, device, pc);
    OtherParents(w, device, pc);
  }

  lemma OtherParents(w: World, device: Dir, pc: Pc)
    requires Next(w, device, pc).Some?
    ensures var v := Next(w, device, pc).value.0;
      w.unused <= v.unused && if pc.Cleaning? then v.parents == w.parents || v.parents == w.parents - {pc.commit.generation}
                              else v.parents == w.parents || (pc.Staging? && v.parents == w.parents[w.unused := pc.dir])
  {
  }

  /** The only key a step writes is the one of its commit, and the only proposal its own. */
  lemma NewKeys(w: World, device: Dir, pc: Pc)
    requires Next(w, device, pc).Some?
    ensures var v := Next(w, device, pc).value.0;
      && (forall g :: g in v.keys ==> (g in w.keys && v.keys[g] == w.keys[g]) || (pc.WritingKey? && v.keys[g] == pc.commit.proposal.key))
      && (forall d :: d in v.prepared ==> (d in w.prepared && v.prepared[d] == w.prepared[d]) || (pc.LinkingPrepared? && v.prepared[d] == pc.proposal))
  {
  }

  lemma OtherFresh(w: World, device: Dir, pc: Pc, p: Proposal)
    requires CopiesOk(w) && CopyingOk(w, pc) && Next(w, device, pc).Some? && Fresh(w, p) && p.op !in Owned(pc)
    ensures Fresh(Next(w, device, pc).value.0, p)
  {
    NewKeys(w, device, pc);
    OtherFiles(w, device, pc);
  }

  lemma OtherCopying(w: World, device: Dir, pc: Pc, other: Pc)
    requires CopiesOk(w) && CopyingOk(w, pc) && Next(w, device, pc).Some? && CopyingOk(w, other) && Owned(pc) !! Owned(other)
    ensures CopyingOk(Next(w, device, pc).value.0, other)
  {
    OtherFiles(w, device, pc);
    if other.LinkingPrepared? { OtherFresh(w, device, pc, other.proposal); }
    if InCommit(other) { assert other.commit.generation in Owned(other); }
  }

  lemma NextOwns(w: World, device: Dir, pc: Pc)
    requires Next(w, device, pc).Some?
    ensures OwnsNoMore(w, pc, Next(w, device, pc).value.1)
  {
  }

  lemma OwnedAreDrawn(w: World, pc: Pc)
    requires CopiesOk(w) && CopyingOk(w, pc)
    ensures forall n :: n in Owned(pc) ==> n < w.unused
  {
  }

  lemma AdvanceKeepsKeys(s: State, c: nat)
    requires KeysOk(s) && Step(s, Advance(c)).Some?
    ensures KeysOk(Step(s, Advance(c)).value)
  {
    var w, device, pc := s.world, s.callers[c].device, s.callers[c].pc;
    var t := Step(s, Advance(c)).value;
    NextCopies(w, device, pc);
    NextOwns(w, device, pc);
    forall d | d in t.callers ensures CopyingOk(t.world, t.callers[d].pc) {
      if d == c { NextCopying(w, device, pc); } else { OtherCopying(w, device, pc, s.callers[d].pc); }
    }
    forall i, j | i in t.callers && j in t.callers && i != j ensures Owned(t.callers[i].pc) !! Owned(t.callers[j].pc) {
      if i != c { OwnedAreDrawn(w, s.callers[i].pc); }
      if j != c { OwnedAreDrawn(w, s.callers[j].pc); }
    }
  }

  lemma LostUntouched(w: World, pc: Pc)
    requires Lost(w, pc).Some?
    ensures var (v, next) := Lost(w, pc).value; SameCopies(w, v) && Owned(next) == {} && (CopyingOk(w, pc) ==> CopyingOk(w, next))
  {
  }

  lemma RaisedCopying(w: World, pc: Pc)
    requires CopyingOk(w, pc) && Raised(pc).Some?
    ensures CopyingOk(w, Raised(pc).value) && Owned(Raised(pc).value) <= Owned(pc)
  {
  }

  lemma LostKeepsKeys(s: State, c: nat)
    requires KeysOk(s) && Step(s, ReplyLost(c)).Some?
    ensures KeysOk(Step(s, ReplyLost(c)).value)
  {
    LostUntouched(s.world, s.callers[c].pc);
    UntouchedCopies(s.world, Step(s, ReplyLost(c)).value.world);
  }

  /** Every step keeps what holds of keys, and a power failure does too. */
  lemma StepKeepsKeys(s: State, e: Event)
    requires KeysOk(s) && Step(s, e).Some?
    ensures KeysOk(Step(s, e).value)
  {
    match e
    case Advance(c) => AdvanceKeepsKeys(s, c);
    case ReplyLost(c) => LostKeepsKeys(s, c);
    case Raises(c) => RaisedCopying(s.world, s.callers[c].pc);
    case Issue(_) => UntouchedCopies(s.world, Step(s, e).value.world);
    case PowerLoss(lost) => OutageCopies(s.world, lost);
    case _ =>
  }

  // ------------------------------------------------- keys and power failures

  /** Step `k` of the run forces `dir` to disk. */
  ghost predicate Forces(schedule: seq<Event>, k: nat, dir: Dir) {
    && k < |schedule| && schedule[k].Advance? && Exec(START, schedule[..k]).Some?
    && var s := Exec(START, schedule[..k]).value;
    schedule[k].c in s.callers && Forcing(s.callers[schedule[k].c].pc) == Some(dir)
  }

  /** Over any run, power failures included, a proposal is durable exactly from the first step
      on that forces its directory. */
  lemma {:induction false} DurableIffForced(schedule: seq<Event>, dir: Dir)
    requires Exec(START, schedule).Some?
    ensures KeysOk(Exec(START, schedule).value)
    ensures PreparedEntry(dir) in Exec(START, schedule).value.world.synced <==> exists k: nat :: Forces(schedule, k, dir)
    decreases |schedule|
  {
    if schedule == [] {
      assert forall g :: EntryOk(Enrolled(), g);
    } else {
      var front, e := schedule[..|schedule| - 1], schedule[|schedule| - 1];
      DurableIffForced(front, dir);
      var s := Exec(START, front).value;
      StepKeepsKeys(s, e);
      ForcesInFront(schedule, dir);
      StepForces(s, e, dir);
    }
  }

  /** A run forces `dir` if an earlier part of it does, or its last step. */
  lemma ForcesInFront(schedule: seq<Event>, dir: Dir)
    requires schedule != []
    ensures var front := schedule[..|schedule| - 1];
      (exists k: nat :: Forces(schedule, k, dir)) <==> (exists k: nat :: Forces(front, k, dir)) || Forces(schedule, |front|, dir)
  {
    var front := schedule[..|schedule| - 1];
    assert forall k: nat :: k <= |front| ==> schedule[..k] == front[..k];
    assert forall k: nat :: k < |front| ==> Forces(schedule, k, dir) == Forces(front, k, dir);
  }

  lemma NotForcing(w: World, device: Dir, pc: Pc)
    requires Next(w, device, pc).Some? && Forcing(pc).None?
    ensures Next(w, device, pc).value.0.synced == w.synced
  {
  }

  lemma NextForces(w: World, device: Dir, pc: Pc, dir: Dir)
    requires (Forcing(pc).Some? ==> Forcing(pc).value in w.prepared) && Next(w, device, pc).Some?
    ensures PreparedEntry(dir) in Next(w, device, pc).value.0.synced <==> PreparedEntry(dir) in w.synced || Forcing(pc) == Some(dir)
  {
    if Forcing(pc).Some? { ForcingSyncs(w, device, pc); } else { NotForcing(w, device, pc); }
  }

  lemma StepForces(s: State, e: Event, dir: Dir)
    requires KeysOk(s) && Step(s, e).Some?
    ensures PreparedEntry(dir) in Step(s, e).value.world.synced <==>
      PreparedEntry(dir) in s.world.synced || (e.Advance? && Forcing(s.callers[e.c].pc) == Some(dir))
  {
    match e
    case Advance(c) =>
      if Forcing(s.callers[c].pc).Some? { ForcedIsPrepared(s.world, s.callers[c].pc); }
      NextForces(s.world, s.callers[c].device, s.callers[c].pc, dir);
    case ReplyLost(c) => LostUntouched(s.world, s.callers[c].pc);
    case _ =>
  }

  /** The key of the operation lies in a retained proposal or in some generation. */
  ghost predicate KeyHeld(w: World, op: nat, key: nat) {
    (exists d :: Retains(w, d, op, key)) || (exists g :: g in w.keys && w.keys[g] == key)
  }

  /** The operation's private key is still on disk, whatever happens next. */
  ghost predicate SurvivesAll(s: State, op: nat) {
    op in s.world.ops && forall more :: Exec(s, more).Some? ==> KeyHeld(Exec(s, more).value.world, op, s.world.ops[op].key)
  }

  /** What a power failure can take while the proposal of `dir` was never forced to disk. */
  function Exposed(w: World, dir: Dir): set<Entry> {
    {PreparedEntry(dir)} + set g | g in w.parents && w.parents[g] == dir :: GenerationEntry(g)
  }

  lemma ExposedAreLost(w: World, op: nat, dir: Dir)
    requires CopiesOk(w) && op in w.ops && Retains(w, dir, op, w.ops[op].key) && PreparedEntry(dir) !in w.synced
    ensures Exposed(w, dir) !! w.synced && !KeyHeld(Outage(w, Exposed(w, dir)), op, w.ops[op].key)
  {
    var v, key := Outage(w, Exposed(w, dir)), w.ops[op].key;
    forall g | g in w.parents && w.parents[g] == dir ensures GenerationEntry(g) !in w.synced { assert EntryOk(w, g); }
    forall d ensures !Retains(v, d, op, key) {
      assert d in v.prepared ==> d in w.prepared && d != dir;
    }
    forall g | g in v.keys ensures v.keys[g] != key {
      assert g in w.keys && v.keys[g] == w.keys[g] && MadeFor(w, g, dir);
    }
  }

  lemma PowerLossExec(s: State, lost: set<Entry>)
    requires lost !! s.world.synced
    ensures Exec(s, [PowerLoss(lost)]) == Some(State(Outage(s.world, lost), map[]))
  {
    assert [PowerLoss(lost)][..0] == [];
  }

  /** After any run, earlier power failures included, the retained key of an operation the
      service knows survives every future, in the proposal or in a generation, if and only if
      some call that linked the proposal, a generation pointer or a selection in its directory
      went on to force it. */
  lemma KeySurvivesIffForced(schedule: seq<Event>, s: State, op: nat, dir: Dir)
    requires Exec(START, schedule) == Some(s)
    requires op in s.world.ops && Retains(s.world, dir, op, s.world.ops[op].key)
    ensures SurvivesAll(s, op) <==> exists k: nat :: Forces(schedule, k, dir)
  {
    DurableIffForced(schedule, dir);
    if PreparedEntry(dir) in s.world.synced {
      DurableKeySurvives(s, op, dir);
    } else {
      ExposedAreLost(s.world, op, dir);
      PowerLossExec(s, Exposed(s.world, dir));
    }
  }

  lemma DurableKeySurvives(s: State, op: nat, dir: Dir)
    requires op in s.world.ops && Retains(s.world, dir, op, s.world.ops[op].key) && PreparedEntry(dir) in s.world.synced
    ensures SurvivesAll(s, op)
  {
    forall more | Exec(s, more).Some? ensures KeyHeld(Exec(s, more).value.world, op, s.world.ops[op].key) {
      SyncedStays(s, more, dir);
      assert Retains(Exec(s, more).value.world, dir, op, s.world.ops[op].key);
    }
  }

  // ------------------------------------------------------- who links, forces

  /** No event kills call `c`. */
  ghost predicate Spares(more: seq<Event>, c: nat) {
    forall i :: 0 <= i < |more| ==> !more[i].PowerLoss? && more[i] != Killed(c)
  }

  /** A call that linked its proposal has forced it, is about to, or has failed. */
  predicate Secures(s: State, c: nat, dir: Dir, p: Proposal) {
    && dir in s.world.prepared && s.world.prepared[dir] == p && c in s.callers
    && (PreparedEntry(dir) in s.world.synced || s.callers[c].pc == SyncingPrepared(dir) || s.callers[c].pc.Failed?)
  }

  lemma NextSecures(w: World, device: Dir, pc: Pc, dir: Dir)
    requires dir in w.prepared && Next(w, device, pc).Some?
    ensures var v := Next(w, device, pc).value.0; dir in v.prepared && v.prepared[dir] == w.prepared[dir] && w.synced <= v.synced
    ensures pc == SyncingPrepared(dir) ==> PreparedEntry(dir) in Next(w, device, pc).value.0.synced
  {
  }

  lemma StepSecures(s: State, e: Event, c: nat, dir: Dir, p: Proposal)
    requires Secures(s, c, dir, p) && Step(s, e).Some? && !e.PowerLoss? && e != Killed(c)
    ensures Secures(Step(s, e).value, c, dir, p)
  {
    match e
    case Advance(d) => NextSecures(s.world, s.callers[d].device, s.callers[d].pc, dir);
    case _ =>
  }

  lemma {:induction false} RunSecures(s: State, more: seq<Event>, c: nat, dir: Dir, p: Proposal)
    requires Secures(s, c, dir, p) && Exec(s, more).Some? && Spares(more, c)
    ensures Secures(Exec(s, more).value, c, dir, p)
    decreases |more|
  {
    if more != [] {
      var front := more[..|more| - 1];
      RunSecures(s, front, c, dir, p);
      StepSecures(Exec(s, front).value, more[|more| - 1], c, dir, p);
    }
  }

  /** A call that finds no proposal when it links its own forces it before it goes on: once
      it does anything else and has not failed, as when it posts the operation for the first
      time, the key survives every future in that proposal, power failures included. */
  lemma LinkedKeySurvives(s: State, c: nat, dir: Dir, p: Proposal, linked: State, more: seq<Event>, t: State, later: seq<Event>)
    requires c in s.callers && s.callers[c].pc == LinkingPrepared(dir, p) && dir !in s.world.prepared
    requires Step(s, Advance(c)) == Some(linked) && Spares(more, c) && Exec(linked, more) == Some(t)
    requires c in t.callers && t.callers[c].pc != SyncingPrepared(dir) && !t.callers[c].pc.Failed?
    requires Exec(t, later).Some?
    ensures Retains(Exec(t, later).value.world, dir, p.op, p.key)
  {
    RunSecures(linked, more, c, dir, p);
    SyncedStays(t, later, dir);
  }

  lemma ReachableStep(s: State, e: Event)
    requires Reachable(s) && Step(s, e).Some? && !e.PowerLoss?
    ensures Reachable(Step(s, e).value)
  {
    var schedule :| Uninterrupted(schedule) && Exec(START, schedule) == Some(s);
    assert (schedule + [e])[..|schedule|] == schedule;
    assert Exec(START, schedule + [e]) == Step(s, e);
    assert Uninterrupted(schedule + [e]);
  }

  function Alone(w: World, pc: Pc): State { State(w, map[0 := Caller(ROOT, pc)]) }

  lemma AloneStep(w: World, pc: Pc)
    requires Reachable(Alone(w, pc)) && Next(w, ROOT, pc).Some?
    ensures var (v, next) := Next(w, ROOT, pc).value; Reachable(Alone(v, next))
  {
    var (v, next) := Next(w, ROOT, pc).value;
    ReachableStep(Alone(w, pc), Advance(0));
    assert map[0 := Caller(ROOT, pc)][0 := Caller(ROOT, next)] == map[0 := Caller(ROOT, next)];
  }

  lemma ReachesPreparing(w: World)
    requires Reachable(State(w, map[])) && w.selected == map[] && w.pointers == map[] && Material(w, ROOT) && ROOT in w.named
    ensures Reachable(Alone(w, Preparing(ROOT)))
  {
    ReachableStep(State(w, map[]), Start(0, ROOT));
    assert map[][0 := Caller(ROOT, Loading(false, ROOT, 0))] == map[0 := Caller(ROOT, Loading(false, ROOT, 0))];
    AloneStep(w, Loading(false, ROOT, 0));
    AloneStep(w, Reconciling(ROOT));
    AloneStep(w, Loading(true, ROOT, 0));
  }

  const PROPOSAL := Proposal(1, 2)
  const ISSUED := Cert(2, 1)
  const RECORD := Record(1, ROOT_CERT, 2, ISSUED, 3)

  /** The proposal a killed call has linked, before and after the service takes it. */
  function Adopted(): World { Enrolled().(unused := 3, prepared := map[ROOT := PROPOSAL]) }

  function Served(status: Status): World {
    Adopted().(ops := map[1 := Operation(2, ROOT_CERT, status)], serial := if status.Pending? then 1 else 2)
  }

  /** Then another call's generation and pointer, of which nothing was forced. */
  function WithPointer(status: Status): World {
    Served(status).(unused := 4, parents := map[3 := ROOT], certificates := map[ROOT := ROOT_CERT, 3 := ISSUED],
      keys := map[ROOT := 0, 3 := 2], pointers := map[Slot(ROOT, 1) := RECORD], named := {ROOT, 3})
  }

  /** One call is killed between linking its proposal and forcing it. */
  lemma ReachesAdopted()
    ensures Reachable(State(Adopted(), map[]))
  {
    var w0 := Enrolled();
    assert Uninterrupted([]) && Exec(START, []) == Some(START);
    ReachesPreparing(w0);
    AloneStep(w0, Preparing(ROOT));
    var w1 := w0.(unused := 3);
    AloneStep(w1, LinkingPrepared(ROOT, PROPOSAL));
    assert w1.prepared[ROOT := PROPOSAL] == map[ROOT := PROPOSAL];
    Kills(Adopted(), SyncingPrepared(ROOT));
  }

  lemma Kills(w: World, pc: Pc)
    requires Reachable(Alone(w, pc))
    ensures Reachable(State(w, map[]))
  {
    ReachableStep(Alone(w, pc), Killed(0));
    assert map[0 := Caller(ROOT, pc)] - {0} == map[];
  }

  /** The next call adopts and posts the proposal, and the service issues a certificate. */
  lemma ReachesServed()
    ensures Reachable(Alone(Served(Issued(ISSUED)), Polling(ROOT, PROPOSAL)))
  {
    ReachesAdopted();
    ReachesPreparing(Adopted());
    AloneStep(Adopted(), Preparing(ROOT));
    AloneStep(Adopted(), Posting(ROOT, PROPOSAL));
    assert Post(Adopted(), ROOT, PROPOSAL) == Served(Pending);
    ReachableStep(Alone(Served(Pending), Polling(ROOT, PROPOSAL)), Issue(1));
    assert map[1 := Operation(2, ROOT_CERT, Pending)][1 := Operation(2, ROOT_CERT, Issued(ISSUED))] == map[1 := Operation(2, ROOT_CERT, Issued(ISSUED))];
  }

  const COMMIT := Commit(ROOT, ROOT_CERT, PROPOSAL, ISSUED, 3)

  /** It stages the certificate in a generation of its own. */
  function Staged(certificates: map<Dir, Cert>, keys: map<Dir, nat>): World {
    Served(Issued(ISSUED)).(unused := 4, parents := map[3 := ROOT], certificates := certificates, keys := keys)
  }

  lemma ReachesWriting()
    ensures Reachable(Alone(Staged(map[ROOT := ROOT_CERT], map[ROOT := 0]), WritingCertificate(COMMIT)))
  {
    ReachesServed();
    AloneStep(Served(Issued(ISSUED)), Polling(ROOT, PROPOSAL));
    AloneStep(Served(Issued(ISSUED)), Staging(ROOT, PROPOSAL, ISSUED));
    assert Served(Issued(ISSUED)).parents[3 := ROOT] == map[3 := ROOT];
  }

  lemma ReachesWritten()
    ensures Reachable(Alone(Staged(map[ROOT := ROOT_CERT, 3 := ISSUED], map[ROOT := 0, 3 := 2]), LinkingPointer(COMMIT)))
  {
    ReachesWriting();
    var first, both, keys := map[ROOT := ROOT_CERT], map[ROOT := ROOT_CERT, 3 := ISSUED], map[ROOT := 0, 3 := 2];
    assert first[3 := ISSUED] == both && map[ROOT := 0][3 := 2] == keys;
    AloneStep(Staged(first, map[ROOT := 0]), WritingCertificate(COMMIT));
    AloneStep(Staged(both, map[ROOT := 0]), WritingKey(COMMIT));
  }

  /** It is killed between linking the pointer and forcing it. */
  lemma ReachesCommitted()
    ensures Reachable(State(WithPointer(Issued(ISSUED)), map[]))
  {
    ReachesWritten();
    var w := Staged(map[ROOT := ROOT_CERT, 3 := ISSUED], map[ROOT := 0, 3 := 2]);
    assert LinkPointer(w, COMMIT) == WithPointer(Issued(ISSUED)) by {
      assert w.pointers[Slot(ROOT, 1) := RECORD] == map[Slot(ROOT, 1) := RECORD] && w.named + {3} == {ROOT, 3};
    }
    AloneStep(w, LinkingPointer(COMMIT));
    Kills(WithPointer(Issued(ISSUED)), SyncingPointer(COMMIT));
  }

  /** A third call finds the candidate, which is not activated, and adopts the proposal. */
  lemma ReachesReconciling()
    ensures Reachable(Alone(WithPointer(Issued(ISSUED)), Reconciling(ROOT)))
  {
    ReachesCommitted();
    var w := WithPointer(Issued(ISSUED));
    ReachableStep(State(w, map[]), Start(0, ROOT));
    assert map[][0 := Caller(ROOT, Loading(false, ROOT, 0))] == map[0 := Caller(ROOT, Loading(false, ROOT, 0))];
    AloneStep(w, Loading(false, ROOT, 0));
  }

  lemma CandidateIsRead()
    ensures ReconcileStep(WithPointer(Issued(ISSUED)), ROOT) == Asking(ROOT, RECORD, Recovering)
  {
    assert PointersIn(WithPointer(Issued(ISSUED)), ROOT) == {Slot(ROOT, 1)};
  }

  lemma ReachesPosting()
    ensures Reachable(Alone(WithPointer(Issued(ISSUED)), Posting(ROOT, PROPOSAL)))
  {
    ReachesReconciling();
    CandidateIsRead();
    var w := WithPointer(Issued(ISSUED));
    AloneStep(w, Reconciling(ROOT));
    AloneStep(w, Asking(ROOT, RECORD, Recovering));
    AloneStep(w, Loading(true, ROOT, 0));
    AloneStep(w, Preparing(ROOT));
  }

  lemma ReachesStaging()
    ensures Reachable(Alone(WithPointer(Issued(ISSUED)), Staging(ROOT, PROPOSAL, ISSUED)))
  {
    ReachesPosting();
    var w := WithPointer(Issued(ISSUED));
    AloneStep(w, Posting(ROOT, PROPOSAL));
    AloneStep(w, Polling(ROOT, PROPOSAL));
  }

  /** It adopts the pointer as well. */
  lemma ReachesChecking()
    ensures Reachable(Alone(WithPointer(Issued(ISSUED)), Checking(ROOT, PROPOSAL, ISSUED)))
  {
    ReachesStaging();
    AloneStep(WithPointer(Issued(ISSUED)), Staging(ROOT, PROPOSAL, ISSUED));
  }

  lemma ReachesActivating()
    ensures Reachable(Alone(WithPointer(Issued(ISSUED)), Activating(ROOT, RECORD)))
  {
    ReachesChecking();
    var w := WithPointer(Issued(ISSUED));
    AloneStep(w, Checking(ROOT, PROPOSAL, ISSUED));
  }

  lemma ActivatesCandidate()
    ensures Activate(WithPointer(Issued(ISSUED)), RECORD) == WithPointer(Activated(ISSUED)).(active := ISSUED)
    ensures Receipt(WithPointer(Activated(ISSUED)).(active := ISSUED), RECORD)
  {
    assert WithPointer(Issued(ISSUED)).ops[1 := Operation(2, ROOT_CERT, Activated(ISSUED))] == map[1 := Operation(2, ROOT_CERT, Activated(ISSUED))];
  }

  lemma ReachesActivated()
    ensures Reachable(Alone(WithPointer(Activated(ISSUED)).(active := ISSUED), Selecting(ROOT, RECORD, FirstTry)))
  {
    ReachesActivating();
    ActivatesCandidate();
    AloneStep(WithPointer(Issued(ISSUED)), Activating(ROOT, RECORD));
  }

  lemma NothingForcedIsLost(s: State)
    requires s.world == WithPointer(Activated(ISSUED)).(active := ISSUED)
    ensures 1 in s.world.ops && !SurvivesAll(s, 1)
  {
    var lost := {PreparedEntry(ROOT), GenerationEntry(3)};
    PowerLossExec(s, lost);
    assert Outage(s.world, lost).prepared == map[];
    assert Outage(s.world, lost).keys == map[ROOT := 0];
    assert s.world.ops[1].key == 2;
  }

  /** Calls that adopt a retained proposal and a retained pointer force neither, so even the
      key of the certificate the service holds active can be lost: one call is killed after
      linking the proposal, one after linking the pointer, and the third activates. */
  lemma AdoptedKeyCanBeLost()
    ensures exists s, op :: Reachable(s) && op in s.world.ops && s.world.ops[op].status == Activated(s.world.active) && !SurvivesAll(s, op)
  {
    ReachesActivated();
    var s := Alone(WithPointer(Activated(ISSUED)).(active := ISSUED), Selecting(ROOT, RECORD, FirstTry));
    NothingForcedIsLost(s);
    assert Reachable(s) && 1 in s.world.ops && s.world.ops[1].status == Activated(s.world.active) && !SurvivesAll(s, 1);
  }
}
