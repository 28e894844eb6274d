/** What every run of concurrent, crashing renewals keeps, as long as the machine stays up.

    `WorldOk` ties the files to each other and to the service: a pointer names a complete
    generation for its directory's one proposal, a selection repeats a pointer whose operation
    was activated, and every operation of the service is a retained proposal. `Expected` says
    which certificate the service must hold active. `PcOk` is what a call knows at each of its
    steps, and `Owned` the names it has drawn and nobody else may touch.

    A step changes the world in one of two ways. `Quiet` steps touch only durability, names
    drawn and the files of an unnamed generation; `Grows` steps publish one name. Each kind
    keeps what other calls know, so a step of one call (`StepOk`) is checked on its own. */
module RenewalInvariant {
  import opened Outcomes
  import opened Renewal

  // ------------------------------------------------------------- invariant

  /** A directory of the selected chain. */
  predicate On(w: World, dir: Dir) { dir in w.named && Tail(w, dir) == Tail(w, ROOT) }

  predicate IssuedAs(w: World, op: nat, cert: Cert) {
    op in w.ops && (w.ops[op].status == Issued(cert) || w.ops[op].status == Activated(cert))
  }

  /** A named directory is complete. */
  predicate NamedOk(w: World, dir: Dir) {
    && dir in w.named && dir < w.unused
    && Material(w, dir) && w.keys[dir] < w.unused && w.certificates[dir].serial < w.serial
  }

  predicate PreparedOk(w: World, dir: Dir) {
    && dir in w.prepared && dir in w.named
    && w.prepared[dir].op < w.unused && w.prepared[dir].key < w.unused
    && dir in w.keys && w.prepared[dir].key != w.keys[dir]
  }

  /** A pointer names a complete generation for its directory's one proposal, holding the
      certificate the service issued for it. */
  predicate PointerOk(w: World, slot: Slot) {
    && slot in w.pointers
    && slot.dir in w.prepared && w.prepared[slot.dir] == Proposal(slot.op, w.pointers[slot].key)
    && w.pointers[slot].op == slot.op
    && ReadsGeneration(w, slot.dir, w.pointers[slot])
    && slot.dir < w.pointers[slot].generation < w.unused
    && IssuedAs(w, slot.op, w.pointers[slot].cert)
  }

  predicate SelectedOk(w: World, dir: Dir) {
    && dir in w.selected && dir in w.named
    && Slot(dir, w.selected[dir].op) in w.pointers && w.pointers[Slot(dir, w.selected[dir].op)] == w.selected[dir]
    && Receipt(w, w.selected[dir])
  }

  /** The service's operation is the proposal retained in `dir`. */
  predicate OperationOk(w: World, op: nat, dir: Dir) {
    && op in w.ops && dir in w.prepared && w.prepared[dir] == Proposal(op, w.ops[op].key)
    && dir in w.certificates && w.ops[op].parent == w.certificates[dir]
    && (w.ops[op].status.Activated? ==>
          Slot(dir, op) in w.pointers && w.pointers[Slot(dir, op)].cert == w.ops[op].status.cert)
    && (!w.ops[op].status.Pending? ==>
          w.ops[op].status.cert.key == w.ops[op].key
          && w.ops[op].parent.serial < w.ops[op].status.cert.serial < w.serial)
  }

  /** The certificate the service must hold active: the activated candidate at the end of
      the selected chain, else the end itself. */
  function Expected(w: World): Cert {
    var tail := Tail(w, ROOT);
    if tail in w.prepared && w.prepared[tail].op in w.ops && w.ops[w.prepared[tail].op].status.Activated?
    then w.ops[w.prepared[tail].op].status.cert
    else if tail in w.certificates then w.certificates[tail]
    else ROOT_CERT
  }

  /** Only directories of the chain have proposals and selections. */
  ghost predicate ChainOk(w: World) {
    forall dir {:trigger On(w, dir)} :: dir in w.prepared || dir in w.selected ==> On(w, dir)
  }

  ghost predicate FilesOk(w: World) {
    && (forall dir :: dir in w.prepared ==> PreparedOk(w, dir))
    && (forall i, j :: i in w.prepared && j in w.prepared && w.prepared[i].op == w.prepared[j].op ==> i == j)
    && (forall slot :: slot in w.pointers ==> PointerOk(w, slot))
    && (forall i, j :: i in w.pointers && j in w.pointers && w.pointers[i].generation == w.pointers[j].generation ==> i == j)
    && (forall dir :: dir in w.selected ==> SelectedOk(w, dir))
    && ChainOk(w)
    && ROOT in w.named && (forall dir :: dir in w.named ==> NamedOk(w, dir))
    && (forall slot :: slot in w.pointers ==> w.pointers[slot].generation in w.named)
  }

  ghost predicate OperationsOk(w: World) { forall op :: op in w.ops ==> exists dir :: OperationOk(w, op, dir) }

  ghost predicate WorldOk(w: World) {
    FilesOk(w) && OperationsOk(w) && w.active == Expected(w)
  }

  predicate Proposed(w: World, dir: Dir, p: Proposal) { On(w, dir) && dir in w.prepared && w.prepared[dir] == p }

  predicate Pointed(w: World, dir: Dir, r: Record) {
    On(w, dir) && Slot(dir, r.op) in w.pointers && w.pointers[Slot(dir, r.op)] == r
  }

  predicate CommitOk(w: World, k: Commit) {
    && Proposed(w, k.dir, k.proposal) && IssuedAs(w, k.proposal.op, k.cert) && k.cert.key == k.proposal.key
    && k.dir in w.certificates && k.parent == w.certificates[k.dir]
    && k.dir < k.generation < w.unused
  }

  predicate Unused(w: World, p: Proposal) {
    && p.op < w.unused && p.key < w.unused && p.op !in w.ops
    && (forall d :: d in w.prepared ==> w.prepared[d].op != p.op)
  }

  predicate Holds(w: World, dir: Dir, cert: Cert) { dir in w.certificates && w.certificates[dir] == cert }

  /** What a committing call knows of its generation. */
  predicate CommittingOk(w: World, pc: Pc)
    requires InCommit(pc)
  {
    var k := pc.commit;
    && CommitOk(w, k)
    && (pc.SyncingPointer? || (pc.Cleaning? && k.generation in w.named) ==> Committed(w, k))
    && (pc.WritingCertificate? || pc.WritingKey? || pc.LinkingPointer? ==> k.generation !in w.named)
    && (pc.WritingKey? || pc.LinkingPointer? ==> Holds(w, k.generation, k.cert))
    && (pc.LinkingPointer? ==> k.generation in w.keys && w.keys[k.generation] == k.proposal.key)
  }

  predicate InCommit(pc: Pc) {
    pc.WritingCertificate? || pc.WritingKey? || pc.LinkingPointer? || pc.SyncingPointer? || pc.Cleaning?
  }

  predicate WithRecord(pc: Pc) { pc.Asking? || pc.Selecting? || pc.SyncingSelection? || pc.Activating? }

  /** What a call knows at each of its steps. */
  predicate PcOk(w: World, pc: Pc) {
    if pc.Failed? then true
    else if InCommit(pc) then CommittingOk(w, pc)
    else if pc.Loading? then On(w, pc.cur) && pc.hops <= MAX_LOOKUPS
    else if WithRecord(pc) then
      && Pointed(w, pc.dir, pc.record)
      && (pc.Selecting? ==> Receipt(w, pc.record))
      && (pc.SyncingSelection? ==> pc.dir in w.selected && w.selected[pc.dir] == pc.record)
    else
      && On(w, pc.dir)
      && (pc.Posting? || pc.Polling? || pc.Staging? || pc.Checking? ==> Proposed(w, pc.dir, pc.proposal))
      && (pc.Staging? || pc.Checking? ==> IssuedAs(w, pc.proposal.op, pc.cert))
      && (pc.SyncingPrepared? ==> pc.dir in w.prepared)
      && (pc.LinkingPrepared? ==> Unused(w, pc.proposal) && pc.dir in w.keys && pc.proposal.key != w.keys[pc.dir])
  }

  /** The random names a call has drawn and not yet published, or may still remove. */
  function Owned(pc: Pc): set<nat> {
    if pc.LinkingPrepared? then {pc.proposal.op} else if InCommit(pc) then {pc.commit.generation} else {}
  }

  predicate CallersOk(w: World, callers: map<nat, Caller>) {
    && (forall c :: c in callers ==> On(w, callers[c].device) && PcOk(w, callers[c].pc))
    && (forall i, j :: i in callers && j in callers && i != j ==> Owned(callers[i].pc) !! Owned(callers[j].pc))
  }

  ghost predicate Inv(s: State) { WorldOk(s.world) && CallersOk(s.world, s.callers) }

  // ------------------------------------------------------------- the chain

  /** `Tail` depends on the selections only. */
  lemma {:induction false} SameTail(w: World, v: World, dir: Dir)
    requires FilesOk(w) && v.selected == w.selected && w.unused <= v.unused
    ensures Tail(v, dir) == Tail(w, dir)
    decreases w.unused - dir
  {
    if dir in w.selected {
      assert SelectedOk(w, dir) && PointerOk(w, Slot(dir, w.selected[dir].op));
      SameTail(w, v, w.selected[dir].generation);
    }
  }

  lemma SameOn(w: World, v: World, dir: Dir)
    requires FilesOk(w) && v.selected == w.selected && w.unused <= v.unused && w.named <= v.named && On(w, dir)
    ensures On(v, dir)
  {
    SameTail(w, v, dir);
    SameTail(w, v, ROOT);
  }

  /** Selecting at the end of the chain moves the end, and only there. */
  lemma {:induction false} TailAfterSelection(w: World, v: World, home: Dir, r: Record, dir: Dir)
    requires FilesOk(w) && v == w.(selected := w.selected[home := r]) && home !in w.selected
    requires home < r.generation < w.unused && r.generation !in w.selected
    ensures Tail(v, dir) == if Tail(w, dir) == home then r.generation else Tail(w, dir)
    decreases w.unused - dir
  {
    if dir == home {
      assert Tail(v, r.generation) == r.generation;
    } else if dir in w.selected {
      assert SelectedOk(w, dir) && PointerOk(w, Slot(dir, w.selected[dir].op));
      TailAfterSelection(w, v, home, r, w.selected[dir].generation);
    }
  }

  lemma {:induction false} TailIsLast(w: World, dir: Dir)
    requires FilesOk(w)
    ensures Tail(w, dir) !in w.selected
    decreases w.unused - dir
  {
    if dir in w.selected {
      assert SelectedOk(w, dir) && PointerOk(w, Slot(dir, w.selected[dir].op));
      TailIsLast(w, w.selected[dir].generation);
    }
  }

  lemma {:induction false} TailIsNamed(w: World, dir: Dir)
    requires FilesOk(w) && dir in w.named
    ensures Tail(w, dir) in w.named
    decreases w.unused - dir
  {
    if dir in w.selected {
      assert SelectedOk(w, dir) && PointerOk(w, Slot(dir, w.selected[dir].op));
      TailIsNamed(w, w.selected[dir].generation);
    }
  }

  /** Certificates along the chain are younger and younger. */
  lemma {:induction false} SerialsGrow(w: World, dir: Dir)
    requires WorldOk(w) && dir in w.named
    ensures Tail(w, dir) in w.certificates && dir in w.certificates
    ensures Tail(w, dir) == dir || w.certificates[dir].serial < w.certificates[Tail(w, dir)].serial
    decreases w.unused - dir
  {
    assert NamedOk(w, dir);
    if dir in w.selected {
      var r := w.selected[dir];
      assert SelectedOk(w, dir) && PointerOk(w, Slot(dir, r.op));
      var home :| OperationOk(w, r.op, home);
      assert home == dir;
      SerialsGrow(w, r.generation);
    }
  }

  /** Only the end of the chain can hold the active certificate, and then no candidate of
      its is activated. */
  lemma ActiveParent(w: World, dir: Dir)
    requires WorldOk(w) && On(w, dir) && dir in w.certificates && w.certificates[dir] == w.active
    ensures dir == Tail(w, ROOT)
    ensures dir in w.prepared && w.prepared[dir].op in w.ops ==> !w.ops[w.prepared[dir].op].status.Activated?
  {
    SerialsGrow(w, dir);
  }

  /** A chain directory without a selection is the end of the chain. */
  lemma Unselected(w: World, dir: Dir)
    requires On(w, dir) && dir !in w.selected
    ensures dir == Tail(w, ROOT)
  {
  }

  // ------------------------------------------------------------ disk steps

  /** `v` differs from `w` only in what lies in the unnamed directory `own`, in durability,
      and in names drawn. */
  ghost predicate Quiet(w: World, v: World, own: Dir) {
    && v == w.(parents := v.parents, certificates := v.certificates, keys := v.keys, synced := v.synced, unused := v.unused)
    && w.unused <= v.unused && own !in w.named
    && (forall d :: d != own ==> (d in v.certificates <==> d in w.certificates) && (d in v.keys <==> d in w.keys))
    && (forall d :: d != own && d in w.certificates ==> v.certificates[d] == w.certificates[d])
    && (forall d :: d != own && d in w.keys ==> v.keys[d] == w.keys[d])
  }

  lemma QuietReads(w: World, v: World, own: Dir, dir: Dir, r: Record)
    requires Quiet(w, v, own) && dir != own && r.generation != own && ReadsGeneration(w, dir, r)
    ensures ReadsGeneration(v, dir, r)
  {
  }

  lemma QuietPrepared(w: World, v: World, own: Dir, dir: Dir)
    requires FilesOk(w) && Quiet(w, v, own) && dir in w.prepared
    ensures PreparedOk(v, dir)
  {
    assert PreparedOk(w, dir);
  }

  lemma QuietPointer(w: World, v: World, own: Dir, slot: Slot)
    requires FilesOk(w) && Quiet(w, v, own) && slot in w.pointers
    ensures PointerOk(v, slot)
  {
    assert PointerOk(w, slot) && PreparedOk(w, slot.dir);
    QuietReads(w, v, own, slot.dir, w.pointers[slot]);
  }

  lemma QuietSelected(w: World, v: World, own: Dir, dir: Dir)
    requires FilesOk(w) && Quiet(w, v, own) && dir in w.selected
    ensures SelectedOk(v, dir)
  {
    assert SelectedOk(w, dir);
  }

  lemma QuietFiles(w: World, v: World, own: Dir)
    requires FilesOk(w) && Quiet(w, v, own)
    ensures FilesOk(v)
  {
    forall dir | dir in v.prepared ensures PreparedOk(v, dir) { QuietPrepared(w, v, own, dir); }
    forall slot | slot in v.pointers ensures PointerOk(v, slot) { QuietPointer(w, v, own, slot); }
    forall dir | dir in v.selected ensures SelectedOk(v, dir) { QuietSelected(w, v, own, dir); }
    forall dir | dir in v.prepared || dir in v.selected ensures On(v, dir) { SameOn(w, v, dir); }
    forall dir | dir in v.named ensures NamedOk(v, dir) { assert NamedOk(w, dir); }
  }

  lemma QuietOperation(w: World, v: World, own: Dir, op: nat, dir: Dir)
    requires Quiet(w, v, own) && OperationOk(w, op, dir) && dir in w.named
    ensures OperationOk(v, op, dir)
  {
  }

  lemma QuietExpected(w: World, v: World, own: Dir)
    requires FilesOk(w) && Quiet(w, v, own)
    ensures Expected(v) == Expected(w)
  {
    SameTail(w, v, ROOT);
    TailIsNamed(w, ROOT);
    assert NamedOk(w, Tail(w, ROOT));
  }

  lemma QuietWorld(w: World, v: World, own: Dir)
    requires WorldOk(w) && Quiet(w, v, own)
    ensures WorldOk(v)
  {
    QuietFiles(w, v, own);
    QuietExpected(w, v, own);
    forall op | op in v.ops ensures exists dir :: OperationOk(v, op, dir) {
      var dir :| OperationOk(w, op, dir);
      assert PreparedOk(w, dir);
      QuietOperation(w, v, own, op, dir);
    }
  }

  lemma QuietPc(w: World, v: World, own: Dir, pc: Pc)
    requires FilesOk(w) && Quiet(w, v, own) && PcOk(w, pc) && own !in Owned(pc)
    ensures PcOk(v, pc)
  {
    forall dir | On(w, dir) ensures On(v, dir) { SameOn(w, v, dir); }
    if InCommit(pc) { QuietCommitting(w, v, own, pc); }
  }

  /** Another call's commit is not touched: its own generation is not `own`. */
  lemma QuietCommitting(w: World, v: World, own: Dir, pc: Pc)
    requires FilesOk(w) && Quiet(w, v, own) && InCommit(pc) && CommittingOk(w, pc) && own != pc.commit.generation && On(v, pc.commit.dir)
    ensures CommittingOk(v, pc)
  {
    assert PreparedOk(w, pc.commit.dir) && v.named == w.named;
  }

  // -------------------------------------------------- steps that publish

  predicate Advances(before: Operation, after: Operation) {
    && after.key == before.key && after.parent == before.parent
    && match before.status
       case Pending => true
       case Issued(cert) => after.status == Issued(cert) || after.status == Activated(cert)
       case Activated(cert) => after.status == Activated(cert)
  }

  ghost predicate StaysOn(w: World, v: World) { forall d :: On(w, d) ==> On(v, d) }

  /** `v` holds all of `w`, and the one name that became public is `name`. */
  ghost predicate Grows(w: World, v: World, name: nat) {
    && v.certificates == w.certificates && v.keys == w.keys && v.unused == w.unused
    && w.named <= v.named <= w.named + {name}
    && (forall d :: d in w.prepared ==> d in v.prepared && v.prepared[d] == w.prepared[d])
    && (forall d :: d in v.prepared && d !in w.prepared ==> v.prepared[d].op == name)
    && (forall slot :: slot in w.pointers ==> slot in v.pointers && v.pointers[slot] == w.pointers[slot])
    && (forall slot :: slot in v.pointers && slot !in w.pointers ==> v.pointers[slot].generation == name)
    && (forall d :: d in w.selected ==> d in v.selected && v.selected[d] == w.selected[d])
    && (forall op :: op in w.ops ==> op in v.ops && Advances(w.ops[op], v.ops[op]))
    && (forall op :: op in v.ops && op !in w.ops ==> exists d :: d in w.prepared && w.prepared[d].op == op)
    && StaysOn(w, v)
  }

  lemma GrowsPc(w: World, v: World, name: nat, pc: Pc)
    requires Grows(w, v, name) && PcOk(w, pc) && name !in Owned(pc)
    ensures PcOk(v, pc)
  {
    if InCommit(pc) { GrowsCommitting(w, v, name, pc); }
  }

  lemma GrowsCommitting(w: World, v: World, name: nat, pc: Pc)
    requires Grows(w, v, name) && InCommit(pc) && CommittingOk(w, pc) && name != pc.commit.generation
    ensures CommittingOk(v, pc)
  {
    assert v.named <= w.named + {name};
  }

  lemma KeptPrepared(w: World, v: World, name: nat, dir: Dir)
    requires Grows(w, v, name) && PreparedOk(w, dir)
    ensures PreparedOk(v, dir)
  {
  }

  lemma KeptPointer(w: World, v: World, name: nat, slot: Slot)
    requires Grows(w, v, name) && PointerOk(w, slot)
    ensures PointerOk(v, slot)
  {
  }

  lemma KeptSelected(w: World, v: World, name: nat, dir: Dir)
    requires Grows(w, v, name) && SelectedOk(w, dir)
    ensures SelectedOk(v, dir)
  {
  }

  lemma KeptOperation(w: World, v: World, name: nat, op: nat, dir: Dir)
    requires Grows(w, v, name) && OperationOk(w, op, dir) && v.ops[op] == w.ops[op] && w.serial <= v.serial
    ensures OperationOk(v, op, dir)
  {
  }

  /** What is new in a grown world, besides what it kept. */
  ghost predicate NewOk(w: World, v: World) {
    && (forall d :: d in v.prepared && d !in w.prepared ==> PreparedOk(v, d))
    && (forall slot :: slot in v.pointers && slot !in w.pointers ==> PointerOk(v, slot))
    && (forall d :: d in v.selected && d !in w.selected ==> SelectedOk(v, d))
    && (forall i, j :: i in v.prepared && j in v.prepared && v.prepared[i].op == v.prepared[j].op ==> i == j)
    && (forall i, j :: i in v.pointers && j in v.pointers && v.pointers[i].generation == v.pointers[j].generation ==> i == j)
    && (forall d :: d in v.named && d !in w.named ==> NamedOk(v, d))
    && (forall slot :: slot in v.pointers && slot !in w.pointers ==> v.pointers[slot].generation in v.named)
    && (forall d {:trigger On(v, d)} :: (d in v.prepared && d !in w.prepared) || (d in v.selected && d !in w.selected) ==> On(v, d))
    && w.serial <= v.serial
  }

  lemma GrownPrepared(w: World, v: World, name: nat)
    requires FilesOk(w) && Grows(w, v, name) && NewOk(w, v)
    ensures forall d :: d in v.prepared ==> PreparedOk(v, d)
  {
    forall d | d in v.prepared ensures PreparedOk(v, d) {
      if d in w.prepared { KeptPrepared(w, v, name, d); }
    }
  }

  lemma GrownPointers(w: World, v: World, name: nat)
    requires FilesOk(w) && Grows(w, v, name) && NewOk(w, v)
    ensures forall slot :: slot in v.pointers ==> PointerOk(v, slot)
  {
    forall slot | slot in v.pointers ensures PointerOk(v, slot) {
      if slot in w.pointers { KeptPointer(w, v, name, slot); }
    }
  }

  lemma GrownSelected(w: World, v: World, name: nat)
    requires FilesOk(w) && Grows(w, v, name) && NewOk(w, v)
    ensures forall d :: d in v.selected ==> SelectedOk(v, d)
  {
    forall d | d in v.selected ensures SelectedOk(v, d) {
      if d in w.selected { KeptSelected(w, v, name, d); }
    }
  }

  lemma GrownNamed(w: World, v: World, name: nat)
    requires FilesOk(w) && Grows(w, v, name) && NewOk(w, v)
    ensures forall d :: d in v.named ==> NamedOk(v, d)
    ensures forall slot :: slot in v.pointers ==> v.pointers[slot].generation in v.named
  {
    forall d | d in v.named ensures NamedOk(v, d) {
      if d in w.named { assert NamedOk(w, d); }
    }
  }

  lemma GrownFiles(w: World, v: World, name: nat)
    requires FilesOk(w) && Grows(w, v, name) && NewOk(w, v)
    ensures FilesOk(v)
  {
    GrownPrepared(w, v, name);
    GrownPointers(w, v, name);
    GrownSelected(w, v, name);
    GrownNamed(w, v, name);
    GrownChain(w, v);
  }

  lemma GrownChain(w: World, v: World)
    requires ChainOk(w) && StaysOn(w, v)
    requires forall d {:trigger On(v, d)} :: (d in v.prepared && d !in w.prepared) || (d in v.selected && d !in w.selected) ==> On(v, d)
    ensures ChainOk(v)
  {
    forall d | d in v.prepared || d in v.selected ensures On(v, d) {
      assert d in w.prepared || d in w.selected ==> On(w, d);
    }
  }

  /** At most one operation, `changed`, differs. */
  lemma GrownOperations(w: World, v: World, name: nat, changed: nat, home: Dir)
    requires OperationsOk(w) && Grows(w, v, name) && w.serial <= v.serial
    requires forall op :: op in v.ops && op != changed ==> op in w.ops && v.ops[op] == w.ops[op]
    requires changed in v.ops ==> OperationOk(v, changed, home)
    ensures OperationsOk(v)
  {
    forall op | op in v.ops ensures exists dir :: OperationOk(v, op, dir) {
      if op != changed {
        var dir :| OperationOk(w, op, dir);
        KeptOperation(w, v, name, op, dir);
      }
    }
  }

  lemma LocalOperations(w: World, v: World, name: nat, op: nat)
    requires OperationsOk(w) && Grows(w, v, name) && v.ops == w.ops && v.serial == w.serial && op in w.ops
    ensures OperationsOk(v)
  {
    var home :| OperationOk(w, op, home);
    KeptOperation(w, v, name, op, home);
    GrownOperations(w, v, name, op, home);
  }

  /** While the selections stay, the expected certificate changes only with the tail's operation. */
  lemma SameExpected(w: World, v: World)
    requires FilesOk(w) && v.selected == w.selected && w.unused <= v.unused && v.certificates == w.certificates
    requires var tail := Tail(w, ROOT);
      (tail in v.prepared && v.prepared[tail].op in v.ops && v.ops[v.prepared[tail].op].status.Activated?) ==
      (tail in w.prepared && w.prepared[tail].op in w.ops && w.ops[w.prepared[tail].op].status.Activated?)
    requires var tail := Tail(w, ROOT);
      tail in w.prepared && w.prepared[tail].op in w.ops && w.ops[w.prepared[tail].op].status.Activated? ==>
      v.prepared[tail] == w.prepared[tail] && v.ops[w.prepared[tail].op] == w.ops[w.prepared[tail].op]
    ensures Expected(v) == Expected(w)
  {
    SameTail(w, v, ROOT);
  }

  lemma StillOn(w: World, v: World)
    requires FilesOk(w) && v.selected == w.selected && w.unused <= v.unused
    requires w.named <= v.named
    ensures StaysOn(w, v)
  {
    forall d | On(w, d) ensures On(v, d) {
      SameOn(w, v, d);
    }
  }

  lemma PreparedLinkGrows(w: World, dir: Dir, p: Proposal, v: World)
    requires StaysOn(w, v) && dir !in w.prepared && v == w.(prepared := w.prepared[dir := p])
    ensures Grows(w, v, p.op)
  {
  }

  lemma PreparedLinkNew(w: World, dir: Dir, p: Proposal, v: World)
    requires FilesOk(w) && On(v, dir) && Unused(w, p) && dir in w.keys && p.key != w.keys[dir] && dir !in w.prepared
    requires v == w.(prepared := w.prepared[dir := p])
    ensures NewOk(w, v)
  {
    assert PreparedOk(v, dir);
  }

  lemma PreparedLink(w: World, dir: Dir, p: Proposal, v: World)
    requires WorldOk(w) && On(w, dir) && Unused(w, p) && dir in w.keys && p.key != w.keys[dir] && dir !in w.prepared
    requires v == w.(prepared := w.prepared[dir := p])
    ensures WorldOk(v) && Grows(w, v, p.op)
  {
    StillOn(w, v);
    PreparedLinkGrows(w, dir, p, v);
    PreparedLinkNew(w, dir, p, v);
    GrownFiles(w, v, p.op);
    GrownOperations(w, v, p.op, p.op, dir);
    SameExpected(w, v);
  }

  /** Only the service's operations and what is active change. */
  predicate OnlyService(w: World, v: World) {
    && v == w.(ops := v.ops, active := v.active, serial := v.serial) && w.serial <= v.serial
    && w.ops.Keys <= v.ops.Keys
    && (forall op :: op in w.ops ==> Advances(w.ops[op], v.ops[op]))
  }

  lemma ServiceGrows(w: World, v: World, op: nat, dir: Dir)
    requires StaysOn(w, v) && OnlyService(w, v) && v.ops.Keys <= w.ops.Keys + {op} && dir in w.prepared && w.prepared[dir].op == op
    ensures Grows(w, v, w.unused)
  {
  }

  lemma ServiceFiles(w: World, v: World)
    requires FilesOk(w) && OnlyService(w, v) && Grows(w, v, w.unused)
    ensures FilesOk(v)
  {
    assert NewOk(w, v);
    GrownFiles(w, v, w.unused);
  }

  /** The service changes only the operation proposed in `dir`. */
  predicate OnlyOperation(w: World, v: World, op: nat, dir: Dir) {
    && OnlyService(w, v) && v.ops.Keys <= w.ops.Keys + {op} && dir in w.prepared && w.prepared[dir].op == op
    && (forall o :: o in w.ops && o != op ==> v.ops[o] == w.ops[o])
    && OperationOk(v, op, dir)
  }

  lemma ServiceOperations(w: World, v: World, op: nat, dir: Dir)
    requires OperationsOk(w) && OnlyOperation(w, v, op, dir) && Grows(w, v, w.unused)
    ensures OperationsOk(v)
  {
    GrownOperations(w, v, w.unused, op, dir);
  }

  lemma ServiceStep(w: World, v: World, op: nat, dir: Dir)
    requires FilesOk(w) && OperationsOk(w) && OnlyOperation(w, v, op, dir)
    ensures FilesOk(v) && OperationsOk(v) && Grows(w, v, w.unused)
  {
    StillOn(w, v);
    ServiceGrows(w, v, op, dir);
    ServiceFiles(w, v);
    ServiceOperations(w, v, op, dir);
  }

  lemma PostedOperation(w: World, dir: Dir, p: Proposal, v: World)
    requires Proposed(w, dir, p) && Accepts(w, dir, p) && p.op !in w.ops && v == Post(w, dir, p)
    ensures OnlyOperation(w, v, p.op, dir)
  {
  }

  lemma Posted(w: World, dir: Dir, p: Proposal, v: World)
    requires WorldOk(w) && Proposed(w, dir, p) && Accepts(w, dir, p) && p.op !in w.ops && v == Post(w, dir, p)
    ensures WorldOk(v) && Grows(w, v, w.unused)
  {
    PostedOperation(w, dir, p, v);
    ServiceStep(w, v, p.op, dir);
    SameExpected(w, v);
  }

  lemma PointerLinkGrows(w: World, k: Commit, v: World)
    requires StaysOn(w, v) && Slot(k.dir, k.proposal.op) !in w.pointers
    requires v == LinkPointer(w, k)
    ensures Grows(w, v, k.generation)
  {
  }

  lemma PointerLinkOk(w: World, k: Commit, v: World)
    requires PreparedOk(w, k.dir) && Material(w, k.dir) && PcOk(w, LinkingPointer(k))
    requires v == LinkPointer(w, k)
    requires OperationsOk(w)
    requires w.prepared[k.dir].key < w.unused
    ensures PointerOk(v, Slot(k.dir, k.proposal.op)) && NamedOk(v, k.generation)
  {
    var home :| OperationOk(w, k.proposal.op, home);
  }

  lemma PointerLinkNew(w: World, k: Commit, v: World)
    requires FilesOk(w) && k.generation !in w.named && PointerOk(v, Slot(k.dir, k.proposal.op)) && NamedOk(v, k.generation)
    requires v == LinkPointer(w, k)
    ensures NewOk(w, v)
  {
    var added := Slot(k.dir, k.proposal.op);
    forall i, j | i in v.pointers && j in v.pointers && v.pointers[i].generation == v.pointers[j].generation ensures i == j {
      assert i != added ==> w.pointers[i].generation in w.named;
      assert j != added ==> w.pointers[j].generation in w.named;
    }
  }

  lemma PointerLink(w: World, k: Commit, v: World)
    requires WorldOk(w) && PcOk(w, LinkingPointer(k)) && Slot(k.dir, k.proposal.op) !in w.pointers
    requires v == LinkPointer(w, k)
    ensures WorldOk(v) && Grows(w, v, k.generation)
  {
    StillOn(w, v);
    PointerLinkGrows(w, k, v);
    assert PreparedOk(w, k.dir);
    assert NamedOk(w, k.dir);
    PointerLinkOk(w, k, v);
    PointerLinkNew(w, k, v);
    GrownFiles(w, v, k.generation);
    LocalOperations(w, v, k.generation, k.proposal.op);
    SameExpected(w, v);
  }

  lemma ActivationHome(w: World, dir: Dir, r: Record)
    requires WorldOk(w) && Pointed(w, dir, r) && r.op in w.ops
    ensures OperationOk(w, r.op, dir) && PointerOk(w, Slot(dir, r.op))
  {
    assert PointerOk(w, Slot(dir, r.op));
    var home :| OperationOk(w, r.op, home);
    assert home == dir;
  }

  lemma ActivatedOperation(w: World, dir: Dir, r: Record, v: World)
    requires OperationOk(w, r.op, dir) && Pointed(w, dir, r) && v == Activate(w, r) && v != w
    ensures OnlyOperation(w, v, r.op, dir) && Receipt(v, r) && v.active == r.cert && w.ops[r.op].parent == w.active
  {
  }

  lemma ActivatedExpected(w: World, dir: Dir, r: Record, v: World)
    requires FilesOk(w) && dir == Tail(w, ROOT) && OnlyOperation(w, v, r.op, dir) && Receipt(v, r)
    ensures Expected(v) == r.cert
  {
    SameTail(w, v, ROOT);
  }

  lemma Activation(w: World, dir: Dir, r: Record, v: World)
    requires WorldOk(w) && Pointed(w, dir, r) && v == Activate(w, r) && v != w
    ensures WorldOk(v) && Grows(w, v, w.unused) && Receipt(v, r)
    ensures dir == Tail(w, ROOT) && v.active == Expected(v) == r.cert
  {
    ActivationHome(w, dir, r);
    ActivatedOperation(w, dir, r, v);
    ActiveParent(w, dir);
    ActivatedExpected(w, dir, r, v);
    ServiceStep(w, v, r.op, dir);
  }

  lemma IssuedOperation(w: World, op: nat, dir: Dir, v: World)
    requires WorldOk(w) && IssueStep(w, op) == Some(v) && OperationOk(w, op, dir) && dir in w.named
    ensures OperationOk(v, op, dir)
  {
    assert NamedOk(w, dir);
  }

  lemma IssuedOnly(w: World, op: nat, dir: Dir, v: World)
    requires IssueStep(w, op) == Some(v) && OperationOk(w, op, dir) && OperationOk(v, op, dir)
    ensures OnlyOperation(w, v, op, dir) && v.active == w.active
  {
  }

  lemma Issuing(w: World, op: nat, v: World)
    requires WorldOk(w) && IssueStep(w, op) == Some(v)
    ensures WorldOk(v) && Grows(w, v, w.unused)
  {
    var dir :| OperationOk(w, op, dir);
    assert PreparedOk(w, dir);
    IssuedOperation(w, op, dir, v);
    IssuedOnly(w, op, dir, v);
    ServiceStep(w, v, op, dir);
    SameExpected(w, v);
  }

  lemma NotBeyondTail(w: World, generation: Dir)
    requires FilesOk(w) && Tail(w, ROOT) < generation
    ensures generation !in w.selected && generation !in w.prepared
  {
    assert generation in w.selected || generation in w.prepared ==> On(w, generation);
  }

  lemma SelectionTails(w: World, dir: Dir, r: Record, v: World)
    requires FilesOk(w) && Pointed(w, dir, r) && dir !in w.selected && v == w.(selected := w.selected[dir := r])
    ensures Tail(w, ROOT) == dir && Tail(v, ROOT) == r.generation && r.generation !in w.prepared
    ensures StaysOn(w, v)
  {
    assert PointerOk(w, Slot(dir, r.op));
    Unselected(w, dir);
    NotBeyondTail(w, r.generation);
    TailAfterSelection(w, v, dir, r, ROOT);
    forall d | On(w, d) ensures On(v, d) {
      TailAfterSelection(w, v, dir, r, d);
    }
  }

  lemma SelectionGrows(w: World, dir: Dir, r: Record, v: World)
    requires StaysOn(w, v) && Pointed(w, dir, r) && Receipt(w, r) && dir !in w.selected
    requires v == w.(selected := w.selected[dir := r])
    ensures Grows(w, v, w.unused) && SelectedOk(v, dir) && On(v, dir)
  {
    assert On(v, dir);
  }

  lemma Selection(w: World, dir: Dir, r: Record, v: World)
    requires WorldOk(w) && Pointed(w, dir, r) && Receipt(w, r) && dir !in w.selected
    requires v == w.(selected := w.selected[dir := r])
    ensures WorldOk(v) && Grows(w, v, w.unused)
    ensures Tail(w, ROOT) == dir && Tail(v, ROOT) == r.generation && v.active == Expected(v) == r.cert
  {
    SelectionTails(w, dir, r, v);
    SelectionGrows(w, dir, r, v);
    GrownFiles(w, v, w.unused);
    assert PointerOk(w, Slot(dir, r.op));
    LocalOperations(w, v, w.unused, r.op);
  }

  // ---------------------------------------------------------- one call's step

  /** A step of one call as the others see it: it touches only what the call owns, and draws
      new names. */
  ghost predicate Fair(w: World, v: World, pc: Pc, next: Pc) {
    && StaysOn(w, v)
    && (exists name :: (Grows(w, v, name) || Quiet(w, v, name)) && (name in Owned(pc) || w.unused <= name))
    && OwnsNoMore(w, pc, next)
  }

  ghost predicate StepOk(w: World, pc: Pc, result: (World, Pc)) {
    var (v, next) := result;
    WorldOk(v) && PcOk(v, next) && Fair(w, v, pc, next)
  }

  lemma OwnedAreOld(w: World, pc: Pc)
    requires PcOk(w, pc)
    ensures forall n :: n in Owned(pc) ==> n < w.unused
  {
  }

  predicate OwnsNoMore(w: World, pc: Pc, next: Pc) {
    forall n :: n in Owned(next) ==> n in Owned(pc) || w.unused <= n
  }

  lemma QuietStep(w: World, own: Dir, pc: Pc, result: (World, Pc))
    requires WorldOk(w) && Quiet(w, result.0, own) && (own in Owned(pc) || w.unused <= own)
    requires PcOk(result.0, result.1) && OwnsNoMore(w, pc, result.1)
    ensures StepOk(w, pc, result)
  {
    QuietWorld(w, result.0, own);
    StillOn(w, result.0);
  }

  lemma GrowingStep(w: World, name: nat, pc: Pc, result: (World, Pc))
    requires WorldOk(result.0) && Grows(w, result.0, name) && (name in Owned(pc) || w.unused <= name)
    requires PcOk(result.0, result.1) && OwnsNoMore(w, pc, result.1)
    ensures StepOk(w, pc, result)
  {
  }

  /** Nothing but durability changes. */
  lemma IdleStep(w: World, pc: Pc, result: (World, Pc))
    requires WorldOk(w) && result.0 == w.(synced := result.0.synced) && PcOk(w, result.1)
    requires Owned(result.1) <= Owned(pc)
    ensures StepOk(w, pc, result)
  {
    assert Quiet(w, result.0, w.unused);
    OwnedAreOld(w, result.1);
    QuietPc(w, result.0, w.unused, result.1);
    QuietStep(w, w.unused, pc, result);
  }

  lemma OnChild(w: World, dir: Dir)
    requires FilesOk(w) && On(w, dir) && dir in w.selected
    ensures On(w, w.selected[dir].generation)
  {
    assert SelectedOk(w, dir) && PointerOk(w, Slot(dir, w.selected[dir].op));
  }

  lemma LoadPc(w: World, device: Dir, final: bool, cur: Dir, hops: nat)
    requires On(w, cur) && hops <= MAX_LOOKUPS && (cur in w.selected ==> On(w, w.selected[cur].generation))
    ensures PcOk(w, LoadStep(w, device, final, cur, hops)) && Owned(LoadStep(w, device, final, cur, hops)) == {}
  {
  }

  lemma LoadOk(w: World, device: Dir, final: bool, cur: Dir, hops: nat)
    requires WorldOk(w) && On(w, cur) && hops <= MAX_LOOKUPS
    ensures StepOk(w, Loading(final, cur, hops), (w, LoadStep(w, device, final, cur, hops)))
  {
    if cur in w.selected { OnChild(w, cur); }
    LoadPc(w, device, final, cur, hops);
    IdleStep(w, Loading(final, cur, hops), (w, LoadStep(w, device, final, cur, hops)));
  }

  lemma ReconcileOk(w: World, dir: Dir)
    requires On(w, dir)
    ensures PcOk(w, ReconcileStep(w, dir)) && Owned(ReconcileStep(w, dir)) == {}
  {
  }

  lemma CheckOk(w: World, dir: Dir, p: Proposal, cert: Cert)
    requires On(w, dir)
    ensures PcOk(w, CheckStep(w, dir, p, cert)) && Owned(CheckStep(w, dir, p, cert)) == {}
  {
  }

  predicate Reading(pc: Pc) { pc.Loading? || pc.Reconciling? || pc.Checking? }

  predicate Inquiring(pc: Pc) { pc.Asking? || pc.Confirming? || pc.Polling? }

  lemma ReadingOk(w: World, device: Dir, pc: Pc)
    requires WorldOk(w) && PcOk(w, pc) && Reading(pc)
    ensures StepOk(w, pc, Next(w, device, pc).value)
  {
    match pc
    case Loading(final, cur, hops) =>
      LoadOk(w, device, final, cur, hops);
    case Reconciling(dir) =>
      ReconcileOk(w, dir);
      IdleStep(w, pc, (w, ReconcileStep(w, dir)));
    case Checking(dir, p, cert) =>
      CheckOk(w, dir, p, cert);
      IdleStep(w, pc, (w, CheckStep(w, dir, p, cert)));
    case _ =>
  }

  lemma InquiryOk(w: World, device: Dir, pc: Pc)
    requires PcOk(w, pc) && Inquiring(pc) && Next(w, device, pc).Some?
    ensures var (v, next) := Next(w, device, pc).value; v == w && PcOk(w, next) && Owned(next) == {}
  {
  }

  lemma InquiringOk(w: World, device: Dir, pc: Pc)
    requires WorldOk(w) && PcOk(w, pc) && Inquiring(pc) && Next(w, device, pc).Some?
    ensures StepOk(w, pc, Next(w, device, pc).value)
  {
    InquiryOk(w, device, pc);
    IdleStep(w, pc, Next(w, device, pc).value);
  }

  lemma AfterSelectionPc(w: World, r: Record, mode: Mode)
    requires On(w, r.generation)
    ensures PcOk(w, AfterSelection(r, mode)) && Owned(AfterSelection(r, mode)) == {}
  {
  }

  /** What selection leads to once `dir` has the record selected. */
  lemma SelectedPc(w: World, dir: Dir, r: Record, mode: Mode)
    requires FilesOk(w) && On(w, dir) && dir in w.selected && w.selected[dir] == r
    ensures PcOk(w, AfterSelection(r, mode)) && Owned(AfterSelection(r, mode)) == {}
  {
    OnChild(w, dir);
    AfterSelectionPc(w, r, mode);
  }

  lemma RefusedPc(w: World, dir: Dir, r: Record, mode: Mode)
    requires Pointed(w, dir, r)
    ensures PcOk(w, SelectionFails(dir, r, mode)) && Owned(SelectionFails(dir, r, mode)) == {}
  {
  }

  lemma NoSelection(w: World, dir: Dir, r: Record, mode: Mode)
    requires FilesOk(w) && Pointed(w, dir, r) && !SelectStep(w, dir, r, mode).1.SyncingSelection?
    ensures var (v, next) := SelectStep(w, dir, r, mode); v == w && PcOk(w, next) && Owned(next) == {}
  {
    RefusedPc(w, dir, r, mode);
    if dir in w.selected && w.selected[dir] == r { SelectedPc(w, dir, r, mode); }
  }

  lemma NewlySelectedPc(w: World, v: World, dir: Dir, r: Record, mode: Mode)
    requires Pointed(w, dir, r) && Grows(w, v, w.unused) && dir in v.selected && v.selected[dir] == r
    ensures PcOk(v, SyncingSelection(dir, r, mode)) && Owned(SyncingSelection(dir, r, mode)) == {}
  {
  }

  lemma Selects(w: World, dir: Dir, r: Record, mode: Mode)
    requires SelectStep(w, dir, r, mode).1.SyncingSelection?
    ensures dir !in w.selected
    ensures SelectStep(w, dir, r, mode) == (w.(selected := w.selected[dir := r]), SyncingSelection(dir, r, mode))
  {
  }

  lemma SelectOk(w: World, dir: Dir, r: Record, mode: Mode)
    requires WorldOk(w) && Pointed(w, dir, r) && Receipt(w, r)
    ensures StepOk(w, Selecting(dir, r, mode), SelectStep(w, dir, r, mode))
  {
    var pc := Selecting(dir, r, mode);
    var result := SelectStep(w, dir, r, mode);
    if result.1.SyncingSelection? {
      Selects(w, dir, r, mode);
      Selection(w, dir, r, result.0);
      NewlySelectedPc(w, result.0, dir, r, mode);
      GrowingStep(w, w.unused, pc, result);
    } else {
      NoSelection(w, dir, r, mode);
      IdleStep(w, pc, result);
    }
  }

  lemma SyncSelectionOk(w: World, dir: Dir, r: Record, mode: Mode)
    requires WorldOk(w) && PcOk(w, SyncingSelection(dir, r, mode))
    ensures StepOk(w, SyncingSelection(dir, r, mode), (Sync(w, dir), AfterSelection(r, mode)))
  {
    SelectedPc(w, dir, r, mode);
    IdleStep(w, SyncingSelection(dir, r, mode), (Sync(w, dir), AfterSelection(r, mode)));
  }

  function Drawn(w: World, dir: Dir): (World, Pc) {
    (w.(unused := w.unused + 2), LinkingPrepared(dir, Proposal(w.unused, w.unused + 1)))
  }

  lemma NewProposal(w: World, dir: Dir)
    requires WorldOk(w) && On(w, dir)
    ensures var (v, next) := Drawn(w, dir); Quiet(w, v, w.unused) && PcOk(v, next) && OwnsNoMore(w, Preparing(dir), next)
  {
    var v := Drawn(w, dir).0;
    assert NamedOk(w, dir);
    assert Quiet(w, v, w.unused);
    SameOn(w, v, dir);
    forall d | d in v.prepared ensures v.prepared[d].op != w.unused { assert PreparedOk(w, d); }
    assert forall home :: OperationOk(w, w.unused, home) ==> PreparedOk(w, home);
  }

  lemma Adopted(w: World, dir: Dir, pc: Pc)
    requires WorldOk(w) && On(w, dir) && dir in w.prepared && (pc == Preparing(dir) || pc.LinkingPrepared?)
    ensures StepOk(w, pc, (w, Posting(dir, w.prepared[dir])))
  {
    IdleStep(w, pc, (w, Posting(dir, w.prepared[dir])));
  }

  lemma PrepareOk(w: World, dir: Dir)
    requires WorldOk(w) && On(w, dir)
    ensures StepOk(w, Preparing(dir), PrepareStep(w, dir))
  {
    if dir in w.prepared {
      Adopted(w, dir, Preparing(dir));
    } else {
      NewProposal(w, dir);
      QuietStep(w, w.unused, Preparing(dir), Drawn(w, dir));
    }
  }

  lemma Linked(w: World, dir: Dir, p: Proposal)
    requires WorldOk(w) && On(w, dir) && Unused(w, p) && dir in w.keys && p.key != w.keys[dir] && dir !in w.prepared
    ensures StepOk(w, LinkingPrepared(dir, p), (w.(prepared := w.prepared[dir := p]), SyncingPrepared(dir)))
  {
    var v := w.(prepared := w.prepared[dir := p]);
    PreparedLink(w, dir, p, v);
    LinkedPc(v, dir);
    GrowingStep(w, p.op, LinkingPrepared(dir, p), (v, SyncingPrepared(dir)));
  }

  lemma LinkedPc(w: World, dir: Dir)
    requires On(w, dir) && dir in w.prepared
    ensures PcOk(w, SyncingPrepared(dir)) && Owned(SyncingPrepared(dir)) == {}
  {
  }

  lemma LinkPreparedOk(w: World, dir: Dir, p: Proposal)
    requires WorldOk(w) && PcOk(w, LinkingPrepared(dir, p))
    ensures StepOk(w, LinkingPrepared(dir, p), LinkPreparedStep(w, dir, p))
  {
    if dir in w.prepared { Adopted(w, dir, LinkingPrepared(dir, p)); } else { Linked(w, dir, p); }
  }

  lemma PostedPc(w: World, dir: Dir, p: Proposal, next: Pc)
    requires Proposed(w, dir, p) && (next == Polling(dir, p) || next == Failed)
    ensures PcOk(w, next) && Owned(next) == {}
  {
  }

  lemma PostOk(w: World, dir: Dir, p: Proposal, next: Pc)
    requires WorldOk(w) && Proposed(w, dir, p) && (next == Polling(dir, p) || next == Failed)
    ensures StepOk(w, Posting(dir, p), (Post(w, dir, p), next))
  {
    var result := (Post(w, dir, p), next);
    PostedPc(w, dir, p, next);
    if result.0 == w {
      IdleStep(w, Posting(dir, p), result);
    } else {
      Posted(w, dir, p, result.0);
      GrowsPc(w, result.0, w.unused, next);
      GrowingStep(w, w.unused, Posting(dir, p), result);
    }
  }

  /** The world and the commit with which a staging starts. */
  function Begun(w: World, dir: Dir, p: Proposal, cert: Cert): (World, Pc)
    requires dir in w.certificates
  {
    (w.(parents := w.parents[w.unused := dir], unused := w.unused + 1),
     WritingCertificate(Commit(dir, w.certificates[dir], p, cert, w.unused)))
  }

  lemma BeginsCommit(w: World, dir: Dir, p: Proposal, cert: Cert)
    requires StageStep(w, dir, p, cert).1.WritingCertificate?
    ensures dir in w.certificates && cert.key == p.key && StageStep(w, dir, p, cert) == Begun(w, dir, p, cert)
  {
  }

  lemma NewCommit(w: World, dir: Dir, p: Proposal, cert: Cert)
    requires WorldOk(w) && PcOk(w, Staging(dir, p, cert)) && dir in w.certificates && cert.key == p.key
    ensures var (v, next) := Begun(w, dir, p, cert);
      Quiet(w, v, w.unused) && PcOk(v, next) && OwnsNoMore(w, Staging(dir, p, cert), next)
  {
    var v := Begun(w, dir, p, cert).0;
    assert NamedOk(w, dir);
    assert Quiet(w, v, w.unused);
    SameOn(w, v, dir);
    assert v.named == w.named;
  }

  lemma NoCommit(w: World, dir: Dir, p: Proposal, cert: Cert)
    requires PcOk(w, Staging(dir, p, cert)) && !StageStep(w, dir, p, cert).1.WritingCertificate?
    ensures var (v, next) := StageStep(w, dir, p, cert); v == w && PcOk(w, next) && Owned(next) == {}
  {
  }

  lemma StageOk(w: World, dir: Dir, p: Proposal, cert: Cert)
    requires WorldOk(w) && PcOk(w, Staging(dir, p, cert))
    ensures StepOk(w, Staging(dir, p, cert), StageStep(w, dir, p, cert))
  {
    var result := StageStep(w, dir, p, cert);
    if result.1.WritingCertificate? {
      BeginsCommit(w, dir, p, cert);
      NewCommit(w, dir, p, cert);
      QuietStep(w, w.unused, Staging(dir, p, cert), result);
    } else {
      NoCommit(w, dir, p, cert);
      IdleStep(w, Staging(dir, p, cert), result);
    }
  }

  lemma ActivatedPc(w: World, v: World, dir: Dir, r: Record, next: Pc)
    requires Pointed(w, dir, r) && Grows(w, v, w.unused)
    requires next == Asking(dir, r, Retry) || (next == Selecting(dir, r, FirstTry) && Receipt(v, r))
    ensures PcOk(v, next) && Owned(next) == {}
  {
  }

  lemma ReceivedPc(w: World, dir: Dir, r: Record, next: Pc)
    requires Pointed(w, dir, r)
    requires next == Asking(dir, r, Retry) || (next == Selecting(dir, r, FirstTry) && Receipt(w, r))
    ensures PcOk(w, next) && Owned(next) == {}
  {
  }

  lemma ActivateOk(w: World, dir: Dir, r: Record, next: Pc)
    requires WorldOk(w) && Pointed(w, dir, r)
    requires next == Asking(dir, r, Retry) || (next == Selecting(dir, r, FirstTry) && Receipt(Activate(w, r), r))
    ensures StepOk(w, Activating(dir, r), (Activate(w, r), next))
  {
    var v := Activate(w, r);
    if v == w {
      ReceivedPc(w, dir, r, next);
      IdleStep(w, Activating(dir, r), (v, next));
    } else {
      Activation(w, dir, r, v);
      ActivatedPc(w, v, dir, r, next);
      GrowingStep(w, w.unused, Activating(dir, r), (v, next));
    }
  }

  lemma Written(w: World, pc: Pc)
    requires FilesOk(w) && PcOk(w, pc) && (pc.WritingCertificate? || pc.WritingKey?)
    ensures var (v, next) := CommitStep(w, pc); Quiet(w, v, pc.commit.generation) && PcOk(v, next)
  {
    var v := CommitStep(w, pc).0;
    assert Quiet(w, v, pc.commit.generation);
    assert v.named == w.named;
    SameOn(w, v, pc.commit.dir);
    KeptCommit(w, v, pc.commit);
  }

  lemma KeptCommit(w: World, v: World, k: Commit)
    requires FilesOk(w) && CommitOk(w, k) && Quiet(w, v, k.generation) && On(v, k.dir)
    ensures CommitOk(v, k)
  {
  }

  lemma WriteOk(w: World, pc: Pc)
    requires WorldOk(w) && PcOk(w, pc) && (pc.WritingCertificate? || pc.WritingKey?)
    ensures StepOk(w, pc, CommitStep(w, pc))
  {
    Written(w, pc);
    QuietStep(w, pc.commit.generation, pc, CommitStep(w, pc));
  }

  lemma PointerExists(w: World, k: Commit)
    requires PcOk(w, LinkingPointer(k))
    ensures PcOk(w, Cleaning(k, true)) && Owned(Cleaning(k, true)) == Owned(LinkingPointer(k))
  {
  }

  lemma PointerLinked(w: World, k: Commit, v: World)
    requires PcOk(w, LinkingPointer(k)) && Grows(w, v, k.generation)
    requires v == LinkPointer(w, k)
    ensures PcOk(v, SyncingPointer(k))
  {
  }

  lemma LinkPointerOk(w: World, k: Commit)
    requires WorldOk(w) && PcOk(w, LinkingPointer(k))
    ensures StepOk(w, LinkingPointer(k), CommitStep(w, LinkingPointer(k)))
  {
    var result := CommitStep(w, LinkingPointer(k));
    if Slot(k.dir, k.proposal.op) in w.pointers {
      PointerExists(w, k);
      IdleStep(w, LinkingPointer(k), result);
    } else {
      PointerLink(w, k, result.0);
      PointerLinked(w, k, result.0);
      GrowingStep(w, k.generation, LinkingPointer(k), result);
    }
  }

  lemma RemovedQuietly(w: World, k: Commit, existed: bool)
    requires PcOk(w, Cleaning(k, existed)) && !Committed(w, k)
    ensures Quiet(w, Remove(w, k.generation), k.generation)
  {
  }

  lemma Removed(w: World, k: Commit, existed: bool)
    requires FilesOk(w) && CommitOk(w, k) && Quiet(w, Remove(w, k.generation), k.generation)
    ensures PcOk(Remove(w, k.generation), AfterCleaning(k, existed))
  {
    var v := Remove(w, k.generation);
    SameOn(w, v, k.dir);
    KeptCommit(w, v, k);
  }

  /** The failure path removes a generation only when no pointer names it. */
  lemma RemoveOk(w: World, k: Commit, existed: bool)
    requires WorldOk(w) && PcOk(w, Cleaning(k, existed)) && !Committed(w, k)
    ensures StepOk(w, Cleaning(k, existed), (Remove(w, k.generation), AfterCleaning(k, existed)))
    ensures k.generation !in w.named && forall slot :: slot in w.pointers ==> w.pointers[slot].generation != k.generation
  {
    RemovedQuietly(w, k, existed);
    Removed(w, k, existed);
    QuietStep(w, k.generation, Cleaning(k, existed), (Remove(w, k.generation), AfterCleaning(k, existed)));
  }

  lemma KeepOk(w: World, k: Commit, existed: bool)
    requires PcOk(w, Cleaning(k, existed))
    ensures PcOk(w, AfterCleaning(k, existed)) && Owned(AfterCleaning(k, existed)) == {}
  {
  }

  lemma CleanOk(w: World, k: Commit, existed: bool)
    requires WorldOk(w) && PcOk(w, Cleaning(k, existed))
    ensures StepOk(w, Cleaning(k, existed), CommitStep(w, Cleaning(k, existed)))
    ensures k.generation in w.named <==> Committed(w, k)
  {
    if Committed(w, k) {
      KeepOk(w, k, existed);
      IdleStep(w, Cleaning(k, existed), (w, AfterCleaning(k, existed)));
    } else {
      RemoveOk(w, k, existed);
    }
  }

  lemma LinkedPointerPc(w: World, k: Commit)
    requires PcOk(w, SyncingPointer(k))
    ensures PcOk(w, Checking(k.dir, k.proposal, k.cert)) && Owned(Checking(k.dir, k.proposal, k.cert)) == {}
  {
  }

  lemma SyncPointerOk(w: World, k: Commit)
    requires WorldOk(w) && PcOk(w, SyncingPointer(k))
    ensures StepOk(w, SyncingPointer(k), CommitStep(w, SyncingPointer(k)))
  {
    LinkedPointerPc(w, k);
    IdleStep(w, SyncingPointer(k), (Sync(w, k.dir), Checking(k.dir, k.proposal, k.cert)));
  }

  lemma CommitStepOk(w: World, pc: Pc)
    requires WorldOk(w) && PcOk(w, pc) && InCommit(pc)
    ensures StepOk(w, pc, CommitStep(w, pc))
  {
    if pc.LinkingPointer? { LinkPointerOk(w, pc.commit); }
    else if pc.Cleaning? { CleanOk(w, pc.commit, pc.existed); }
    else if pc.SyncingPointer? { SyncPointerOk(w, pc.commit); }
    else { WriteOk(w, pc); }
  }

  predicate Publishing(pc: Pc) { pc.Selecting? || pc.LinkingPrepared? || pc.Posting? || pc.Activating? }

  lemma PublishingOk(w: World, device: Dir, pc: Pc)
    requires WorldOk(w) && PcOk(w, pc) && Publishing(pc)
    ensures StepOk(w, pc, Next(w, device, pc).value)
  {
    if pc.Selecting? { SelectOk(w, pc.dir, pc.record, pc.mode); }
    else if pc.LinkingPrepared? { LinkPreparedOk(w, pc.dir, pc.proposal); }
    else if pc.Posting? { PostOk(w, pc.dir, pc.proposal, Next(w, device, pc).value.1); }
    else { ActivateOk(w, pc.dir, pc.record, Next(w, device, pc).value.1); }
  }

  predicate Local(pc: Pc) { pc.SyncingSelection? || pc.Preparing? || pc.SyncingPrepared? || pc.Staging? }

  lemma SyncPreparedOk(w: World, dir: Dir)
    requires WorldOk(w) && On(w, dir) && dir in w.prepared
    ensures StepOk(w, SyncingPrepared(dir), (Sync(w, dir), Posting(dir, w.prepared[dir])))
  {
    IdleStep(w, SyncingPrepared(dir), (Sync(w, dir), Posting(dir, w.prepared[dir])));
  }

  lemma LocalOk(w: World, device: Dir, pc: Pc)
    requires WorldOk(w) && PcOk(w, pc) && Local(pc)
    ensures StepOk(w, pc, Next(w, device, pc).value)
  {
    if pc.SyncingSelection? { SyncSelectionOk(w, pc.dir, pc.record, pc.mode); }
    else if pc.Preparing? { PrepareOk(w, pc.dir); }
    else if pc.SyncingPrepared? { SyncPreparedOk(w, pc.dir); }
    else { StageOk(w, pc.dir, pc.proposal, pc.cert); }
  }

  lemma NextOk(w: World, device: Dir, pc: Pc)
    requires WorldOk(w) && PcOk(w, pc) && Next(w, device, pc).Some?
    ensures StepOk(w, pc, Next(w, device, pc).value)
  {
    if Reading(pc) { ReadingOk(w, device, pc); }
    else if Inquiring(pc) { InquiringOk(w, device, pc); }
    else if Publishing(pc) { PublishingOk(w, device, pc); }
    else if Local(pc) { LocalOk(w, device, pc); }
    else { CommitStepOk(w, pc); }
  }

  lemma EndedOk(w: World, pc: Pc)
    requires WorldOk(w)
    ensures StepOk(w, pc, (w, Failed))
  {
    IdleStep(w, pc, (w, Failed));
  }

  lemma LostOk(w: World, pc: Pc)
    requires WorldOk(w) && PcOk(w, pc) && Lost(w, pc).Some?
    ensures StepOk(w, pc, Lost(w, pc).value)
  {
    if pc.Posting? { PostOk(w, pc.dir, pc.proposal, Failed); }
    else if pc.Activating? { ActivateOk(w, pc.dir, pc.record, Asking(pc.dir, pc.record, Retry)); }
    else { EndedOk(w, pc); }
  }

  lemma RaisedPc(w: World, pc: Pc)
    requires PcOk(w, pc) && Raised(pc).Some?
    ensures PcOk(w, Raised(pc).value) && Owned(Raised(pc).value) <= Owned(pc)
  {
  }

  lemma RaisedOk(w: World, pc: Pc)
    requires WorldOk(w) && PcOk(w, pc) && Raised(pc).Some?
    ensures StepOk(w, pc, (w, Raised(pc).value))
  {
    RaisedPc(w, pc);
    IdleStep(w, pc, (w, Raised(pc).value));
  }

  // ------------------------------------------------------------------- runs

  lemma OtherPcOk(w: World, v: World, pc: Pc, next: Pc, other: Pc)
    requires FilesOk(w) && Fair(w, v, pc, next) && PcOk(w, other) && Owned(pc) !! Owned(other)
    ensures PcOk(v, other) && Owned(next) !! Owned(other)
  {
    OwnedAreOld(w, other);
    var name :| (Grows(w, v, name) || Quiet(w, v, name)) && (name in Owned(pc) || w.unused <= name);
    if Grows(w, v, name) { GrowsPc(w, v, name, other); } else { QuietPc(w, v, name, other); }
  }

  lemma CallStepKeepsInv(s: State, c: nat, result: (World, Pc))
    requires Inv(s) && c in s.callers && StepOk(s.world, s.callers[c].pc, result)
    ensures Inv(Put(s, c, s.callers[c].device, result))
  {
    var (v, next) := result;
    var pc := s.callers[c].pc;
    var t := Put(s, c, s.callers[c].device, result);
    forall d | d in t.callers ensures On(v, t.callers[d].device) && PcOk(v, t.callers[d].pc) {
      assert On(s.world, s.callers[d].device);
      if d != c { OtherPcOk(s.world, v, pc, next, s.callers[d].pc); }
    }
    forall i, j | i in t.callers && j in t.callers && i != j ensures Owned(t.callers[i].pc) !! Owned(t.callers[j].pc) {
      if i == c { OtherPcOk(s.world, v, pc, next, s.callers[j].pc); }
      if j == c { OtherPcOk(s.world, v, pc, next, s.callers[i].pc); }
    }
  }

  lemma GrowsCallers(w: World, v: World, callers: map<nat, Caller>)
    requires CallersOk(w, callers) && Grows(w, v, w.unused)
    ensures CallersOk(v, callers)
  {
    forall c | c in callers ensures On(v, callers[c].device) && PcOk(v, callers[c].pc) {
      OwnedAreOld(w, callers[c].pc);
      GrowsPc(w, v, w.unused, callers[c].pc);
    }
  }

  lemma IssueKeepsInv(s: State, op: nat)
    requires Inv(s) && IssueStep(s.world, op).Some?
    ensures Inv(s.(world := IssueStep(s.world, op).value))
  {
    Issuing(s.world, op, IssueStep(s.world, op).value);
    GrowsCallers(s.world, IssueStep(s.world, op).value, s.callers);
  }

  lemma StartKeepsInv(s: State, c: nat, device: Dir)
    requires Inv(s) && Step(s, Start(c, device)).Some?
    ensures Inv(Step(s, Start(c, device)).value)
  {
  }

  lemma StepKeepsInv(s: State, e: Event)
    requires Inv(s) && Step(s, e).Some? && !e.PowerLoss?
    ensures Inv(Step(s, e).value)
  {
    match e
    case Start(c, device) => StartKeepsInv(s, c, device);
    case Advance(c) =>
      NextOk(s.world, s.callers[c].device, s.callers[c].pc);
      CallStepKeepsInv(s, c, Next(s.world, s.callers[c].device, s.callers[c].pc).value);
    case ReplyLost(c) =>
      LostOk(s.world, s.callers[c].pc);
      CallStepKeepsInv(s, c, Lost(s.world, s.callers[c].pc).value);
    case Raises(c) =>
      RaisedOk(s.world, s.callers[c].pc);
      CallStepKeepsInv(s, c, (s.world, Raised(s.callers[c].pc).value));
    case Killed(c) =>
    case Issue(op) => IssueKeepsInv(s, op);
    case PowerLoss(_) =>
  }

  ghost predicate Uninterrupted(schedule: seq<Event>) { forall i :: 0 <= i < |schedule| ==> !schedule[i].PowerLoss? }

  lemma EnrolledOk()
    ensures Inv(State(Enrolled(), map[]))
  {
    assert Tail(Enrolled(), ROOT) == ROOT;
  }

  lemma {:induction false} RunKeepsInv(s: State, schedule: seq<Event>)
    requires Inv(s) && Exec(s, schedule).Some? && Uninterrupted(schedule)
    ensures Inv(Exec(s, schedule).value)
    decreases |schedule|
  {
    if schedule != [] {
      var front := schedule[..|schedule| - 1];
      RunKeepsInv(s, front);
      StepKeepsInv(Exec(s, front).value, schedule[|schedule| - 1]);
    }
  }
}
