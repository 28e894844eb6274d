/** Renewal of a device certificate on write-once files (`onboarding/device_renewal_*.py`,
    `credential_generation.py`, `atomic_private_file.py`): one event is one disk step, one
    exchange with the service, or a crash. */
module Renewal {
  import opened Outcomes

  /** A generation directory; their random names are never reused. `ROOT` is the enrolment. */
  type Dir = nat

  const ROOT: Dir := 0

  /** A certificate binds the public half of `key`; the serial stands for its fingerprint. */
  datatype Cert = Cert(key: nat, serial: nat)

  /** The content of `device-renewal-prepared.json`. */
  datatype Proposal = Proposal(op: nat, key: nat)

  /** The content of `device-renewal-<operation>.json` and of `device-renewed.json`. */
  datatype Record = Record(op: nat, parent: Cert, key: nat, cert: Cert, generation: Dir)

  /** The file `device-renewal-<op>.json` of a directory. */
  datatype Slot = Slot(dir: Dir, op: nat)

  /** A directory entry whose durability matters. */
  datatype Entry = PreparedEntry(dir: Dir) | PointerEntry(slot: Slot) | SelectedEntry(dir: Dir) | GenerationEntry(dir: Dir)

  datatype Status = Pending | Issued(cert: Cert) | Activated(cert: Cert)

  datatype Operation = Operation(key: nat, parent: Cert, status: Status)

  /** The visible files, the directory entries already forced to disk, and the service.
      `named` are the enrolment and the generations some pointer names;
      `unused` bounds every random name and key drawn so far, `serial` every certificate. */
  datatype World = World(
    prepared: map<Dir, Proposal>,
    pointers: map<Slot, Record>,
    selected: map<Dir, Record>,
    named: set<Dir>,
    parents: map<Dir, Dir>,
    certificates: map<Dir, Cert>,
    keys: map<Dir, nat>,
    synced: set<Entry>,
    ops: map<nat, Operation>,
    active: Cert,
    unused: nat,
    serial: nat)

  /** What one commit of a generation is working on. */
  datatype Commit = Commit(dir: Dir, parent: Cert, proposal: Proposal, cert: Cert, generation: Dir)

  /** Where a selection comes from: recovery, the activation reply, or the receipt read. */
  datatype Mode = Recovering | FirstTry | Retry

  datatype Pc =
    | Loading(final: bool, cur: Dir, hops: nat)
    | Reconciling(dir: Dir)
    | Asking(dir: Dir, record: Record, mode: Mode)
    | Selecting(dir: Dir, record: Record, mode: Mode)
    | SyncingSelection(dir: Dir, record: Record, mode: Mode)
    | Confirming(dir: Dir)
    | Preparing(dir: Dir)
    | LinkingPrepared(dir: Dir, proposal: Proposal)
    | SyncingPrepared(dir: Dir)
    | Posting(dir: Dir, proposal: Proposal)
    | Polling(dir: Dir, proposal: Proposal)
    | Staging(dir: Dir, proposal: Proposal, cert: Cert)
    | WritingCertificate(commit: Commit)
    | WritingKey(commit: Commit)
    | LinkingPointer(commit: Commit)
    | SyncingPointer(commit: Commit)
    | Cleaning(commit: Commit, existed: bool)
    | Checking(dir: Dir, proposal: Proposal, cert: Cert)
    | Activating(dir: Dir, record: Record)
    | Done(dir: Dir)
    | Failed

  /** One call of `renew_device_certificate` for a client whose material is in `device`. */
  datatype Caller = Caller(device: Dir, pc: Pc)

  datatype State = State(world: World, callers: map<nat, Caller>)

  datatype Event =
    | Start(c: nat, device: Dir)
    | Advance(c: nat)
    | ReplyLost(c: nat)
    | Raises(c: nat)
    | Killed(c: nat)
    | Issue(op: nat)
    | PowerLoss(lost: set<Entry>)

  const ROOT_CERT := Cert(0, 0)

  function Enrolled(): World {
    World(map[], map[], map[], {ROOT}, map[], map[ROOT := ROOT_CERT], map[ROOT := 0], {}, map[], ROOT_CERT, 1, 1)
  }

  const MAX_LOOKUPS := 64

  // --------------------------------------------------------------- files

  /** `read_device_renewal_generation`: the record fits its parent and its complete child. */
  predicate ReadsGeneration(w: World, dir: Dir, r: Record) {
    && dir in w.certificates && dir in w.keys && w.certificates[dir].key == w.keys[dir]
    && r.parent == w.certificates[dir]
    && r.generation in w.certificates && r.generation in w.keys
    && w.certificates[r.generation] == r.cert && w.keys[r.generation] == r.key
    && r.cert.key == r.key && r.key != w.keys[dir]
  }

  /** One lookup of `_load` finds a valid successor. */
  predicate Follows(w: World, dir: Dir) {
    && dir in w.selected
    && ReadsGeneration(w, dir, w.selected[dir])
    && Slot(dir, w.selected[dir].op) in w.pointers
    && w.pointers[Slot(dir, w.selected[dir].op)] == w.selected[dir]
  }

  predicate Material(w: World, dir: Dir) {
    dir in w.certificates && dir in w.keys && w.certificates[dir].key == w.keys[dir]
  }

  function PointersIn(w: World, dir: Dir): set<Slot> { set slot | slot in w.pointers && slot.dir == dir }

  /** `sync_directory` makes the entries a directory has at that moment durable. */
  function Sync(w: World, dir: Dir): World {
    w.(synced := w.synced
       + (set d | d in w.prepared && d == dir :: PreparedEntry(d))
       + (set slot | slot in w.pointers && slot.dir == dir :: PointerEntry(slot))
       + (set d | d in w.selected && d == dir :: SelectedEntry(d))
       + (set d | d in w.parents && w.parents[d] == dir :: GenerationEntry(d)))
  }

  function RecordOf(k: Commit): Record { Record(k.proposal.op, k.parent, k.proposal.key, k.cert, k.generation) }

  // ------------------------------------------------------------- service

  /** The service takes a proposal from the holder of the active certificate. */
  predicate Accepts(w: World, dir: Dir, p: Proposal) {
    && dir in w.certificates && w.certificates[dir] == w.active
    && (p.op in w.ops ==> w.ops[p.op].key == p.key && !w.ops[p.op].status.Activated?)
  }

  function Post(w: World, dir: Dir, p: Proposal): World {
    if Accepts(w, dir, p) && p.op !in w.ops then w.(ops := w.ops[p.op := Operation(p.key, w.active, Pending)]) else w
  }

  predicate Receipt(w: World, r: Record) {
    r.op in w.ops && w.ops[r.op].status == Activated(r.cert)
  }

  /** Activation, asked for over the issued certificate while its parent is active. */
  function Activate(w: World, r: Record): World {
    if r.op in w.ops && w.ops[r.op].status == Issued(r.cert) && w.ops[r.op].parent == w.active then
      w.(ops := w.ops[r.op := w.ops[r.op].(status := Activated(r.cert))], active := r.cert)
    else w
  }

  // ---------------------------------------------------------------- calls

  function AfterSelection(r: Record, mode: Mode): Pc {
    if mode.Recovering? then Loading(true, r.generation, 0) else Done(r.generation)
  }

  function SelectionFails(dir: Dir, r: Record, mode: Mode): Pc {
    if mode.FirstTry? then Asking(dir, r, Retry) else Failed
  }

  function LoadStep(w: World, device: Dir, final: bool, cur: Dir, hops: nat): Pc {
    if hops == MAX_LOOKUPS then Failed
    else if cur in w.selected then
      if Follows(w, cur) then Loading(final, w.selected[cur].generation, hops + 1) else Failed
    else if !Material(w, cur) then Failed
    else if !final then Reconciling(cur)
    else if cur != device then Confirming(cur)
    else Preparing(cur)
  }

  /** `retained_device_candidate`. */
  function ReconcileStep(w: World, dir: Dir): Pc {
    if PointersIn(w, dir) == {} then Loading(true, dir, 0)
    else if |PointersIn(w, dir)| > 1 || dir !in w.prepared then Failed
    else
      var p := w.prepared[dir];
      var slot := Slot(dir, p.op);
      if slot in w.pointers && ReadsGeneration(w, dir, w.pointers[slot]) && w.pointers[slot].op == p.op && w.pointers[slot].key == p.key
      then Asking(dir, w.pointers[slot], Recovering)
      else Failed
  }

  function SelectStep(w: World, dir: Dir, r: Record, mode: Mode): (World, Pc) {
    if !(Slot(dir, r.op) in w.pointers && w.pointers[Slot(dir, r.op)] == r && ReadsGeneration(w, dir, r)) then
      (w, SelectionFails(dir, r, mode))
    else if dir !in w.selected then (w.(selected := w.selected[dir := r]), SyncingSelection(dir, r, mode))
    else if w.selected[dir] == r then (w, AfterSelection(r, mode))
    else (w, SelectionFails(dir, r, mode))
  }

  function PrepareStep(w: World, dir: Dir): (World, Pc) {
    if dir in w.prepared then (w, Posting(dir, w.prepared[dir]))
    else (w.(unused := w.unused + 2), LinkingPrepared(dir, Proposal(w.unused, w.unused + 1)))
  }

  function LinkPreparedStep(w: World, dir: Dir, p: Proposal): (World, Pc) {
    if dir in w.prepared then (w, Posting(dir, w.prepared[dir]))
    else (w.(prepared := w.prepared[dir := p]), SyncingPrepared(dir))
  }

  function PollStep(w: World, dir: Dir, p: Proposal): Option<Pc> {
    if p.op !in w.ops then Some(Failed)
    else
      match w.ops[p.op].status
      case Pending => None
      case Issued(cert) => Some(Staging(dir, p, cert))
      case Activated(_) => Some(Failed)
  }

  function StageStep(w: World, dir: Dir, p: Proposal, cert: Cert): (World, Pc) {
    if dir !in w.prepared || w.prepared[dir] != p || dir !in w.certificates || cert.key != p.key then (w, Failed)
    else if Slot(dir, p.op) in w.pointers then (w, Checking(dir, p, cert))
    else (w.(parents := w.parents[w.unused := dir], unused := w.unused + 1), WritingCertificate(Commit(dir, w.certificates[dir], p, cert, w.unused)))
  }

  function CheckStep(w: World, dir: Dir, p: Proposal, cert: Cert): Pc {
    var slot := Slot(dir, p.op);
    if slot in w.pointers && w.pointers[slot].cert == cert && w.pointers[slot].op == p.op && w.pointers[slot].key == p.key
       && ReadsGeneration(w, dir, w.pointers[slot])
    then Activating(dir, w.pointers[slot])
    else Failed
  }

  function AfterCleaning(k: Commit, existed: bool): Pc {
    if existed then Checking(k.dir, k.proposal, k.cert) else Failed
  }

  /** The pointer read back names this commit's own generation. */
  predicate Committed(w: World, k: Commit) {
    Slot(k.dir, k.proposal.op) in w.pointers && w.pointers[Slot(k.dir, k.proposal.op)].generation == k.generation
  }

  function Remove(w: World, dir: Dir): World {
    w.(certificates := w.certificates - {dir}, keys := w.keys - {dir}, parents := w.parents - {dir})
  }

  function LinkPointer(w: World, k: Commit): World {
    w.(pointers := w.pointers[Slot(k.dir, k.proposal.op) := RecordOf(k)], named := w.named + {k.generation})
  }

  /** The steps inside `commit_credential_generation`. */
  function CommitStep(w: World, pc: Pc): (World, Pc)
    requires pc.WritingCertificate? || pc.WritingKey? || pc.LinkingPointer? || pc.SyncingPointer? || pc.Cleaning?
  {
    var k := pc.commit;
    match pc
    case WritingCertificate(_) => (w.(certificates := w.certificates[k.generation := k.cert]), WritingKey(k))
    case WritingKey(_) => (w.(keys := w.keys[k.generation := k.proposal.key]), LinkingPointer(k))
    case LinkingPointer(_) =>
      if Slot(k.dir, k.proposal.op) in w.pointers then (w, Cleaning(k, true))
      else (LinkPointer(w, k), SyncingPointer(k))
    case SyncingPointer(_) => (Sync(w, k.dir), Checking(k.dir, k.proposal, k.cert))
    case Cleaning(_, existed) =>
      (if Committed(w, k) then w else Remove(w, k.generation), AfterCleaning(k, existed))
  }

  /** The next step of a call when nothing goes wrong; `None` once it has ended or while the
      certificate is not issued. */
  function Next(w: World, device: Dir, pc: Pc): Option<(World, Pc)> {
    match pc
    case Loading(final, cur, hops) => Some((w, LoadStep(w, device, final, cur, hops)))
    case Reconciling(dir) => Some((w, ReconcileStep(w, dir)))
    case Asking(dir, r, mode) =>
      Some((w, if Receipt(w, r) then Selecting(dir, r, mode)
               else if mode.Recovering? then Loading(true, dir, 0) else Failed))
    case Selecting(dir, r, mode) => Some(SelectStep(w, dir, r, mode))
    case SyncingSelection(dir, r, mode) => Some((Sync(w, dir), AfterSelection(r, mode)))
    case Confirming(dir) => Some((w, if dir in w.certificates && w.certificates[dir] == w.active then Done(dir) else Failed))
    case Preparing(dir) => Some(PrepareStep(w, dir))
    case LinkingPrepared(dir, p) => Some(LinkPreparedStep(w, dir, p))
    case SyncingPrepared(dir) => Some((Sync(w, dir), if dir in w.prepared then Posting(dir, w.prepared[dir]) else Failed))
    case Posting(dir, p) => Some((Post(w, dir, p), if Accepts(w, dir, p) then Polling(dir, p) else Failed))
    case Polling(dir, p) =>
      (match PollStep(w, dir, p)
       case None => None
       case Some(next) => Some((w, next)))
    case Staging(dir, p, cert) => Some(StageStep(w, dir, p, cert))
    case Checking(dir, p, cert) => Some((w, CheckStep(w, dir, p, cert)))
    case Activating(dir, r) =>
      var after := Activate(w, r);
      Some((after, if Receipt(after, r) then Selecting(dir, r, FirstTry) else Asking(dir, r, Retry)))
    case Done(_) | Failed => None
    case _ => Some(CommitStep(w, pc))
  }

  /** An exchange whose reply is lost: the service has acted, the call has not learnt it. */
  function Lost(w: World, pc: Pc): Option<(World, Pc)> {
    match pc
    case Posting(dir, p) => Some((Post(w, dir, p), Failed))
    case Activating(dir, r) => Some((Activate(w, r), Asking(dir, r, Retry)))
    case Asking(_, _, _) | Confirming(_) | Polling(_, _) => Some((w, Failed))
    case _ => None
  }

  /** A local step that raises without effect: a disk error, expired material. */
  function Raised(pc: Pc): Option<Pc> {
    match pc
    case Done(_) | Failed => None
    case WritingCertificate(k) => Some(Cleaning(k, false))
    case WritingKey(k) => Some(Cleaning(k, false))
    case LinkingPointer(k) => Some(Cleaning(k, false))
    case SyncingPointer(k) => Some(Cleaning(k, false))
    case Cleaning(k, existed) => Some(AfterCleaning(k, existed))
    case Selecting(dir, r, mode) => Some(SelectionFails(dir, r, mode))
    case SyncingSelection(dir, r, mode) => Some(SelectionFails(dir, r, mode))
    case Activating(dir, r) => Some(Asking(dir, r, Retry))
    case _ => Some(Failed)
  }

  function IssueStep(w: World, op: nat): Option<World> {
    if op in w.ops && w.ops[op].status.Pending? then
      var cert := Cert(w.ops[op].key, w.serial);
      Some(w.(ops := w.ops[op := w.ops[op].(status := Issued(cert))], serial := w.serial + 1))
    else None
  }

  /** A power failure: entries not yet forced to disk may be gone. */
  function Outage(w: World, lost: set<Entry>): World {
    var gone := set d | d in w.parents && GenerationEntry(d) in lost :: d;
    var pointers := map slot | slot in w.pointers && PointerEntry(slot) !in lost :: w.pointers[slot];
    w.(prepared := map d | d in w.prepared && PreparedEntry(d) !in lost :: w.prepared[d],
       pointers := pointers,
       named := {ROOT} + set slot | slot in pointers :: pointers[slot].generation,
       selected := map d | d in w.selected && SelectedEntry(d) !in lost :: w.selected[d],
       parents := w.parents - gone, certificates := w.certificates - gone, keys := w.keys - gone)
  }

  function Put(s: State, c: nat, device: Dir, result: (World, Pc)): State {
    State(result.0, s.callers[c := Caller(device, result.1)])
  }

  function Step(s: State, e: Event): Option<State> {
    match e
    case Start(c, device) =>
      if c !in s.callers && Tail(s.world, device) == Tail(s.world, ROOT) && device in s.world.named then
        Some(Put(s, c, device, (s.world, Loading(false, device, 0))))
      else None
    case Advance(c) =>
      if c !in s.callers then None
      else
        (match Next(s.world, s.callers[c].device, s.callers[c].pc)
         case None => None
         case Some(result) => Some(Put(s, c, s.callers[c].device, result)))
    case ReplyLost(c) =>
      if c !in s.callers then None
      else
        (match Lost(s.world, s.callers[c].pc)
         case None => None
         case Some(result) => Some(Put(s, c, s.callers[c].device, result)))
    case Raises(c) =>
      if c !in s.callers then None
      else
        (match Raised(s.callers[c].pc)
         case None => None
         case Some(pc) => Some(Put(s, c, s.callers[c].device, (s.world, pc))))
    case Killed(c) => if c in s.callers then Some(s.(callers := s.callers - {c})) else None
    case Issue(op) =>
      (match IssueStep(s.world, op)
       case None => None
       case Some(w) => Some(s.(world := w)))
    case PowerLoss(lost) =>
      if lost !! s.world.synced then Some(State(Outage(s.world, lost), map[])) else None
  }

  function Exec(s: State, schedule: seq<Event>): Option<State>
    decreases |schedule|
  {
    if schedule == [] then Some(s)
    else
      match Exec(s, schedule[..|schedule| - 1])
      case None => None
      case Some(before) => Step(before, schedule[|schedule| - 1])
  }

  // ------------------------------------------------------------- the chain

  /** The end of the selected chain; names only grow along it. */
  function Tail(w: World, dir: Dir): (tail: Dir)
    ensures tail >= dir
    decreases w.unused - dir
  {
    if dir in w.selected && dir < w.selected[dir].generation < w.unused then Tail(w, w.selected[dir].generation) else dir
  }
}
