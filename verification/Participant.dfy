/** The receiver, certificate rotation and lifecycle of a connected participant
    (`connected/participant_receiver.py`, `participant_rotation.py`, `participant.py`).

    Every event is one section between two awaits of one of its tasks: a receive call that
    holds the receive lock, a received delivery, a rotation, or a start, stop or reload. At
    most one receive call is past the gate and at most one rotation is unfinished, so that the
    state needs one claim and a map of tasks. Any task may be cancelled between its events. */
module Participant {
  import opened Outcomes

  /** Where the holder of `_receive_lock` stands. Any number of `_receive_once` calls may wait
      for that lock; they have done nothing yet. `pause` marks a rotation control message. */
  datatype Phase =
    | AwaitEnabled
    | Blocked(watched: set<nat>)
    | Registering
    | Requesting
    | Rejecting
    | Validating(pause: bool)
    | Acking(pause: bool)

  /** `byLoop`: the call was made by the receive loop and not directly. */
  datatype Claim = Free | Held(byLoop: bool, phase: Phase)

  datatype RotationPhase =
    | Created
    | Draining(watched: set<nat>)
    | DrainRequest
    | Issuing
    | Activating
    | Reconnecting
    | Restoring(report: bool)
    | JoiningRenewal(report: bool)
    | Reporting
    | Unwinding

  datatype Task =
    | Process(running: bool, cancelling: bool)
    | Rotation(phase: RotationPhase, cancelling: bool)
    | Finished

  /** What `_stop_locked` was called for. */
  datatype Purpose = Halt | Reload(restart: bool)

  datatype Lifecycle =
    | Down
    | Starting
    | Up
    | JoiningLoops(purpose: Purpose)
    | Waiting(watched: set<nat>, purpose: Purpose)
    | Joining(watched: set<nat>, purpose: Purpose)

  /** `tasks` are the receiver-spawned delivery tasks, `fromLoop` those the receive loop
      spawned. `claims` counts receive requests and `session` the sessions installed.
      `stranded` records that a rotation was cancelled before it could report. */
  datatype State = State(
    max: nat,
    claim: Claim,
    enabled: bool,
    stop: bool,
    tasks: map<nat, Task>,
    fromLoop: set<nat>,
    next: nat,
    permits: nat,
    loops: bool,
    lifecycle: Lifecycle,
    session: nat,
    claims: nat,
    stranded: bool)

  datatype Received = Nothing | Unsupported | Operation | Rotate

  datatype Validation = Valid | Invalid | Failed

  datatype Progress = Proceed | Fail(retryable: bool) | InstallFails

  datatype Event =
    | ReceiveCalled(byLoop: bool)
    | ClaimResumes
    | Registered(ok: bool)
    | Response(received: Received)
    | Rejected
    | Validated(validation: Validation)
    | Acknowledged(ok: bool)
    | ClaimCancelled
    | ProcessStarts(id: nat)
    | ProcessEnds(id: nat)
    | RotationResumes(id: nat, progress: Progress)
    | RotationAborts(id: nat)
    | CancelTask(id: nat)
    | StopRequested
    | StartRequested
    | StartEnds(ok: bool)
    | CleanupRequested(purpose: Purpose)
    | LoopsJoined
    | GraceEnds
    | CleanupEnds(completed: bool)

  function Initial(maxConcurrency: int): State {
    var max := if maxConcurrency < 1 then 1 else maxConcurrency;
    State(max, Free, true, false, map[], {}, 0, max, false, Down, 0, 0, false)
  }

  function Unfinished(s: State): set<nat> { set id | id in s.tasks && !s.tasks[id].Finished? }

  function Running(s: State): set<nat> { set id | id in s.tasks && s.tasks[id].Process? && s.tasks[id].running }

  predicate Over(s: State, ids: set<nat>) { forall id :: id in ids && id in s.tasks ==> s.tasks[id].Finished? }

  // ------------------------------------------------------------------ receiver

  function To(s: State, phase: Phase): State
    requires s.claim.Held?
  {
    s.(claim := s.claim.(phase := phase))
  }

  /** One pass of the admission loop. */
  function Admit(s: State): State
    requires s.claim.Held?
  {
    if s.stop then s.(claim := Free)
    else if |Unfinished(s)| < s.max then To(s, Registering)
    else To(s, Blocked(Unfinished(s)))
  }

  function Spawn(s: State, task: Task): State
    requires s.claim.Held?
  {
    s.(tasks := s.tasks[s.next := task], next := s.next + 1, claim := Free,
       fromLoop := if s.claim.byLoop then s.fromLoop + {s.next} else s.fromLoop)
  }

  /** Any exception inside the claim; one raised while acknowledging a pause re-enables. */
  function Abandon(s: State): State
    requires s.claim.Held?
  {
    s.(claim := Free, enabled := s.enabled || s.claim.phase == Acking(true))
  }

  /** What wakes the two waits of the admission loop. */
  predicate MayResume(s: State, phase: Phase) {
    match phase
    case AwaitEnabled => s.enabled
    case Blocked(watched) => exists id :: id in watched && id in s.tasks && s.tasks[id].Finished?
    case _ => false
  }

  function AfterResponse(s: State, received: Received): State
    requires s.claim.Held?
  {
    match received
    case Nothing => Abandon(s)
    case Unsupported => To(s, Rejecting)
    case Operation => To(s, Validating(false))
    case Rotate => To(s, Validating(true))
  }

  function AfterValidation(s: State, pause: bool, validation: Validation): State
    requires s.claim.Held?
  {
    match validation
    case Valid => To(s, Acking(pause)).(enabled := s.enabled && !pause)
    case Invalid => To(s, Rejecting)
    case Failed => Abandon(s)
  }

  function AfterAcknowledgement(s: State, pause: bool, ok: bool): State
    requires s.claim.Held?
  {
    if ok then Spawn(s, if pause then Rotation(Created, false) else Process(false, false)) else Abandon(s)
  }

  /** What the holder of the lock does next. */
  function ClaimStep(s: State, e: Event): Option<State>
    requires s.claim.Held?
  {
    var phase := s.claim.phase;
    match e
    case ClaimResumes => if MayResume(s, phase) then Some(Admit(s)) else None
    case Registered(ok) =>
      if !phase.Registering? then None
      else if ok then Some(To(s, Requesting).(claims := s.claims + 1))
      else Some(Abandon(s))
    case Response(received) => if phase.Requesting? then Some(AfterResponse(s, received)) else None
    case Rejected => if phase.Rejecting? then Some(Abandon(s)) else None
    case Validated(validation) => if phase.Validating? then Some(AfterValidation(s, phase.pause, validation)) else None
    case Acknowledged(ok) => if phase.Acking? then Some(AfterAcknowledgement(s, phase.pause, ok)) else None
    case ClaimCancelled => Some(Abandon(s))
    case _ => None
  }

  function ReceiverStep(s: State, e: Event): Option<State> {
    if s.claim.Held? then ClaimStep(s, e)
    else if e.ReceiveCalled? && (e.byLoop ==> s.loops) then Some(s.(claim := Held(e.byLoop, AwaitEnabled)))
    else None
  }

  // ---------------------------------------------------------------- deliveries

  function Put(s: State, id: nat, task: Task): State { s.(tasks := s.tasks[id := task]) }

  function ProcessStep(s: State, id: nat, starts: bool): Option<State> {
    if id !in s.tasks || !s.tasks[id].Process? then None
    else
      var task := s.tasks[id];
      if starts then
        if !task.running && !task.cancelling && s.permits > 0 then
          Some(Put(s, id, Process(true, false)).(permits := s.permits - 1))
        else None
      else if task.running then Some(Put(s, id, Finished).(permits := s.permits + 1))
      else if task.cancelling then Some(Put(s, id, Finished))
      else None
  }

  /** The last statement of `_process_certificate_rotation`. */
  function Reenable(s: State, id: nat): State { Put(s, id, Finished).(enabled := true) }

  function RotationTo(s: State, id: nat, phase: RotationPhase): State { Put(s, id, Rotation(phase, false)) }

  function Others(s: State, id: nat): set<nat> { Unfinished(s) - {id} }

  function RotationProceeds(s: State, id: nat, phase: RotationPhase): Option<State> {
    match phase
    case Created =>
      Some(RotationTo(s, id, if Others(s, id) == {} then DrainRequest else Draining(Others(s, id))))
    case Draining(watched) => if Over(s, watched) then Some(RotationTo(s, id, DrainRequest)) else None
    case DrainRequest => Some(RotationTo(s, id, Issuing))
    case Issuing => Some(RotationTo(s, id, Activating))
    case Activating => Some(RotationTo(s, id, Reconnecting).(session := s.session + 1))
    case Reconnecting => Some(RotationTo(s, id, JoiningRenewal(false)))
    case Restoring(report) => Some(RotationTo(s, id, JoiningRenewal(report)))
    case JoiningRenewal(report) => Some(if report then RotationTo(s, id, Reporting) else Reenable(s, id))
    case Reporting => Some(Reenable(s, id))
    case Unwinding => None
  }

  /** A failure is reported unless it is temporary; one after activation is only logged. */
  function RotationFails(s: State, id: nat, phase: RotationPhase, retryable: bool): Option<State> {
    match phase
    case Created | DrainRequest | Issuing | Activating => Some(RotationTo(s, id, Restoring(!retryable)))
    case Draining(watched) => if Over(s, watched) then None else Some(RotationTo(s, id, Restoring(true)))
    case Reconnecting => Some(RotationTo(s, id, JoiningRenewal(false)))
    case Restoring(report) => Some(RotationTo(s, id, JoiningRenewal(report)))
    case Reporting => Some(Reenable(s, id))
    case _ => None
  }

  function RotationStep(s: State, id: nat, progress: Progress): Option<State> {
    if id !in s.tasks || !s.tasks[id].Rotation? || s.tasks[id].cancelling then None
    else
      var phase := s.tasks[id].phase;
      match progress
      case Proceed => RotationProceeds(s, id, phase)
      case Fail(retryable) => RotationFails(s, id, phase, retryable)
      case InstallFails => if phase.Activating? then Some(RotationTo(s, id, JoiningRenewal(false))) else None
  }

  /** A cancellation reaching the rotation. Only the one that meets the final report passes
      through the statement that re-enables receiving. */
  function RotationAbort(s: State, id: nat): Option<State> {
    if id !in s.tasks || !s.tasks[id].Rotation? then None
    else
      var task := s.tasks[id];
      if task.phase.Unwinding? || (task.cancelling && (task.phase.Created? || task.phase.JoiningRenewal?)) then
        Some(Put(s, id, Finished).(stranded := true))
      else if !task.cancelling then None
      else if task.phase.Reporting? then Some(Reenable(s, id))
      else Some(Put(s, id, Rotation(Unwinding, true)))
  }

  function Cancelled(task: Task): Task {
    match task
    case Process(running, _) => Process(running, true)
    case Rotation(phase, _) => Rotation(phase, true)
    case Finished => Finished
  }

  function DeliveryStep(s: State, e: Event): Option<State> {
    match e
    case ProcessStarts(id) => ProcessStep(s, id, true)
    case ProcessEnds(id) => ProcessStep(s, id, false)
    case RotationResumes(id, progress) => RotationStep(s, id, progress)
    case RotationAborts(id) => RotationAbort(s, id)
    case CancelTask(id) => if id in s.tasks then Some(Put(s, id, Cancelled(s.tasks[id]))) else None
    case _ => None
  }

  // ----------------------------------------------------------------- lifecycle

  function CancelAll(s: State, ids: set<nat>): State {
    s.(tasks := map id | id in s.tasks :: if id in ids then Cancelled(s.tasks[id]) else s.tasks[id])
  }

  function Begin(s: State): State { s.(lifecycle := Starting, stop := false) }

  /** `_stop_locked` runs under the lifecycle lock; only a started participant restarts. */
  predicate MayClean(s: State, purpose: Purpose) {
    match s.lifecycle
    case Down => purpose != Reload(true)
    case Up => purpose != Reload(false)
    case _ => false
  }

  function AfterCleanup(s: State, purpose: Purpose, completed: bool): State {
    if !completed || purpose.Halt? then s.(lifecycle := Down)
    else
      var swapped := s.(session := s.session + 1);
      if purpose.restart then Begin(swapped) else swapped.(lifecycle := Down)
  }

  function LifecycleStep(s: State, e: Event): Option<State> {
    match e
    case StopRequested => Some(s.(stop := true))
    case StartRequested => if s.lifecycle.Down? then Some(Begin(s)) else None
    case StartEnds(ok) =>
      if !s.lifecycle.Starting? then None
      else if ok then Some(s.(lifecycle := Up, loops := true))
      else Some(s.(lifecycle := JoiningLoops(Halt), stop := true))
    case CleanupRequested(purpose) =>
      if MayClean(s, purpose) then Some(s.(lifecycle := JoiningLoops(purpose), stop := true)) else None
    case LoopsJoined =>
      if !s.lifecycle.JoiningLoops? || (s.claim.Held? && s.claim.byLoop) then None
      else Some(s.(loops := false, lifecycle := Waiting(Unfinished(s), s.lifecycle.purpose)))
    case GraceEnds =>
      if !s.lifecycle.Waiting? then None
      else Some(CancelAll(s, s.lifecycle.watched).(lifecycle := Joining(s.lifecycle.watched, s.lifecycle.purpose)))
    case CleanupEnds(completed) =>
      if !s.lifecycle.Joining? || !Over(s, s.lifecycle.watched) then None
      else Some(AfterCleanup(s, s.lifecycle.purpose, completed))
    case _ => None
  }

  predicate ReceiverEvent(e: Event) {
    e.ReceiveCalled? || e.ClaimResumes? || e.Registered? || e.Response? || e.Rejected? || e.Validated? ||
    e.Acknowledged? || e.ClaimCancelled?
  }

  predicate DeliveryEvent(e: Event) {
    e.ProcessStarts? || e.ProcessEnds? || e.RotationResumes? || e.RotationAborts? || e.CancelTask?
  }

  function Step(s: State, e: Event): Option<State> {
    if ReceiverEvent(e) then ReceiverStep(s, e)
    else if DeliveryEvent(e) then DeliveryStep(s, e)
    else LifecycleStep(s, e)
  }

  function Exec(s: State, schedule: seq<Event>): Option<State>
    decreases |schedule|
  {
    if schedule == [] then Some(s)
    else
      match Exec(s, schedule[..|schedule| - 1])
      case None => None
      case Some(before) => Step(before, schedule[|schedule| - 1])
  }

  // ---------------------------------------------------------------- invariants

  /** The holder of the lock has passed the receive gate. */
  predicate PastGate(s: State) { s.claim.Held? && !s.claim.phase.AwaitEnabled? }

  predicate Admitted(s: State) { PastGate(s) && !s.claim.phase.Blocked? }

  predicate Pausing(s: State) { s.claim.Held? && s.claim.phase == Acking(true) }

  predicate UnfinishedRotation(s: State, id: nat) { id in s.tasks && s.tasks[id].Rotation? }

  /** Admission: fewer than `max` unfinished deliveries whenever one may still be added. */
  predicate Bounded(s: State) {
    && |Unfinished(s)| <= s.max
    && (Admitted(s) ==> |Unfinished(s)| < s.max)
    && s.permits + |Running(s)| == s.max
    && (forall id :: id in s.tasks ==> id < s.next)
    && (forall id :: id in s.fromLoop ==> id in s.tasks)
  }

  /** The receive gate is closed exactly while a pause is being acknowledged, while a rotation
      is unfinished, or after one was stranded; these exclude each other. */
  ghost predicate Gated(s: State) {
    && (Pausing(s) || s.stranded ==> !s.enabled)
    && (forall id :: UnfinishedRotation(s, id) ==> !s.enabled && !s.stranded && !PastGate(s))
    && (forall i, j :: UnfinishedRotation(s, i) && UnfinishedRotation(s, j) ==> i == j)
    && (s.stranded ==> !PastGate(s))
    && (!s.enabled && !Pausing(s) && !s.stranded ==> exists id :: UnfinishedRotation(s, id))
  }

  predicate Drained(phase: RotationPhase) {
    phase.DrainRequest? || phase.Issuing? || phase.Activating? || phase.Reconnecting?
  }

  /** A rotation past its drain has no company; one still draining watches all of it. */
  ghost predicate Exclusive(s: State) {
    forall id :: UnfinishedRotation(s, id) ==>
      && (Drained(s.tasks[id].phase) ==> Others(s, id) == {})
      && (s.tasks[id].phase.Draining? ==> Others(s, id) <= s.tasks[id].phase.watched && id !in s.tasks[id].phase.watched)
      && (s.tasks[id].phase.Unwinding? ==> s.tasks[id].cancelling)
  }

  /** The receive loop and what it spawned, through stop and restart. */
  predicate Looped(s: State) {
    && (s.loops ==> s.lifecycle.Up? || s.lifecycle.JoiningLoops?)
    && (s.claim.Held? && s.claim.byLoop ==> s.loops)
    && (s.lifecycle.Down? || s.lifecycle.Starting? ==> Unfinished(s) !! s.fromLoop)
    && (s.lifecycle.Waiting? || s.lifecycle.Joining? ==> Unfinished(s) * s.fromLoop <= s.lifecycle.watched)
  }

  ghost predicate Inv(s: State) { Bounded(s) && Gated(s) && Exclusive(s) && Looped(s) }

  // --------------------------------------------------------------- preservation

  lemma Finishing(s: State, id: nat)
    requires id in s.tasks && !s.tasks[id].Finished?
    ensures Unfinished(Put(s, id, Finished)) == Unfinished(s) - {id} && |Unfinished(Put(s, id, Finished))| == |Unfinished(s)| - 1
    ensures id in Running(s) ==> Running(Put(s, id, Finished)) == Running(s) - {id} && |Running(Put(s, id, Finished))| == |Running(s)| - 1
    ensures id !in Running(s) ==> Running(Put(s, id, Finished)) == Running(s)
  {
    assert Unfinished(Put(s, id, Finished)) == Unfinished(s) - {id};
    if id in Running(s) {
      assert Running(Put(s, id, Finished)) == Running(s) - {id};
    } else {
      assert Running(Put(s, id, Finished)) == Running(s);
    }
  }

  lemma Changing(s: State, id: nat, task: Task)
    requires id in s.tasks && !s.tasks[id].Finished? && !task.Finished?
    requires task.Process? == s.tasks[id].Process? && (task.Process? ==> task.running == s.tasks[id].running)
    ensures Unfinished(Put(s, id, task)) == Unfinished(s) && Running(Put(s, id, task)) == Running(s)
  {
  }

  lemma Permitting(s: State, id: nat)
    requires id in s.tasks && s.tasks[id] == Process(false, false)
    ensures Unfinished(Put(s, id, Process(true, false))) == Unfinished(s)
    ensures |Running(Put(s, id, Process(true, false)))| == |Running(s)| + 1
  {
    assert Running(Put(s, id, Process(true, false))) == Running(s) + {id};
  }

  lemma Spawning(s: State, task: Task)
    requires s.claim.Held? && s.next !in s.tasks && !task.Finished? && (task.Process? ==> !task.running)
    ensures Unfinished(Spawn(s, task)) == Unfinished(s) + {s.next} && |Unfinished(Spawn(s, task))| == |Unfinished(s)| + 1
    ensures Running(Spawn(s, task)) == Running(s)
  {
    assert Unfinished(Spawn(s, task)) == Unfinished(s) + {s.next};
    assert Running(Spawn(s, task)) == Running(s);
  }

  lemma SpawnKeepsInv(s: State, task: Task)
    requires Inv(s) && Admitted(s) && s.claim.phase.Acking?
    requires task == if s.claim.phase.pause then Rotation(Created, false) else Process(false, false)
    ensures Inv(Spawn(s, task))
  {
    Spawning(s, task);
    var t := Spawn(s, task);
    assert t.tasks[s.next] == task;
    assert forall id :: UnfinishedRotation(t, id) && id != s.next ==> UnfinishedRotation(s, id);
    assert s.claim.phase.pause || s.enabled;
    assert s.claim.phase.pause ==> UnfinishedRotation(t, s.next);
  }

  /** What the invariant says depends on the tasks only through these. */
  lemma SameTasks(s: State, t: State)
    requires Inv(s) && t.tasks == s.tasks && t.max == s.max && t.permits == s.permits && t.next == s.next
    requires t.fromLoop == s.fromLoop && t.stranded == s.stranded
    requires Admitted(t) ==> |Unfinished(s)| < s.max
    requires PastGate(t) ==> PastGate(s) || s.enabled
    requires if Pausing(t) then !t.enabled && PastGate(s) else t.enabled == (s.enabled || Pausing(s))
    requires Looped(t)
    ensures Inv(t)
  {
    assert Unfinished(t) == Unfinished(s) && Running(t) == Running(s);
    assert forall id :: UnfinishedRotation(t, id) <==> UnfinishedRotation(s, id);
    assert forall id :: UnfinishedRotation(s, id) ==> Others(t, id) == Others(s, id);
  }

  lemma AdmitKeepsInv(s: State)
    requires Inv(s) && s.claim.Held? && (s.enabled || PastGate(s)) && !Pausing(s)
    ensures Inv(Admit(s))
  {
    assert Unfinished(Admit(s)) == Unfinished(s);
    SameTasks(s, Admit(s));
  }

  lemma AbandonKeepsInv(s: State)
    requires Inv(s) && s.claim.Held?
    ensures Inv(Abandon(s))
  {
    assert Unfinished(Abandon(s)) == Unfinished(s);
    SameTasks(s, Abandon(s));
  }

  lemma ToKeepsInv(s: State, t: State)
    requires Inv(s) && s.claim.Held? && Admitted(s) && t.claim.Held? && !Pausing(s)
    requires t == To(s, t.claim.phase).(claims := t.claims, enabled := t.enabled)
    requires t.enabled == (s.enabled && t.claim.phase != Acking(true))
    ensures Inv(t)
  {
    assert Unfinished(t) == Unfinished(s);
    SameTasks(s, t);
  }

  lemma CalledKeepsInv(s: State, e: Event)
    requires Inv(s) && s.claim.Free? && ReceiverStep(s, e).Some?
    ensures Inv(ReceiverStep(s, e).value)
  {
    var t := ReceiverStep(s, e).value;
    assert Unfinished(t) == Unfinished(s);
    SameTasks(s, t);
  }

  /** The steps of a claim that only move it to another phase. */
  lemma ClaimMoves(s: State, e: Event)
    requires s.claim.Held? && ClaimStep(s, e).Some? && ClaimStep(s, e).value != Abandon(s)
    requires !e.ClaimResumes? && !e.Acknowledged?
    ensures var t := ClaimStep(s, e).value;
      && Admitted(s) && !Pausing(s) && t.claim.Held? && t == To(s, t.claim.phase).(claims := t.claims, enabled := t.enabled)
      && t.enabled == (s.enabled && t.claim.phase != Acking(true))
  {
    if e.Response? { ResponseMoves(s, e.received); }
    else if e.Validated? { ValidationMoves(s, s.claim.phase.pause, e.validation); }
  }

  lemma ResponseMoves(s: State, received: Received)
    requires s.claim.Held? && AfterResponse(s, received) != Abandon(s)
    ensures var t := AfterResponse(s, received); t.claim.Held? && !t.claim.phase.Acking? && t == To(s, t.claim.phase)
  {
  }

  lemma ValidationMoves(s: State, pause: bool, validation: Validation)
    requires s.claim.Held? && AfterValidation(s, pause, validation) != Abandon(s)
    ensures var t := AfterValidation(s, pause, validation);
      && t.claim.Held? && t == To(s, t.claim.phase).(enabled := t.enabled)
      && t.enabled == (s.enabled && t.claim.phase != Acking(true))
  {
  }

  lemma ClaimStepKeepsInv(s: State, e: Event)
    requires Inv(s) && s.claim.Held? && ClaimStep(s, e).Some?
    ensures Inv(ClaimStep(s, e).value)
  {
    if ClaimStep(s, e).value == Abandon(s) {
      AbandonKeepsInv(s);
    } else if e.ClaimResumes? {
      AdmitKeepsInv(s);
    } else if e.Acknowledged? {
      SpawnKeepsInv(s, if s.claim.phase.pause then Rotation(Created, false) else Process(false, false));
    } else {
      ClaimMoves(s, e);
      ToKeepsInv(s, ClaimStep(s, e).value);
    }
  }

  lemma ReceiverStepKeepsInv(s: State, e: Event)
    requires Inv(s) && ReceiverEvent(e) && Step(s, e).Some?
    ensures Inv(Step(s, e).value)
  {
    if s.claim.Free? { CalledKeepsInv(s, e); } else { ClaimStepKeepsInv(s, e); }
  }

  lemma ProcessKeepsInv(s: State, id: nat, t: State)
    requires Inv(s) && id in s.tasks && s.tasks[id].Process? && id in t.tasks && !t.tasks[id].Rotation?
    requires t == s.(tasks := s.tasks[id := t.tasks[id]], permits := t.permits)
    requires Unfinished(t) <= Unfinished(s) && t.permits + |Running(t)| == s.max
    requires |Unfinished(t)| <= |Unfinished(s)|
    ensures Inv(t)
  {
    assert forall i :: UnfinishedRotation(t, i) <==> UnfinishedRotation(s, i);
    assert forall i :: Others(t, i) <= Others(s, i);
  }

  lemma ProcessStepKeepsInv(s: State, id: nat, starts: bool)
    requires Inv(s) && ProcessStep(s, id, starts).Some?
    ensures Inv(ProcessStep(s, id, starts).value)
  {
    var t := ProcessStep(s, id, starts).value;
    if starts {
      Permitting(s, id);
      assert Unfinished(t) == Unfinished(Put(s, id, Process(true, false)));
      assert Running(t) == Running(Put(s, id, Process(true, false)));
    } else {
      Finishing(s, id);
      assert Unfinished(t) == Unfinished(Put(s, id, Finished)) && Running(t) == Running(Put(s, id, Finished));
    }
    ProcessKeepsInv(s, id, t);
  }

  lemma FinishingRotationKeepsInv(s: State, id: nat, t: State)
    requires Inv(s) && UnfinishedRotation(s, id)
    requires t == Reenable(s, id) || t == Put(s, id, Finished).(stranded := true)
    ensures Inv(t)
  {
    Finishing(s, id);
    assert forall i :: UnfinishedRotation(t, i) ==> UnfinishedRotation(s, i);
  }

  lemma ChangingRotationKeepsInv(s: State, id: nat, phase: RotationPhase, cancelling: bool, session: nat)
    requires Inv(s) && UnfinishedRotation(s, id)
    requires Drained(phase) ==> Others(s, id) == {}
    requires phase.Draining? ==> Others(s, id) <= phase.watched && id !in phase.watched
    requires phase.Unwinding? ==> cancelling
    ensures Inv(Put(s, id, Rotation(phase, cancelling)).(session := session))
  {
    var t := Put(s, id, Rotation(phase, cancelling)).(session := session);
    Changing(s, id, Rotation(phase, cancelling));
    assert Unfinished(t) == Unfinished(s) && Running(t) == Running(s);
    assert forall i :: UnfinishedRotation(t, i) <==> UnfinishedRotation(s, i);
  }

  lemma RotationProceedsKeepsInv(s: State, id: nat, phase: RotationPhase)
    requires Inv(s) && UnfinishedRotation(s, id) && s.tasks[id].phase == phase
    requires RotationProceeds(s, id, phase).Some?
    ensures Inv(RotationProceeds(s, id, phase).value)
  {
    var t := RotationProceeds(s, id, phase).value;
    if t.tasks[id].Finished? {
      FinishingRotationKeepsInv(s, id, t);
    } else {
      var after := t.tasks[id].phase;
      assert phase.Draining? && after.DrainRequest? ==> Others(s, id) == {};
      ChangingRotationKeepsInv(s, id, after, false, t.session);
    }
  }

  lemma RotationFailsKeepsInv(s: State, id: nat, phase: RotationPhase, retryable: bool)
    requires Inv(s) && UnfinishedRotation(s, id) && RotationFails(s, id, phase, retryable).Some?
    ensures Inv(RotationFails(s, id, phase, retryable).value)
  {
    var t := RotationFails(s, id, phase, retryable).value;
    if t.tasks[id].Finished? {
      FinishingRotationKeepsInv(s, id, t);
    } else {
      ChangingRotationKeepsInv(s, id, t.tasks[id].phase, false, s.session);
    }
  }

  lemma RotationStepKeepsInv(s: State, id: nat, progress: Progress)
    requires Inv(s) && RotationStep(s, id, progress).Some?
    ensures Inv(RotationStep(s, id, progress).value)
  {
    var phase := s.tasks[id].phase;
    match progress
    case Proceed => RotationProceedsKeepsInv(s, id, phase);
    case Fail(retryable) => RotationFailsKeepsInv(s, id, phase, retryable);
    case InstallFails => ChangingRotationKeepsInv(s, id, JoiningRenewal(false), false, s.session);
  }

  lemma RotationAbortKeepsInv(s: State, id: nat)
    requires Inv(s) && RotationAbort(s, id).Some?
    ensures Inv(RotationAbort(s, id).value)
  {
    var t := RotationAbort(s, id).value;
    if t.tasks[id].Finished? {
      FinishingRotationKeepsInv(s, id, t);
    } else {
      ChangingRotationKeepsInv(s, id, Unwinding, true, s.session);
    }
  }

  lemma CancelKeepsInv(s: State, ids: set<nat>)
    requires Inv(s)
    ensures Inv(CancelAll(s, ids))
    ensures Unfinished(CancelAll(s, ids)) == Unfinished(s)
  {
    var t := CancelAll(s, ids);
    assert Unfinished(t) == Unfinished(s) && Running(t) == Running(s);
    assert forall i :: UnfinishedRotation(t, i) <==> UnfinishedRotation(s, i);
  }

  lemma DeliveryStepKeepsInv(s: State, e: Event)
    requires Inv(s) && DeliveryEvent(e) && Step(s, e).Some?
    ensures Inv(Step(s, e).value)
  {
    match e
    case ProcessStarts(id) => ProcessStepKeepsInv(s, id, true);
    case ProcessEnds(id) => ProcessStepKeepsInv(s, id, false);
    case RotationResumes(id, progress) => RotationStepKeepsInv(s, id, progress);
    case RotationAborts(id) => RotationAbortKeepsInv(s, id);
    case CancelTask(id) =>
      CancelKeepsInv(s, {id});
      assert Step(s, e).value.tasks == CancelAll(s, {id}).tasks;
    case _ =>
  }

  lemma GraceKeepsInv(s: State)
    requires Inv(s) && s.lifecycle.Waiting?
    ensures Inv(Step(s, GraceEnds).value)
  {
    var watched := s.lifecycle.watched;
    var t := Step(s, GraceEnds).value;
    CancelKeepsInv(s, watched);
    assert Unfinished(t) == Unfinished(s);
    SameTasks(CancelAll(s, watched), t);
  }

  lemma LifecycleKeepsInv(s: State, t: State)
    requires Inv(s) && Looped(t)
    requires t == s.(stop := t.stop, lifecycle := t.lifecycle, loops := t.loops, session := t.session)
    ensures Inv(t)
  {
    assert Unfinished(t) == Unfinished(s);
    SameTasks(s, t);
  }

  lemma CleanupKeepsInv(s: State, completed: bool)
    requires Inv(s) && Step(s, CleanupEnds(completed)).Some?
    ensures Inv(Step(s, CleanupEnds(completed)).value)
  {
    var t := Step(s, CleanupEnds(completed)).value;
    assert Unfinished(t) == Unfinished(s);
    LifecycleKeepsInv(s, t);
  }

  lemma LifecycleStepKeepsInv(s: State, e: Event)
    requires Inv(s) && !ReceiverEvent(e) && !DeliveryEvent(e) && Step(s, e).Some?
    ensures Inv(Step(s, e).value)
  {
    if e.GraceEnds? {
      GraceKeepsInv(s);
    } else if e.CleanupEnds? {
      CleanupKeepsInv(s, e.completed);
    } else {
      assert Unfinished(Step(s, e).value) == Unfinished(s);
      LifecycleKeepsInv(s, Step(s, e).value);
    }
  }

  lemma StepKeepsInv(s: State, e: Event)
    requires Inv(s) && Step(s, e).Some?
    ensures Inv(Step(s, e).value)
  {
    if ReceiverEvent(e) { ReceiverStepKeepsInv(s, e); }
    else if DeliveryEvent(e) { DeliveryStepKeepsInv(s, e); }
    else { LifecycleStepKeepsInv(s, e); }
  }

  lemma {:induction false} RunKeepsInv(s: State, schedule: seq<Event>)
    requires Inv(s) && Exec(s, schedule).Some?
    ensures Inv(Exec(s, schedule).value)
    decreases |schedule|
  {
    if schedule != [] {
      var front := schedule[..|schedule| - 1];
      RunKeepsInv(s, front);
      StepKeepsInv(Exec(s, front).value, schedule[|schedule| - 1]);
    }
  }

  lemma InitialInv(maxConcurrency: int)
    ensures Inv(Initial(maxConcurrency))
  {
    var s := Initial(maxConcurrency);
    assert Unfinished(s) == {} && Running(s) == {};
    assert forall id :: !UnfinishedRotation(s, id);
  }

  /** A state some run of a participant reaches. */
  ghost predicate Reachable(maxConcurrency: int, s: State) {
    exists schedule :: Exec(Initial(maxConcurrency), schedule) == Some(s)
  }

  lemma ReachableInv(maxConcurrency: int, s: State)
    requires Reachable(maxConcurrency, s)
    ensures Inv(s)
  {
    var schedule :| Exec(Initial(maxConcurrency), schedule) == Some(s);
    InitialInv(maxConcurrency);
    RunKeepsInv(Initial(maxConcurrency), schedule);
  }

  // ------------------------------------------------------------------ admission

  lemma Smaller(a: set<nat>, b: set<nat>, id: nat)
    requires a <= b && id in b && id !in a
    ensures |a| < |b|
  {
    assert a <= b - {id};
    SubsetSize(a, b - {id});
  }

  lemma {:induction false} SubsetSize(a: set<nat>, b: set<nat>)
    requires a <= b
    ensures |a| <= |b|
    decreases a
  {
    if a != {} {
      var x :| x in a;
      SubsetSize(a - {x}, b - {x});
    }
  }

  lemma StepKeepsMax(s: State, e: Event)
    requires Step(s, e).Some?
    ensures Step(s, e).value.max == s.max
  {
    if ReceiverEvent(e) { if s.claim.Held? && !e.Acknowledged? { OtherClaimEffect(s, e); } }
    else if DeliveryEvent(e) { DeliveryEffect(s, e); }
  }

  lemma {:induction false} RunKeepsMax(s: State, schedule: seq<Event>)
    requires Exec(s, schedule).Some?
    ensures Exec(s, schedule).value.max == s.max
    decreases |schedule|
  {
    if schedule != [] {
      var front := schedule[..|schedule| - 1];
      RunKeepsMax(s, front);
      StepKeepsMax(Exec(s, front).value, schedule[|schedule| - 1]);
    }
  }

  /** At most `max_concurrency` received deliveries, or one if that is less than one, are ever
      unfinished, and one that has just been accepted never waits for the handler semaphore. */
  lemma AdmissionIsBounded(maxConcurrency: int, s: State)
    requires Reachable(maxConcurrency, s)
    ensures |Unfinished(s)| <= if maxConcurrency < 1 then 1 else maxConcurrency
    ensures forall id :: id in s.tasks && s.tasks[id] == Process(false, false) ==> Step(s, ProcessStarts(id)).Some?
  {
    ReachableInv(maxConcurrency, s);
    var schedule :| Exec(Initial(maxConcurrency), schedule) == Some(s);
    RunKeepsMax(Initial(maxConcurrency), schedule);
    forall id | id in s.tasks && s.tasks[id] == Process(false, false)
      ensures Step(s, ProcessStarts(id)).Some?
    {
      Smaller(Running(s), Unfinished(s), id);
    }
  }

  // ------------------------------------------------------------------- rotation

  /** A rotation replaces the session only when it is the one unfinished delivery and no
      receive call is past the gate. */
  lemma RotationSwapsAlone(maxConcurrency: int, s: State, id: nat, progress: Progress)
    requires Reachable(maxConcurrency, s) && Step(s, RotationResumes(id, progress)).Some?
    requires Step(s, RotationResumes(id, progress)).value.session != s.session
    ensures Unfinished(s) == {id} && !s.enabled && !PastGate(s)
  {
    ReachableInv(maxConcurrency, s);
    assert UnfinishedRotation(s, id);
  }

  /** Only an acknowledged delivery adds a task. */
  predicate Added(s: State, t: State) {
    && t.stranded == s.stranded && s.next <= t.next
    && (t.tasks == s.tasks || (t.next == s.next + 1 && s.next in t.tasks && t.tasks == s.tasks[s.next := t.tasks[s.next]]))
  }

  lemma AcknowledgementEffect(s: State, pause: bool, ok: bool)
    requires s.claim.Held?
    ensures Added(s, AfterAcknowledgement(s, pause, ok))
  {
  }

  /** Nothing but the claim, the gate and the request count changes. */
  predicate OnlyClaim(s: State, t: State) { t == s.(claim := t.claim, enabled := t.enabled, claims := t.claims) }

  lemma ResumedEffect(s: State)
    requires s.claim.Held?
    ensures OnlyClaim(s, Admit(s)) && OnlyClaim(s, Abandon(s))
  {
  }

  lemma ResponseEffect(s: State, received: Received)
    requires s.claim.Held?
    ensures OnlyClaim(s, AfterResponse(s, received))
  {
  }

  lemma ValidationEffect(s: State, pause: bool, validation: Validation)
    requires s.claim.Held?
    ensures OnlyClaim(s, AfterValidation(s, pause, validation))
  {
  }

  lemma OtherClaimEffect(s: State, e: Event)
    requires s.claim.Held? && !e.Acknowledged? && ClaimStep(s, e).Some?
    ensures OnlyClaim(s, ClaimStep(s, e).value)
  {
    if e.Response? { ResponseEffect(s, e.received); }
    else if e.Validated? { ValidationEffect(s, s.claim.phase.pause, e.validation); }
    else if !e.Registered? { ResumedEffect(s); }
  }

  lemma ClaimEffect(s: State, e: Event)
    requires s.claim.Held? && ClaimStep(s, e).Some?
    ensures Added(s, ClaimStep(s, e).value)
  {
    if e.Acknowledged? {
      AcknowledgementEffect(s, s.claim.phase.pause, e.ok);
    } else {
      OtherClaimEffect(s, e);
    }
  }

  lemma ReceiverEffect(s: State, e: Event)
    requires ReceiverEvent(e) && Step(s, e).Some?
    ensures Added(s, Step(s, e).value)
  {
    if s.claim.Held? { ClaimEffect(s, e); }
  }

  lemma ClosedGate(s: State, e: Event)
    requires ReceiverEvent(e) && Step(s, e).Some? && !PastGate(s) && !s.enabled
    ensures var t := Step(s, e).value;
      !PastGate(t) && !t.enabled && t.claims == s.claims && t.next == s.next && t.tasks == s.tasks
  {
  }

  /** A step of one delivery touches that task and nothing of the receiver but the gate. */
  predicate OnlyTask(s: State, t: State, id: nat) {
    && id in s.tasks && id in t.tasks
    && t == Put(s, id, t.tasks[id]).(permits := t.permits, session := t.session, enabled := t.enabled, stranded := t.stranded)
    && (s.stranded ==> t.stranded)
    && (t.tasks[id].Rotation? ==> s.tasks[id].Rotation?)
  }

  lemma ProceedsEffect(s: State, id: nat, phase: RotationPhase)
    requires UnfinishedRotation(s, id) && RotationProceeds(s, id, phase).Some?
    ensures OnlyTask(s, RotationProceeds(s, id, phase).value, id)
  {
  }

  lemma FailsEffect(s: State, id: nat, phase: RotationPhase, retryable: bool)
    requires UnfinishedRotation(s, id) && RotationFails(s, id, phase, retryable).Some?
    ensures OnlyTask(s, RotationFails(s, id, phase, retryable).value, id)
  {
  }

  lemma RotationEffect(s: State, id: nat, progress: Progress)
    requires RotationStep(s, id, progress).Some?
    ensures OnlyTask(s, RotationStep(s, id, progress).value, id)
  {
    match progress
    case Proceed => ProceedsEffect(s, id, s.tasks[id].phase);
    case Fail(retryable) => FailsEffect(s, id, s.tasks[id].phase, retryable);
    case InstallFails =>
  }

  lemma AbortEffect(s: State, id: nat)
    requires RotationAbort(s, id).Some?
    ensures OnlyTask(s, RotationAbort(s, id).value, id)
  {
  }

  lemma ProcessEffect(s: State, id: nat, starts: bool)
    requires ProcessStep(s, id, starts).Some?
    ensures OnlyTask(s, ProcessStep(s, id, starts).value, id)
  {
  }

  lemma DeliveryEffect(s: State, e: Event)
    requires DeliveryEvent(e) && Step(s, e).Some?
    ensures OnlyTask(s, Step(s, e).value, e.id)
  {
    match e
    case ProcessStarts(id) => ProcessEffect(s, id, true);
    case ProcessEnds(id) => ProcessEffect(s, id, false);
    case RotationResumes(id, progress) => RotationEffect(s, id, progress);
    case RotationAborts(id) => AbortEffect(s, id);
    case CancelTask(id) =>
    case _ =>
  }

  lemma LifecycleEffect(s: State, e: Event)
    requires !ReceiverEvent(e) && !DeliveryEvent(e) && Step(s, e).Some?
    ensures var t := Step(s, e).value;
      && t.claim == s.claim && t.claims == s.claims && t.next == s.next && t.enabled == s.enabled && t.stranded == s.stranded
      && t.tasks.Keys == s.tasks.Keys
      && (forall id :: id in s.tasks ==> t.tasks[id] == s.tasks[id] || t.tasks[id] == Cancelled(s.tasks[id]))
  {
    if e.CleanupEnds? { CleanupEffect(s, s.lifecycle.purpose, e.completed); }
    else if e.GraceEnds? { assert Step(s, e).value.tasks == CancelAll(s, s.lifecycle.watched).tasks; }
  }

  lemma CleanupEffect(s: State, purpose: Purpose, completed: bool)
    ensures var t := AfterCleanup(s, purpose, completed); t == s.(lifecycle := t.lifecycle, stop := t.stop, session := t.session)
  {
  }

  lemma GateStep(s: State, e: Event)
    requires !PastGate(s) && !s.enabled && Step(s, e).Some?
    ensures var t := Step(s, e).value; t.claims == s.claims && t.next == s.next && !PastGate(t)
  {
    if ReceiverEvent(e) { ClosedGate(s, e); }
    else if DeliveryEvent(e) { DeliveryEffect(s, e); }
    else { LifecycleEffect(s, e); }
  }

  lemma FinishedStays(s: State, e: Event, id: nat)
    requires Step(s, e).Some? && !UnfinishedRotation(s, id) && id < s.next
    ensures !UnfinishedRotation(Step(s, e).value, id) && id < Step(s, e).value.next
  {
    if ReceiverEvent(e) { ReceiverEffect(s, e); }
    else if DeliveryEvent(e) { DeliveryEffect(s, e); }
    else { LifecycleEffect(s, e); }
  }

  lemma {:induction false} NextGrows(s: State, more: seq<Event>)
    requires Exec(s, more).Some?
    ensures Exec(s, more).value.next >= s.next
    decreases |more|
  {
    if more != [] {
      NextGrows(s, more[..|more| - 1]);
      var before := Exec(s, more[..|more| - 1]).value;
      var e := more[|more| - 1];
      if ReceiverEvent(e) { ReceiverEffect(before, e); }
      else if DeliveryEvent(e) { DeliveryEffect(before, e); }
      else { LifecycleEffect(before, e); }
    }
  }

  /** From the moment a rotation exists until it ends, no receive request is sent and no
      delivery is added, whatever else happens. */
  lemma {:induction false} NothingIsClaimedDuringRotation(maxConcurrency: int, s: State, id: nat, more: seq<Event>)
    requires Reachable(maxConcurrency, s) && UnfinishedRotation(s, id)
    requires Exec(s, more).Some? && UnfinishedRotation(Exec(s, more).value, id)
    ensures Exec(s, more).value.claims == s.claims && Exec(s, more).value.next == s.next
    decreases |more|
  {
    ReachableInv(maxConcurrency, s);
    if more != [] {
      var front := more[..|more| - 1];
      var before := Exec(s, front).value;
      RunKeepsInv(s, front);
      if id < before.next && !UnfinishedRotation(before, id) { FinishedStays(before, more[|more| - 1], id); }
      NextGrows(s, front);
      NothingIsClaimedDuringRotation(maxConcurrency, s, id, front);
      GateStep(before, more[|more| - 1]);
    }
  }

  /** A rotation that ends re-enables receiving exactly when it was not cancelled before its
      final report. */
  lemma RotationReenables(maxConcurrency: int, s: State, e: Event, id: nat)
    requires Reachable(maxConcurrency, s) && UnfinishedRotation(s, id)
    requires Step(s, e).Some? && !UnfinishedRotation(Step(s, e).value, id)
    ensures Step(s, e).value.enabled <==> !s.tasks[id].cancelling || s.tasks[id].phase.Reporting?
  {
    ReachableInv(maxConcurrency, s);
    if ReceiverEvent(e) { ReceiverEffect(s, e); }
    else if DeliveryEvent(e) { DeliveryEffect(s, e); RotationEnd(s, e, id); }
    else { LifecycleEffect(s, e); }
  }

  lemma RotationEnd(s: State, e: Event, id: nat)
    requires Inv(s) && UnfinishedRotation(s, id) && DeliveryEvent(e) && e.id == id
    requires Step(s, e).Some? && !UnfinishedRotation(Step(s, e).value, id)
    ensures Step(s, e).value.enabled <==> !s.tasks[id].cancelling || s.tasks[id].phase.Reporting?
  {
    if e.RotationResumes? { RotationStepEnd(s, id, e.progress); }
  }

  lemma RotationStepEnd(s: State, id: nat, progress: Progress)
    requires RotationStep(s, id, progress).Some? && !UnfinishedRotation(RotationStep(s, id, progress).value, id)
    ensures RotationStep(s, id, progress).value.enabled && !s.tasks[id].cancelling
  {
  }

  /** A rotation is being, or was, cancelled before its final report. */
  ghost predicate Doomed(s: State) {
    s.stranded || exists id :: DoomedBy(s, id)
  }

  predicate DoomedBy(s: State, id: nat) {
    UnfinishedRotation(s, id) && s.tasks[id].cancelling && !s.tasks[id].phase.Reporting?
  }

  lemma DoomedTaskStep(s: State, e: Event)
    requires Inv(s) && DeliveryEvent(e) && DoomedBy(s, e.id) && Step(s, e).Some?
    ensures Step(s, e).value.stranded || DoomedBy(Step(s, e).value, e.id)
  {
  }

  lemma DoomedStep(s: State, e: Event)
    requires Inv(s) && Doomed(s) && Step(s, e).Some?
    ensures Doomed(Step(s, e).value)
  {
    var t := Step(s, e).value;
    if ReceiverEvent(e) { ReceiverEffect(s, e); }
    else if DeliveryEvent(e) { DeliveryEffect(s, e); }
    else { LifecycleEffect(s, e); }
    if !s.stranded {
      var id :| DoomedBy(s, id);
      if DeliveryEvent(e) && e.id == id { DoomedTaskStep(s, e); }
      assert t.stranded || DoomedBy(t, id);
    }
  }

  /** A rotation cancelled before its report closes the participant for good: whatever
      follows, stopping, restarting and reloading included, receiving stays disabled and no
      further request or delivery is made. */
  lemma {:induction false} DoomedNeverReceives(s: State, more: seq<Event>)
    requires Inv(s) && Doomed(s) && Exec(s, more).Some?
    ensures var t := Exec(s, more).value; Doomed(t) && !t.enabled && t.claims == s.claims && t.next == s.next
    decreases |more|
  {
    if more != [] {
      var front := more[..|more| - 1];
      DoomedNeverReceives(s, front);
      RunKeepsInv(s, front);
      DoomedStep(Exec(s, front).value, more[|more| - 1]);
      RunKeepsInv(s, more);
      GateStep(Exec(s, front).value, more[|more| - 1]);
    }
  }

  function Then(s: Option<State>, e: Event): Option<State> {
    match s
    case None => None
    case Some(t) => Step(t, e)
  }

  lemma Extend(s: State, schedule: seq<Event>, e: Event)
    ensures Exec(s, schedule + [e]) == Then(Exec(s, schedule), e)
  {
    assert (schedule + [e])[..|schedule + [e]| - 1] == schedule;
  }

  lemma {:induction false} ExecCons(s: State, e: Event, more: seq<Event>)
    requires Step(s, e).Some?
    ensures Exec(s, [e] + more) == Exec(Step(s, e).value, more)
    decreases |more|
  {
    if more == [] {
      Extend(s, [], e);
      assert [] + [e] == [e] + more;
    } else {
      var front, last := more[..|more| - 1], more[|more| - 1];
      ExecCons(s, e, front);
      Extend(s, [e] + front, last);
      Extend(Step(s, e).value, front, last);
      assert [e] + front + [last] == [e] + more;
      assert front + [last] == more;
    }
  }

  /** Some continuation enables receiving. */
  ghost predicate CanReceive(s: State) {
    exists more :: Exec(s, more).Some? && Exec(s, more).value.enabled
  }

  lemma CanReceiveAfter(s: State, e: Event)
    requires Step(s, e).Some? && CanReceive(Step(s, e).value)
    ensures CanReceive(s)
  {
    var t := Step(s, e).value;
    var more :| Exec(t, more).Some? && Exec(t, more).value.enabled;
    ExecCons(s, e, more);
    assert Exec(s, [e] + more).Some? && Exec(s, [e] + more).value.enabled;
  }

  lemma EnabledCanReceive(s: State)
    requires s.enabled
    ensures CanReceive(s)
  {
    assert Exec(s, []) == Some(s);
  }

  function Distance(phase: RotationPhase): nat {
    match phase
    case Restoring(_) => 3
    case JoiningRenewal(_) => 2
    case Reporting => 1
    case Draining(_) => 5
    case _ => 4
  }

  /** A way for a rotation to move towards its end. */
  function Towards(s: State, phase: RotationPhase): Progress {
    match phase
    case Draining(watched) => if Over(s, watched) then Proceed else Fail(false)
    case Restoring(_) | JoiningRenewal(_) | Reporting => Proceed
    case _ => Fail(false)
  }

  lemma TowardsEnd(s: State, id: nat)
    requires UnfinishedRotation(s, id) && !s.tasks[id].cancelling && !s.tasks[id].phase.Unwinding?
    ensures var t := Step(s, RotationResumes(id, Towards(s, s.tasks[id].phase)));
      t.Some? && (t.value.enabled ||
        (UnfinishedRotation(t.value, id) && !t.value.tasks[id].cancelling && !t.value.tasks[id].phase.Unwinding?
         && Distance(t.value.tasks[id].phase) < Distance(s.tasks[id].phase)))
  {
  }

  lemma {:induction false} RotationCanEnd(s: State, id: nat)
    requires UnfinishedRotation(s, id) && !s.tasks[id].cancelling && !s.tasks[id].phase.Unwinding?
    ensures CanReceive(s)
    decreases Distance(s.tasks[id].phase)
  {
    var e := RotationResumes(id, Towards(s, s.tasks[id].phase));
    TowardsEnd(s, id);
    var t := Step(s, e).value;
    if t.enabled { EnabledCanReceive(t); } else { RotationCanEnd(t, id); }
    CanReceiveAfter(s, e);
  }

  /** In every reachable state, receiving can be enabled again if and only if no rotation was
      or is being cancelled before its final report. */
  lemma ReceivingRecovers(maxConcurrency: int, s: State)
    requires Reachable(maxConcurrency, s)
    ensures CanReceive(s) <==> !Doomed(s)
  {
    ReachableInv(maxConcurrency, s);
    if Doomed(s) {
      forall more | Exec(s, more).Some? ensures !Exec(s, more).value.enabled {
        DoomedNeverReceives(s, more);
      }
    } else if s.enabled {
      EnabledCanReceive(s);
    } else if Pausing(s) {
      EnabledCanReceive(Step(s, ClaimCancelled).value);
      CanReceiveAfter(s, ClaimCancelled);
    } else {
      var id :| UnfinishedRotation(s, id);
      assert !DoomedBy(s, id);
      if s.tasks[id].cancelling {
        EnabledCanReceive(Step(s, RotationAborts(id)).value);
        CanReceiveAfter(s, RotationAborts(id));
      } else {
        RotationCanEnd(s, id);
      }
    }
  }

  /** A run that strands a rotation: it is accepted and asks for the drain, the participant is
      stopped, the rotation is cancelled when the grace period ends and unwinds, and the
      participant is started again. */
  const STRANDING: seq<Event> :=
    [StartRequested, StartEnds(true), ReceiveCalled(true), ClaimResumes, Registered(true), Response(Rotate), Validated(Valid),
     Acknowledged(true), RotationResumes(0, Proceed), CleanupRequested(Halt), LoopsJoined, GraceEnds, RotationAborts(0),
     RotationAborts(0), CleanupEnds(true), StartRequested, StartEnds(true)]

  /** The state after the first `n` events of that run. */
  predicate Strands(n: nat, s: State) { n <= |STRANDING| && Exec(Initial(1), STRANDING[..n]) == Some(s) }

  lemma StrandsNext(n: nat, s: State, e: Event, t: State)
    requires Strands(n, s) && n < |STRANDING| && STRANDING[n] == e && Step(s, e) == Some(t)
    ensures Strands(n + 1, t)
  {
    assert STRANDING[..n + 1][..n] == STRANDING[..n];
  }

  /** A receive call of a started participant, in a phase of its claim. */
  function Claiming(phase: Phase, enabled: bool, claims: nat): State {
    State(1, Held(true, phase), enabled, false, map[], {}, 0, 1, true, Up, 0, claims, false)
  }

  lemma StrandsClaiming()
    ensures Strands(3, Claiming(AwaitEnabled, true, 0))
  {
    var s := Initial(1);
    assert STRANDING[..0] == [];
    StrandsNext(0, s, StartRequested, s.(lifecycle := Starting));
    StrandsNext(1, s.(lifecycle := Starting), StartEnds(true), s.(lifecycle := Up, loops := true));
    StrandsNext(2, s.(lifecycle := Up, loops := true), ReceiveCalled(true), Claiming(AwaitEnabled, true, 0));
  }

  lemma StrandsRequesting()
    ensures Strands(5, Claiming(Requesting, true, 1))
  {
    StrandsClaiming();
    assert Unfinished(Claiming(AwaitEnabled, true, 0)) == {};
    StrandsNext(3, Claiming(AwaitEnabled, true, 0), ClaimResumes, Claiming(Registering, true, 0));
    StrandsNext(4, Claiming(Registering, true, 0), Registered(true), Claiming(Requesting, true, 1));
  }

  lemma StrandsValidating()
    ensures Strands(6, Claiming(Validating(true), true, 1))
  {
    StrandsRequesting();
    StrandsNext(5, Claiming(Requesting, true, 1), Response(Rotate), Claiming(Validating(true), true, 1));
  }

  lemma StrandsAcking()
    ensures Strands(7, Claiming(Acking(true), false, 1))
  {
    StrandsValidating();
    StrandsNext(6, Claiming(Validating(true), true, 1), Validated(Valid), Claiming(Acking(true), false, 1));
  }

  /** The participant with its rotation. */
  function Rotating(phase: RotationPhase, stop: bool, lifecycle: Lifecycle): State {
    State(1, Free, false, stop, map[0 := Rotation(phase, false)], {0}, 1, 1, true, lifecycle, 0, 1, false)
  }

  lemma AcknowledgedRotates()
    ensures Step(Claiming(Acking(true), false, 1), Acknowledged(true)) == Some(Rotating(Created, false, Up))
  {
    var s := Claiming(Acking(true), false, 1);
    assert s.fromLoop + {s.next} == {0} && s.tasks[s.next := Rotation(Created, false)] == map[0 := Rotation(Created, false)];
  }

  lemma RotatingAsksForDrain()
    ensures Step(Rotating(Created, false, Up), RotationResumes(0, Proceed)) == Some(Rotating(DrainRequest, false, Up))
  {
    var s := Rotating(Created, false, Up);
    assert Others(s, 0) == {};
    assert s.tasks[0 := Rotation(DrainRequest, false)] == map[0 := Rotation(DrainRequest, false)];
  }

  lemma StrandsRotating()
    ensures Strands(8, Rotating(Created, false, Up))
  {
    StrandsAcking();
    AcknowledgedRotates();
    StrandsNext(7, Claiming(Acking(true), false, 1), Acknowledged(true), Rotating(Created, false, Up));
  }

  lemma StrandsDraining()
    ensures Strands(9, Rotating(DrainRequest, false, Up))
  {
    StrandsRotating();
    RotatingAsksForDrain();
    StrandsNext(8, Rotating(Created, false, Up), RotationResumes(0, Proceed), Rotating(DrainRequest, false, Up));
  }

  lemma StrandsStopping()
    ensures Strands(10, Rotating(DrainRequest, true, JoiningLoops(Halt)))
  {
    StrandsDraining();
    StrandsNext(9, Rotating(DrainRequest, false, Up), CleanupRequested(Halt), Rotating(DrainRequest, true, JoiningLoops(Halt)));
  }

  /** The same participant once its loops are joined. */
  function Stopping(task: Task, lifecycle: Lifecycle, stranded: bool): State {
    State(1, Free, false, true, map[0 := task], {0}, 1, 1, false, lifecycle, 0, 1, stranded)
  }

  lemma StrandsJoining()
    ensures Strands(12, Stopping(Rotation(DrainRequest, true), Joining({0}, Halt), false))
  {
    StrandsStopping();
    var stopping, waiting := Rotating(DrainRequest, true, JoiningLoops(Halt)), Stopping(Rotation(DrainRequest, false), Waiting({0}, Halt), false);
    assert Unfinished(stopping) == {0};
    StrandsNext(10, stopping, LoopsJoined, waiting);
    assert CancelAll(waiting, {0}).tasks == map[0 := Rotation(DrainRequest, true)];
    StrandsNext(11, waiting, GraceEnds, Stopping(Rotation(DrainRequest, true), Joining({0}, Halt), false));
  }

  lemma AbortsUnwind(lifecycle: Lifecycle)
    ensures Step(Stopping(Rotation(DrainRequest, true), lifecycle, false), RotationAborts(0))
         == Some(Stopping(Rotation(Unwinding, true), lifecycle, false))
    ensures Step(Stopping(Rotation(Unwinding, true), lifecycle, false), RotationAborts(0)) == Some(Stopping(Finished, lifecycle, true))
  {
    assert map[0 := Rotation(DrainRequest, true)][0 := Rotation(Unwinding, true)] == map[0 := Rotation(Unwinding, true)];
    assert map[0 := Rotation(Unwinding, true)][0 := Finished] == map[0 := Finished];
  }

  lemma StrandsUnwinding()
    ensures Strands(13, Stopping(Rotation(Unwinding, true), Joining({0}, Halt), false))
  {
    var joining := Joining({0}, Halt);
    StrandsJoining();
    AbortsUnwind(joining);
    StrandsNext(12, Stopping(Rotation(DrainRequest, true), joining, false), RotationAborts(0), Stopping(Rotation(Unwinding, true), joining, false));
  }

  lemma StrandsAborted()
    ensures Strands(14, Stopping(Finished, Joining({0}, Halt), true))
  {
    var joining := Joining({0}, Halt);
    StrandsUnwinding();
    AbortsUnwind(joining);
    StrandsNext(13, Stopping(Rotation(Unwinding, true), joining, false), RotationAborts(0), Stopping(Finished, joining, true));
  }

  lemma StrandsStopped()
    ensures Strands(15, Stopping(Finished, Down, true))
  {
    StrandsAborted();
    StrandsNext(14, Stopping(Finished, Joining({0}, Halt), true), CleanupEnds(true), Stopping(Finished, Down, true));
  }

  function Restarted(lifecycle: Lifecycle): State {
    Stopping(Finished, lifecycle, true).(stop := false, loops := lifecycle.Up?)
  }

  /** After that run the participant is up and has nothing left to do, and never receives. */
  lemma StoppedRotationStrands()
    ensures Exec(Initial(1), STRANDING) == Some(Restarted(Up))
    ensures var s := Restarted(Up); s.lifecycle.Up? && Unfinished(s) == {} && Doomed(s) && !CanReceive(s)
  {
    StrandsStopped();
    StrandsNext(15, Stopping(Finished, Down, true), StartRequested, Restarted(Starting));
    StrandsNext(16, Restarted(Starting), StartEnds(true), Restarted(Up));
    assert STRANDING[..17] == STRANDING;
    assert Unfinished(Restarted(Up)) == {};
    ReceivingRecovers(1, Restarted(Up));
  }

  /** A credential reload replaces the session only when every delivery that the receive loop
      ever spawned has finished; what is left can only come from a direct receive call. */
  lemma ReloadWaitsForLoopDeliveries(maxConcurrency: int, s: State, completed: bool)
    requires Reachable(maxConcurrency, s) && Step(s, CleanupEnds(completed)).Some?
    ensures Unfinished(s) !! s.fromLoop && !s.loops
    ensures Step(s, CleanupEnds(completed)).value.session != s.session <==> completed && s.lifecycle.purpose.Reload?
  {
    ReachableInv(maxConcurrency, s);
    var watched := s.lifecycle.watched;
    assert Unfinished(s) !! watched;
    assert Unfinished(s) * s.fromLoop <= watched;
  }
}
