/** One accepted delivery (`connected/participant_delivery.py`). */
module Delivery {
  import opened Outcomes
  import opened Json
  import opened ResultBudget

  // Handler, lease renewal and result commit race inside `_process`. Every event is one section
  // between two awaits of one of the tasks, or one move of the gateway or of the network.

  const MAX_ATTEMPTS := 6
  const RETRIED_STATUSES := {502, 503, 504}
  const LEASE_CONFLICT := 409

  datatype HandlerEnd = Returned | Raised(errorType: string) | Aborted

  /** A task cancelled before its first step ends without calling the handler. */
  datatype HandlerTask = HandlerReady(cancelling: bool) | HandlerRunning(cancelling: bool) | HandlerDone(end: HandlerEnd)

  datatype RenewalEnd = RenewalHttpError(status: int) | RenewalError | RenewalCancelled

  /** The renewal loop never returns; it ends with an error or by cancellation. */
  datatype RenewalTask = RenewalRunning(cancelling: bool) | RenewalDone(end: RenewalEnd)

  /** `Ready`: created, the payload not yet built. `Backoff(k)`: attempt `k` failed. */
  datatype CommitPhase = Ready | Sending(attempt: nat) | InFlight(attempt: nat) | Backoff(attempt: nat)

  datatype CommitEnd = Acknowledged | CommitError | CommitCancelled

  datatype CommitTask =
    | NoCommit
    | CommitRunning(phase: CommitPhase, cancelling: bool)
    | CommitDone(end: CommitEnd)

  datatype Outcome = Completed | Errored | Stopped

  datatype Main = AwaitFirst | AwaitCommit | AwaitCommitOnly | Closing(outcome: Outcome) | Ended(outcome: Outcome)

  /** Which result object the commit was started with. */
  datatype Source = HandlerResultObject | HandlerFailure(errorType: string)

  datatype Reply = Bound | Conflict

  /** `build` makes the commit payload from a result. `live` is the result object, which
      handler code may still change after returning it; `snapshot` is the payload once built.
      `held` is the result the gateway has committed for the message; `replies` are its
      answers to the requests that reached it. */
  datatype State = State(
    build: HandlerResult -> Json,
    main: Main,
    handler: HandlerTask,
    handlerCalls: nat,
    renewal: RenewalTask,
    live: HandlerResult,
    source: Source,
    commit: CommitTask,
    snapshot: Option<Json>,
    posts: seq<Json>,
    replies: map<nat, Reply>,
    held: Option<Json>)

  datatype Fault = TransportFault | HttpFault(status: int) | UnboundReply

  datatype Event =
    | HandlerStarts
    | HandlerEnds(end: HandlerEnd, result: HandlerResult)
    | ResultMutated(result: HandlerResult)
    | RenewalEnds(error: RenewalEnd)
    | MainResumes
    | CommitStarts
    | CommitPosts
    | GatewayHandles(post: nat)
    | ReplyArrives
    | AttemptFails(fault: Fault)
    | BackoffEnds
    | CommitTimesOut
    | CommitCancellation
    | ProcessCancelled
    | ChildrenJoined

  function ErrorResult(errorType: string): HandlerResult {
    HandlerResult(ResultBudget.Failed, "atellagent.connected.error.v1", Obj([Field("error_type", Str(errorType))]), Obj([]))
  }

  function Initial(build: HandlerResult -> Json, held: Option<Json>): State {
    State(build, AwaitFirst, HandlerReady(false), 0, RenewalRunning(false), ErrorResult(""),
          HandlerResultObject, NoCommit, None, [], map[], held)
  }

  predicate Done(s: State) {
    s.handler.HandlerDone? && s.renewal.RenewalDone? && !s.commit.CommitRunning?
  }

  /** The `finally` block: every unfinished child is cancelled, then all are joined. */
  function Close(s: State, outcome: Outcome): State {
    s.(main := Closing(outcome),
       handler := if s.handler.HandlerDone? then s.handler else s.handler.(cancelling := true),
       renewal := if s.renewal.RenewalRunning? then RenewalRunning(true) else s.renewal,
       commit := if s.commit.CommitRunning? then s.commit.(cancelling := true) else s.commit)
  }

  function CommitOutcome(end: CommitEnd): Outcome {
    match end
    case Acknowledged => Completed
    case CommitError => Errored
    case CommitCancelled => Stopped
  }

  /** `_process` after one of its waits; `None` while it still has to wait. */
  function Resume(s: State): Option<State> {
    match s.main
    case AwaitFirst =>
      if s.renewal.RenewalDone? then Some(Close(s, Errored))
      else if !s.handler.HandlerDone? then None
      else
        (match s.handler.end
         case Aborted => Some(Close(s, Stopped))
         case Returned => Some(s.(source := HandlerResultObject, commit := CommitRunning(Ready, false), main := AwaitCommit))
         case Raised(errorType) =>
           Some(s.(source := HandlerFailure(errorType), commit := CommitRunning(Ready, false), main := AwaitCommit)))
    case AwaitCommit =>
      if s.commit.CommitDone? then Some(Close(s, CommitOutcome(s.commit.end)))
      else if s.renewal.RenewalRunning? then None
      else if s.renewal.end == RenewalHttpError(LEASE_CONFLICT) then Some(s.(main := AwaitCommitOnly))
      else Some(Close(s, Errored))
    case AwaitCommitOnly =>
      if s.commit.CommitDone? then Some(Close(s, CommitOutcome(s.commit.end))) else None
    case _ => None
  }

  predicate Running(s: State, phase: CommitPhase) { s.commit == CommitRunning(phase, false) }

  /** The result the commit builds its payload from when it starts. */
  function Chosen(s: State): HandlerResult {
    match s.source
    case HandlerResultObject => s.live
    case HandlerFailure(errorType) => ErrorResult(errorType)
  }

  predicate Retried(fault: Fault) {
    fault.TransportFault? || (fault.HttpFault? && fault.status in RETRIED_STATUSES)
  }

  /** An idempotent gateway: the first result wins and only the same result is acknowledged. */
  function Handle(s: State, post: nat): State
    requires post < |s.posts|
  {
    var body := s.posts[post];
    if s.held == None then s.(held := Some(body), replies := s.replies[post := Bound])
    else s.(replies := s.replies[post := if s.held.value == body then Bound else Conflict])
  }

  function Step(s: State, e: Event): Option<State> {
    match e
    case HandlerStarts =>
      if s.handler == HandlerReady(false) then Some(s.(handler := HandlerRunning(false), handlerCalls := s.handlerCalls + 1)) else None
    case HandlerEnds(end, result) =>
      if s.handler.HandlerRunning? || (s.handler == HandlerReady(true) && end.Aborted?) then
        Some(s.(handler := HandlerDone(end), live := result))
      else None
    case ResultMutated(result) => Some(s.(live := result))
    case RenewalEnds(error) =>
      if s.renewal.RenewalRunning? && (error.RenewalCancelled? ==> s.renewal.cancelling) then
        Some(s.(renewal := RenewalDone(error)))
      else None
    case MainResumes => Resume(s)
    case CommitStarts =>
      if Running(s, Ready) then Some(s.(snapshot := Some(s.build(Chosen(s))), commit := CommitRunning(Sending(0), false))) else None
    case CommitPosts =>
      if s.commit.CommitRunning? && !s.commit.cancelling && s.commit.phase.Sending? && s.snapshot.Some? then
        Some(s.(posts := s.posts + [s.snapshot.value],
                commit := CommitRunning(InFlight(s.commit.phase.attempt), false)))
      else None
    case GatewayHandles(post) => if post < |s.posts| then Some(Handle(s, post)) else None
    case ReplyArrives =>
      if s.commit.CommitRunning? && !s.commit.cancelling && s.commit.phase.InFlight?
         && s.posts != [] && |s.posts| - 1 in s.replies then
        Some(s.(commit := CommitDone(if s.replies[|s.posts| - 1] == Bound then Acknowledged else CommitError)))
      else None
    case AttemptFails(fault) =>
      if s.commit.CommitRunning? && !s.commit.cancelling && s.commit.phase.InFlight? then
        var attempt := s.commit.phase.attempt;
        if Retried(fault) && attempt + 1 < MAX_ATTEMPTS then
          Some(s.(commit := CommitRunning(Backoff(attempt), false)))
        else Some(s.(commit := CommitDone(CommitError)))
      else None
    case BackoffEnds =>
      if s.commit.CommitRunning? && !s.commit.cancelling && s.commit.phase.Backoff? then
        Some(s.(commit := CommitRunning(Sending(s.commit.phase.attempt + 1), false)))
      else None
    case CommitTimesOut =>
      if s.commit.CommitRunning? && !s.commit.phase.Ready? then Some(s.(commit := CommitDone(CommitError))) else None
    case CommitCancellation =>
      if s.commit.CommitRunning? && s.commit.cancelling then Some(s.(commit := CommitDone(CommitCancelled))) else None
    case ProcessCancelled =>
      (match s.main
       case Ended(_) => None
       case AwaitCommitOnly =>
         if s.commit.CommitRunning? then Some(s.(commit := s.commit.(cancelling := true))) else Some(Close(s, Stopped))
       case _ => Some(Close(s, Stopped)))
    case ChildrenJoined =>
      if s.main.Closing? && Done(s) then Some(s.(main := Ended(s.main.outcome))) else None
  }

  /** Runs a schedule; events that are not enabled make it no run at all. */
  function Exec(s: State, schedule: seq<Event>): Option<State>
    decreases |schedule|
  {
    if schedule == [] then Some(s)
    else
      match Exec(s, schedule[..|schedule| - 1])
      case None => None
      case Some(before) => Step(before, schedule[|schedule| - 1])
  }

  // ---------------------------------------------------------------- invariant

  predicate AttemptsMatch(s: State) {
    match s.commit
    case NoCommit => s.posts == [] && s.snapshot == None
    case CommitRunning(Ready, _) => s.posts == [] && s.snapshot == None
    case CommitRunning(Sending(k), _) => |s.posts| == k < MAX_ATTEMPTS && s.snapshot.Some?
    case CommitRunning(InFlight(k), _) => |s.posts| == k + 1 <= MAX_ATTEMPTS && s.snapshot.Some?
    case CommitRunning(Backoff(k), _) => |s.posts| == k + 1 < MAX_ATTEMPTS && s.snapshot.Some?
    case CommitDone(_) => |s.posts| <= MAX_ATTEMPTS
  }

  predicate MainMatches(s: State) {
    match s.main
    case AwaitFirst => s.commit.NoCommit? && NotCancelling(s)
    case AwaitCommit => !s.commit.NoCommit? && HandlerFinished(s) && NotCancelling(s)
    case AwaitCommitOnly =>
      && !s.commit.NoCommit? && HandlerFinished(s)
      && s.renewal == RenewalDone(RenewalHttpError(LEASE_CONFLICT))
    case Closing(outcome) => (outcome.Completed? ==> s.commit == CommitDone(Acknowledged) && HandlerFinished(s)) && Cancelling(s)
    case Ended(outcome) => (outcome.Completed? ==> s.commit == CommitDone(Acknowledged) && HandlerFinished(s)) && Done(s)
  }

  predicate HandlerFinished(s: State) { s.handler.HandlerDone? && !s.handler.end.Aborted? }

  predicate NotCancelling(s: State) {
    && (s.renewal.RenewalRunning? ==> !s.renewal.cancelling)
    && (s.commit.CommitRunning? ==> !s.commit.cancelling)
    && s.commit != CommitDone(CommitCancelled)
    && s.renewal != RenewalDone(RenewalCancelled)
  }

  predicate Cancelling(s: State) {
    && (!s.handler.HandlerDone? ==> s.handler.cancelling)
    && (s.renewal.RenewalRunning? ==> s.renewal.cancelling)
    && (s.commit.CommitRunning? ==> s.commit.cancelling)
  }

  predicate GatewayMatches(s: State, held: Option<Json>) {
    && (held.Some? ==> s.held == held)
    && (held == None && s.held.Some? ==> s.held == s.snapshot)
    && (forall i :: i in s.replies ==> i < |s.posts|)
    && (forall i :: i in s.replies && s.replies[i] == Bound ==> s.held == s.snapshot && s.held.Some?)
  }

  predicate HandlerMatches(s: State) {
    match s.handler
    case HandlerReady(_) => s.handlerCalls == 0
    case HandlerRunning(_) => s.handlerCalls == 1
    case HandlerDone(end) => s.handlerCalls <= 1 && (!end.Aborted? ==> s.handlerCalls == 1)
  }

  predicate PostsMatch(s: State) {
    && (s.posts != [] ==> s.snapshot.Some?)
    && (forall i :: 0 <= i < |s.posts| ==> s.posts[i] == s.snapshot.value)
    && (s.commit == CommitDone(Acknowledged) ==> s.posts != [] && s.held == s.snapshot)
  }

  ghost predicate SnapshotMatches(s: State) {
    s.snapshot.Some? ==> exists r: HandlerResult :: s.snapshot.value == s.build(r)
  }

  ghost predicate Inv(s: State, held: Option<Json>) {
    HandlerMatches(s) && AttemptsMatch(s) && MainMatches(s) && GatewayMatches(s, held) && PostsMatch(s) && SnapshotMatches(s)
  }

  lemma CloseKeepsInv(s: State, outcome: Outcome, held: Option<Json>)
    requires Inv(s, held) && !s.main.Ended?
    requires outcome.Completed? ==> s.commit == CommitDone(Acknowledged) && HandlerFinished(s)
    ensures Inv(Close(s, outcome), held)
  {
  }

  lemma ResumeKeepsInv(s: State, held: Option<Json>)
    requires Inv(s, held) && Resume(s).Some?
    ensures Inv(Resume(s).value, held)
  {
    match s.main
    case AwaitFirst =>
      if s.renewal.RenewalDone? { CloseKeepsInv(s, Errored, held); }
      else if s.handler.end.Aborted? { CloseKeepsInv(s, Stopped, held); }
    case AwaitCommit =>
      if s.commit.CommitDone? { CloseKeepsInv(s, CommitOutcome(s.commit.end), held); }
      else if s.renewal.end != RenewalHttpError(LEASE_CONFLICT) { CloseKeepsInv(s, Errored, held); }
    case AwaitCommitOnly => CloseKeepsInv(s, CommitOutcome(s.commit.end), held);
    case _ =>
  }

  lemma MainStepKeepsInv(s: State, e: Event, held: Option<Json>)
    requires Inv(s, held) && Step(s, e).Some? && (e.MainResumes? || e.ProcessCancelled? || e.ChildrenJoined?)
    ensures Inv(Step(s, e).value, held)
  {
    if e.MainResumes? {
      ResumeKeepsInv(s, held);
    } else if e.ProcessCancelled? && !(s.main.AwaitCommitOnly? && s.commit.CommitRunning?) {
      CloseKeepsInv(s, Stopped, held);
    }
  }

  lemma ChildStepKeepsInv(s: State, e: Event, held: Option<Json>)
    requires Inv(s, held) && Step(s, e).Some?
    requires e.HandlerStarts? || e.HandlerEnds? || e.ResultMutated? || e.RenewalEnds?
    ensures Inv(Step(s, e).value, held)
  {
  }

  lemma CommitStepKeepsInv(s: State, e: Event, held: Option<Json>)
    requires Inv(s, held) && Step(s, e).Some?
    requires e.CommitStarts? || e.ReplyArrives? || e.AttemptFails? || e.BackoffEnds? || e.CommitTimesOut? || e.CommitCancellation?
    ensures Inv(Step(s, e).value, held)
  {
  }

  lemma PostStepKeepsInv(s: State, e: Event, held: Option<Json>)
    requires Inv(s, held) && Step(s, e).Some? && (e.CommitPosts? || e.GatewayHandles?)
    ensures Inv(Step(s, e).value, held)
  {
  }

  lemma StepKeepsInv(s: State, e: Event, held: Option<Json>)
    requires Inv(s, held) && Step(s, e).Some?
    ensures Inv(Step(s, e).value, held) && Step(s, e).value.build == s.build
  {
    match e
    case MainResumes | ProcessCancelled | ChildrenJoined => MainStepKeepsInv(s, e, held);
    case HandlerStarts | HandlerEnds(_, _) | ResultMutated(_) | RenewalEnds(_) => ChildStepKeepsInv(s, e, held);
    case CommitPosts | GatewayHandles(_) => PostStepKeepsInv(s, e, held);
    case _ => CommitStepKeepsInv(s, e, held);
  }

  lemma {:induction false} ReachableInv(build: HandlerResult -> Json, held: Option<Json>, schedule: seq<Event>)
    requires Exec(Initial(build, held), schedule).Some?
    ensures Inv(Exec(Initial(build, held), schedule).value, held)
    ensures Exec(Initial(build, held), schedule).value.build == build
    decreases |schedule|
  {
    if schedule != [] {
      var front := schedule[..|schedule| - 1];
      ReachableInv(build, held, front);
      StepKeepsInv(Exec(Initial(build, held), front).value, schedule[|schedule| - 1], held);
    }
  }

  // ----------------------------------------------------------------- theorems

  /** The payload builder `_commit_result` uses for a message. */
  function BuilderFor(message: Message): HandlerResult -> Json {
    r => BuildResultCommitPayload(message, r)
  }

  /** However the tasks, the gateway, the network and cancellations interleave: every request
      sent is the one payload built once, at most six are sent, the handler is called at most
      once, and `_process` ends without an error only with that payload committed at the
      gateway. Ending joins every child task. */
  lemma DeliveryIsSafe(build: HandlerResult -> Json, held: Option<Json>, schedule: seq<Event>)
    requires Exec(Initial(build, held), schedule).Some?
    ensures var s := Exec(Initial(build, held), schedule).value;
      && s.handlerCalls <= 1 && |s.posts| <= 6
      && (s.posts != [] ==> exists r: HandlerResult :: s.snapshot == Some(build(r)))
      && (forall i :: 0 <= i < |s.posts| ==> Some(s.posts[i]) == s.snapshot)
      && (s.main.Ended? ==> Done(s))
      && (s.main == Ended(Completed) ==> s.handlerCalls == 1 && s.posts != [] && s.held == s.snapshot)
  {
    ReachableInv(build, held, schedule);
  }

  /** A fresh message never holds anything but this delivery's payload, and a result that was
      already committed is never replaced. */
  lemma GatewayHoldsOnlyThisResult(build: HandlerResult -> Json, held: Option<Json>, schedule: seq<Event>)
    requires Exec(Initial(build, held), schedule).Some?
    ensures var s := Exec(Initial(build, held), schedule).value;
      && (held.Some? ==> s.held == held)
      && (held == None && s.held.Some? ==> s.held == s.snapshot)
  {
    ReachableInv(build, held, schedule);
  }

  /** Every request of a parsed message's delivery is within the protocol's size limit. */
  lemma PostsFitTheProtocol(message: Message, held: Option<Json>, schedule: seq<Event>, i: nat)
    requires Parsed(message) && Exec(Initial(BuilderFor(message), held), schedule).Some?
    requires i < |Exec(Initial(BuilderFor(message), held), schedule).value.posts|
    ensures FitOf(Encode(Exec(Initial(BuilderFor(message), held), schedule).value.posts[i], false), 1048576) == Fits
  {
    var s := Exec(Initial(BuilderFor(message), held), schedule).value;
    DeliveryIsSafe(BuilderFor(message), held, schedule);
    var r :| s.snapshot == Some(BuilderFor(message)(r));
    CommitPayloadWithinLimits(message, r);
  }

  /** The gateway's bound reply to the last request reached the commit at step `k`. */
  predicate AcknowledgedAt(initial: State, schedule: seq<Event>, k: nat) {
    && k < |schedule| && schedule[k] == ReplyArrives
    && var before := Exec(initial, schedule[..k]);
      && before.Some? && before.value.posts != []
      && |before.value.posts| - 1 in before.value.replies
      && before.value.replies[|before.value.posts| - 1] == Bound
  }

  lemma {:induction false} CompletionNeedsReply(build: HandlerResult -> Json, held: Option<Json>, schedule: seq<Event>)
    requires Exec(Initial(build, held), schedule).Some?
    requires Exec(Initial(build, held), schedule).value.commit == CommitDone(Acknowledged)
    ensures exists k: nat :: AcknowledgedAt(Initial(build, held), schedule, k)
    decreases |schedule|
  {
    var last := |schedule| - 1;
    var front := schedule[..last];
    var before := Exec(Initial(build, held), front).value;
    if before.commit == CommitDone(Acknowledged) {
      CompletionNeedsReply(build, held, front);
      var k: nat :| AcknowledgedAt(Initial(build, held), front, k);
      assert front[..k] == schedule[..k];
      assert AcknowledgedAt(Initial(build, held), schedule, k);
    } else {
      assert AcknowledgedAt(Initial(build, held), schedule, last);
    }
  }

  /** Success is established only by the gateway's bound reply to a request of this commit:
      a lease conflict from the renewal, on its own, never completes a delivery. */
  lemma ConflictAloneNeverCompletes(build: HandlerResult -> Json, held: Option<Json>, schedule: seq<Event>)
    requires Exec(Initial(build, held), schedule).Some?
    requires Exec(Initial(build, held), schedule).value.main == Ended(Completed)
    ensures exists k: nat :: AcknowledgedAt(Initial(build, held), schedule, k)
  {
    ReachableInv(build, held, schedule);
    CompletionNeedsReply(build, held, schedule);
  }

  // ------------------------------------------------- which result is committed

  predicate Touches(e: Event) { e.HandlerEnds? || e.ResultMutated? }

  /** `r` is what the handler's result object holds after the first `k` events: the content
      that the last of them to return or change it gave it. */
  predicate LastWritten(schedule: seq<Event>, k: nat, r: HandlerResult) {
    k <= |schedule| && exists i :: 0 <= i < k && WrittenAt(schedule, i, k, r)
  }

  predicate WrittenAt(schedule: seq<Event>, i: int, k: nat, r: HandlerResult)
    requires 0 <= i < k <= |schedule|
  {
    Touches(schedule[i]) && schedule[i].result == r && forall m :: i < m < k ==> !Touches(schedule[m])
  }

  /** The result the delivery reports, told from its events alone: `schedule[j]` ends the
      handler and `schedule[k]` starts the commit. It is the object the handler returned, as
      its code left it by then, or a failure that names the error type and nothing else. */
  predicate Reports(schedule: seq<Event>, j: nat, k: nat, r: HandlerResult) {
    && j < k < |schedule| && schedule[j].HandlerEnds? && schedule[k] == CommitStarts
    && match schedule[j].end
       case Returned => LastWritten(schedule, k, r)
       case Raised(errorType) =>
         r == HandlerResult(ResultBudget.Failed, "atellagent.connected.error.v1", Obj([Field("error_type", Str(errorType))]), Obj([]))
       case Aborted => false
  }

  predicate EndsHandlerAt(schedule: seq<Event>, j: nat) { j < |schedule| && schedule[j].HandlerEnds? }

  /** What a state shows of how the handler ended. */
  ghost predicate Recalls(s: State, schedule: seq<Event>) {
    && (s.handler.HandlerDone? ==> LastWritten(schedule, |schedule|, s.live) && exists j: nat :: EndsHandlerAt(schedule, j))
    && (forall j: nat :: EndsHandlerAt(schedule, j) ==> s.handler == HandlerDone(schedule[j].end))
    && (forall i: nat, j: nat :: EndsHandlerAt(schedule, i) && EndsHandlerAt(schedule, j) ==> i == j)
    && (!s.commit.NoCommit? ==> HandlerFinished(s) && s.source == SourceOf(s.handler.end))
  }

  function SourceOf(end: HandlerEnd): Source { if end.Raised? then HandlerFailure(end.errorType) else HandlerResultObject }

  ghost predicate Snapshotted(s: State, schedule: seq<Event>) {
    s.snapshot.Some? ==> exists j: nat, k: nat, r: HandlerResult :: Reports(schedule, j, k, r) && s.snapshot == Some(s.build(r))
  }

  lemma LongerRun(schedule: seq<Event>, e: Event)
    ensures forall k: nat, r: HandlerResult :: k <= |schedule| ==> (LastWritten(schedule + [e], k, r) <==> LastWritten(schedule, k, r))
    ensures forall j: nat, k: nat, r: HandlerResult :: Reports(schedule, j, k, r) ==> Reports(schedule + [e], j, k, r)
    ensures forall j: nat :: EndsHandlerAt(schedule + [e], j) <==> EndsHandlerAt(schedule, j) || (j == |schedule| && e.HandlerEnds?)
  {
    var longer := schedule + [e];
    assert forall i :: 0 <= i < |schedule| ==> longer[i] == schedule[i];
    forall k: nat, r: HandlerResult | k <= |schedule| ensures LastWritten(longer, k, r) <==> LastWritten(schedule, k, r) {
      assert forall i :: 0 <= i < k ==> WrittenAt(longer, i, k, r) == WrittenAt(schedule, i, k, r);
    }
  }

  lemma NowWritten(schedule: seq<Event>, e: Event, before: HandlerResult)
    ensures Touches(e) ==> LastWritten(schedule + [e], |schedule| + 1, e.result)
    ensures !Touches(e) && LastWritten(schedule, |schedule|, before) ==> LastWritten(schedule + [e], |schedule| + 1, before)
  {
    var longer := schedule + [e];
    if Touches(e) {
      assert WrittenAt(longer, |schedule|, |longer|, e.result);
    } else if i :| 0 <= i < |schedule| && WrittenAt(schedule, i, |schedule|, before) {
      assert WrittenAt(longer, i, |longer|, before);
    }
  }

  /** What one event does to the parts that decide the committed result. */
  lemma StepSource(s: State, e: Event)
    requires Step(s, e).Some? && (!s.commit.NoCommit? ==> HandlerFinished(s) && s.source == SourceOf(s.handler.end))
    ensures var t := Step(s, e).value;
      && (e.HandlerEnds? ==> !s.handler.HandlerDone? && t.handler == HandlerDone(e.end))
      && (!e.HandlerEnds? ==> (t.handler.HandlerDone? <==> s.handler.HandlerDone?) && (s.handler.HandlerDone? ==> t.handler == s.handler))
      && t.live == (if Touches(e) then e.result else s.live)
      && (!t.commit.NoCommit? ==> HandlerFinished(t) && t.source == SourceOf(t.handler.end))
  {
  }

  lemma StepRecalls(s: State, schedule: seq<Event>, e: Event)
    requires Recalls(s, schedule) && Step(s, e).Some?
    ensures Recalls(Step(s, e).value, schedule + [e])
  {
    StepSource(s, e);
    LongerRun(schedule, e);
    NowWritten(schedule, e, s.live);
    if e.HandlerEnds? { assert EndsHandlerAt(schedule + [e], |schedule|); }
    else if j: nat :| EndsHandlerAt(schedule, j) { assert EndsHandlerAt(schedule + [e], j); }
  }

  lemma StepSnapshot(s: State, e: Event)
    requires Step(s, e).Some?
    ensures var t := Step(s, e).value;
      t.build == s.build && (e != CommitStarts ==> t.snapshot == s.snapshot) &&
      (e == CommitStarts ==> !s.commit.NoCommit? && t.snapshot == Some(s.build(Chosen(s))))
  {
  }

  lemma StepSnapshotted(s: State, schedule: seq<Event>, e: Event)
    requires Recalls(s, schedule) && Snapshotted(s, schedule) && Step(s, e).Some?
    ensures Snapshotted(Step(s, e).value, schedule + [e])
  {
    StepSnapshot(s, e);
    LongerRun(schedule, e);
    if e == CommitStarts {
      var j: nat :| EndsHandlerAt(schedule, j);
      assert (schedule + [e])[j] == schedule[j];
      assert Reports(schedule + [e], j, |schedule|, Chosen(s));
    }
  }

  lemma {:induction false} RunRecalls(build: HandlerResult -> Json, held: Option<Json>, schedule: seq<Event>)
    requires Exec(Initial(build, held), schedule).Some?
    ensures var s := Exec(Initial(build, held), schedule).value; Recalls(s, schedule) && Snapshotted(s, schedule) && s.build == build
    decreases |schedule|
  {
    if schedule != [] {
      var front, e := schedule[..|schedule| - 1], schedule[|schedule| - 1];
      assert front + [e] == schedule;
      RunRecalls(build, held, front);
      var s := Exec(Initial(build, held), front).value;
      StepSnapshot(s, e);
      StepRecalls(s, front, e);
      StepSnapshotted(s, front, e);
    }
  }

  /** What is committed is the payload of the handler's own result, or of a failure that names
      its error, and nothing else; a fresh message whose delivery completes holds it. */
  lemma CommitsTheHandlersResult(build: HandlerResult -> Json, held: Option<Json>, schedule: seq<Event>, s: State)
    requires Exec(Initial(build, held), schedule) == Some(s) && s.snapshot.Some?
    ensures exists j: nat, k: nat, r: HandlerResult :: Reports(schedule, j, k, r) && s.snapshot == Some(build(r))
    ensures held == None && s.main == Ended(Completed) ==> s.held == s.snapshot
  {
    RunRecalls(build, held, schedule);
    ReachableInv(build, held, schedule);
  }

  lemma LeftAlone(schedule: seq<Event>, j: nat, k: nat, r: HandlerResult, sent: HandlerResult)
    requires j < k < |schedule| && schedule[j] == HandlerEnds(Returned, r) && LastWritten(schedule, k, sent)
    requires forall i: nat :: EndsHandlerAt(schedule, i) ==> i == j
    requires forall i :: j < i < k ==> !schedule[i].ResultMutated?
    ensures sent == r
  {
    var m :| 0 <= m < k && WrittenAt(schedule, m, k, sent);
    assert Touches(schedule[j]);
    assert m >= j;
    assert EndsHandlerAt(schedule, m) ==> m == j;
    assert m == j;
  }

  lemma HandlerEndsOnce(build: HandlerResult -> Json, held: Option<Json>, schedule: seq<Event>)
    requires Exec(Initial(build, held), schedule).Some?
    ensures forall i: nat, j: nat :: EndsHandlerAt(schedule, i) && EndsHandlerAt(schedule, j) ==> i == j
  {
    RunRecalls(build, held, schedule);
  }

  /** A result the handler returned and then left alone until the commit started. */
  lemma ReturnedResultIsCommitted(build: HandlerResult -> Json, held: Option<Json>, schedule: seq<Event>, s: State, j: nat, r: HandlerResult)
    requires Exec(Initial(build, held), schedule) == Some(s)
    requires j < |schedule| && schedule[j] == HandlerEnds(Returned, r)
    requires forall i, k :: j < i < k < |schedule| && schedule[k] == CommitStarts ==> !schedule[i].ResultMutated?
    ensures s.snapshot.Some? ==> s.snapshot == Some(build(r))
    ensures held == None && s.main == Ended(Completed) ==> s.held == Some(build(r))
  {
    if s.snapshot.Some? {
      CommitsTheHandlersResult(build, held, schedule, s);
      HandlerEndsOnce(build, held, schedule);
      var i: nat, k: nat, sent: HandlerResult :| Reports(schedule, i, k, sent) && s.snapshot == Some(build(sent));
      assert EndsHandlerAt(schedule, i) && EndsHandlerAt(schedule, j);
      LeftAlone(schedule, j, k, r, sent);
    } else {
      DeliveryIsSafe(build, held, schedule);
    }
  }

  /** A handler that raised is reported as failed, with the type of its error and no more. */
  lemma RaisedErrorIsReported(build: HandlerResult -> Json, held: Option<Json>, schedule: seq<Event>, s: State, j: nat, errorType: string)
    requires Exec(Initial(build, held), schedule) == Some(s)
    requires j < |schedule| && schedule[j].HandlerEnds? && schedule[j].end == Raised(errorType)
    ensures var r := HandlerResult(ResultBudget.Failed, "atellagent.connected.error.v1", Obj([Field("error_type", Str(errorType))]), Obj([]));
      && (s.snapshot.Some? ==> s.snapshot == Some(build(r)))
      && (held == None && s.main == Ended(Completed) ==> s.held == Some(build(r)))
  {
    if s.snapshot.Some? {
      CommitsTheHandlersResult(build, held, schedule, s);
      HandlerEndsOnce(build, held, schedule);
      var i: nat, k: nat, sent: HandlerResult :| Reports(schedule, i, k, sent) && s.snapshot == Some(build(sent));
      assert EndsHandlerAt(schedule, i) && EndsHandlerAt(schedule, j);
    } else {
      DeliveryIsSafe(build, held, schedule);
    }
  }

  // --------------------------------------------------------- what must happen

  function Then(s: Option<State>, e: Event): Option<State> {
    match s
    case None => None
    case Some(t) => Step(t, e)
  }

  lemma Extend(start: State, schedule: seq<Event>, e: Event)
    ensures Exec(start, schedule + [e]) == Then(Exec(start, schedule), e)
  {
    assert (schedule + [e])[..|schedule + [e]| - 1] == schedule;
  }

  /** The retried request, answered by the gateway. */
  function Resent(s: State): Option<State>
    requires s.commit.CommitRunning? && s.commit.phase.Backoff?
  {
    Then(Then(Then(Then(Some(s), BackoffEnds), CommitPosts), GatewayHandles(|s.posts|)), ReplyArrives)
  }

  lemma ResendIsAcknowledged(s: State)
    requires PostsMatch(s) && AttemptsMatch(s)
    requires s.commit.CommitRunning? && s.commit.phase.Backoff? && !s.commit.cancelling
    requires s.held == None || s.held == s.snapshot
    ensures Resent(s) == Some(s.(commit := CommitDone(Acknowledged), posts := s.posts + [s.snapshot.value],
                                 replies := s.replies[|s.posts| := Bound], held := s.snapshot))
  {
  }

  lemma TwoMore(start: State, schedule: seq<Event>, a: Event, b: Event)
    ensures Exec(start, schedule + [a, b]) == Then(Then(Exec(start, schedule), a), b)
  {
    Joined(schedule, [a], [b]);
    assert [a] + [b] == [a, b];
    Extend(start, schedule, a);
    Extend(start, schedule + [a], b);
  }

  lemma Joined(a: seq<Event>, b: seq<Event>, c: seq<Event>)
    ensures a + b + c == a + (b + c)
  {
  }

  lemma FourMore(start: State, schedule: seq<Event>, a: Event, b: Event, c: Event, d: Event)
    ensures Exec(start, schedule + [a, b, c, d]) == Then(Then(Then(Then(Exec(start, schedule), a), b), c), d)
  {
    Joined(schedule, [a, b], [c, d]);
    assert [a, b] + [c, d] == [a, b, c, d];
    TwoMore(start, schedule, a, b);
    TwoMore(start, schedule + [a, b], c, d);
  }

  /** In every reachable state in which a request failed with an attempt left, whether or not
      the gateway had already committed it and its reply was lost, and even after the renewal
      was refused because of that: one answered retry and the delivery completes. */
  lemma LostReplyRecovers(build: HandlerResult -> Json, schedule: seq<Event>)
    requires Exec(Initial(build, None), schedule).Some?
    requires var s := Exec(Initial(build, None), schedule).value;
      && s.commit.CommitRunning? && s.commit.phase.Backoff? && !s.commit.cancelling
      && (s.main.AwaitCommit? || s.main.AwaitCommitOnly?)
    ensures var s := Exec(Initial(build, None), schedule).value;
      var answered := schedule + [BackoffEnds, CommitPosts, GatewayHandles(|s.posts|), ReplyArrives];
      var after := Exec(Initial(build, None), answered + [MainResumes]);
      after.Some? && after.value.main == Closing(Completed) && after.value.held == s.snapshot
  {
    var s := Exec(Initial(build, None), schedule).value;
    ReachableInv(build, None, schedule);
    ResendIsAcknowledged(s);
    FourMore(Initial(build, None), schedule, BackoffEnds, CommitPosts, GatewayHandles(|s.posts|), ReplyArrives);
    Extend(Initial(build, None), schedule + [BackoffEnds, CommitPosts, GatewayHandles(|s.posts|), ReplyArrives], MainResumes);
  }

  /** What may be an uncertain outcome: no response, or one of three statuses. */
  predicate Uncertain(fault: Fault) { fault in {TransportFault, HttpFault(502), HttpFault(503), HttpFault(504)} }

  lemma AttemptFailed(build: HandlerResult -> Json, schedule: seq<Event>, s: State, k: nat, fault: Fault)
    requires Exec(Initial(build, None), schedule) == Some(s) && s.commit == CommitRunning(InFlight(k), false)
    ensures Exec(Initial(build, None), schedule + [AttemptFails(fault)])
         == Some(s.(commit := if Uncertain(fault) && k < 5 then CommitRunning(Backoff(k), false) else CommitDone(CommitError)))
  {
    Extend(Initial(build, None), schedule, AttemptFails(fault));
  }

  /** A failed attempt is followed by another exactly when its outcome is uncertain and it was
      not the sixth, and then one answer completes the delivery; any other failure, a refused or
      unbound reply included, ends it in an error. */
  lemma FailedAttemptDecides(build: HandlerResult -> Json, schedule: seq<Event>, s: State, k: nat, fault: Fault)
    requires Exec(Initial(build, None), schedule) == Some(s) && s.commit == CommitRunning(InFlight(k), false)
    requires s.main.AwaitCommit? || s.main.AwaitCommitOnly?
    ensures var failed := schedule + [AttemptFails(fault)]; var start := Initial(build, None);
      if Uncertain(fault) && k < 5 then
        var end := Exec(start, failed + [BackoffEnds, CommitPosts, GatewayHandles(|s.posts|), ReplyArrives] + [MainResumes]);
        end.Some? && end.value.main == Closing(Completed) && end.value.held == s.snapshot
      else
        var end := Exec(start, failed + [MainResumes]);
        end.Some? && end.value.main == Closing(Errored) && end.value.posts == s.posts && Silenced(end.value)
  {
    var failed := schedule + [AttemptFails(fault)];
    AttemptFailed(build, schedule, s, k, fault);
    if Uncertain(fault) && k < 5 {
      LostReplyRecovers(build, failed);
    } else {
      ReachableInv(build, None, schedule);
      Extend(Initial(build, None), failed, MainResumes);
    }
  }

  /** The run in which nothing goes wrong. */
  function Ordinary(end: HandlerEnd, r: HandlerResult): seq<Event> {
    [HandlerStarts, HandlerEnds(end, r)] + [MainResumes, CommitStarts, CommitPosts, GatewayHandles(0)] +
    [ReplyArrives, MainResumes] + [RenewalEnds(RenewalCancelled), ChildrenJoined]
  }

  /** The states that run goes through: after the handler, the answered request and its reply. */
  function Handled(build: HandlerResult -> Json, end: HandlerEnd, r: HandlerResult): State {
    Initial(build, None).(handler := HandlerDone(end), handlerCalls := 1, live := r)
  }

  function Replied(build: HandlerResult -> Json, end: HandlerEnd, r: HandlerResult, sent: HandlerResult): State {
    Handled(build, end, r).(main := AwaitCommit, source := SourceOf(end), commit := CommitRunning(InFlight(0), false),
      snapshot := Some(build(sent)), posts := [build(sent)], replies := map[0 := Bound], held := Some(build(sent)))
  }

  lemma OrdinarySteps(build: HandlerResult -> Json, end: HandlerEnd, r: HandlerResult, sent: HandlerResult)
    requires !end.Aborted?
    requires sent == if end.Raised? then
        HandlerResult(ResultBudget.Failed, "atellagent.connected.error.v1", Obj([Field("error_type", Str(end.errorType))]), Obj([]))
      else r
    ensures Then(Then(Some(Initial(build, None)), HandlerStarts), HandlerEnds(end, r)) == Some(Handled(build, end, r))
    ensures Then(Then(Then(Then(Some(Handled(build, end, r)), MainResumes), CommitStarts), CommitPosts), GatewayHandles(0))
         == Some(Replied(build, end, r, sent))
  {
    assert [] + [build(sent)] == [build(sent)];
    assert map[][0 := Bound] == map[0 := Bound];
  }

  lemma OrdinaryEnd(s: State)
    requires s.main.AwaitCommit? && s.commit == CommitRunning(InFlight(0), false) && |s.posts| == 1 && s.replies == map[0 := Bound]
    requires s.handler.HandlerDone? && s.renewal == RenewalRunning(false)
    ensures Then(Then(Then(Then(Some(s), ReplyArrives), MainResumes), RenewalEnds(RenewalCancelled)), ChildrenJoined)
         == Some(s.(commit := CommitDone(Acknowledged), main := Ended(Completed), renewal := RenewalDone(RenewalCancelled)))
  {
  }

  /** When nothing goes wrong, a fresh message ends completed, holding the payload of exactly
      the result the handler returned, or of the failure that names its error, sent once. */
  lemma OrdinaryDeliveryCompletes(build: HandlerResult -> Json, end: HandlerEnd, r: HandlerResult, sent: HandlerResult)
    requires !end.Aborted?
    requires sent == if end.Raised? then
        HandlerResult(ResultBudget.Failed, "atellagent.connected.error.v1", Obj([Field("error_type", Str(end.errorType))]), Obj([]))
      else r
    ensures var s := Exec(Initial(build, None), Ordinary(end, r));
      s.Some? && s.value.main == Ended(Completed) && s.value.held == Some(build(sent)) && s.value.posts == [build(sent)]
  {
    var start := Initial(build, None);
    OrdinarySteps(build, end, r, sent);
    OrdinaryEnd(Replied(build, end, r, sent));
    var first := [HandlerStarts, HandlerEnds(end, r)];
    TwoMore(start, [], HandlerStarts, HandlerEnds(end, r));
    assert [] + first == first;
    var second := first + [MainResumes, CommitStarts, CommitPosts, GatewayHandles(0)];
    FourMore(start, first, MainResumes, CommitStarts, CommitPosts, GatewayHandles(0));
    FourMore(start, second, ReplyArrives, MainResumes, RenewalEnds(RenewalCancelled), ChildrenJoined);
    assert Ordinary(end, r) == second + [ReplyArrives, MainResumes, RenewalEnds(RenewalCancelled), ChildrenJoined];
  }

  // ------------------------------------------------------- what must not happen

  /** Nothing is ever sent again: no commit will start, and a running one is being cancelled. */
  predicate Silenced(s: State) {
    && s.handler != HandlerReady(false) && !s.main.AwaitFirst?
    && (s.commit.NoCommit? ==> s.main.Closing? || s.main.Ended?)
    && (s.commit.CommitRunning? ==> s.commit.cancelling)
  }

  lemma StepSilenced(s: State, e: Event)
    requires Silenced(s) && Step(s, e).Some?
    ensures var t := Step(s, e).value; Silenced(t) && t.posts == s.posts && t.handlerCalls <= s.handlerCalls
    ensures s.commit != CommitDone(Acknowledged) ==> Step(s, e).value.commit != CommitDone(Acknowledged)
  {
  }

  lemma {:induction false} SilencedSendsNothing(s: State, more: seq<Event>)
    requires Silenced(s) && Exec(s, more).Some?
    ensures var t := Exec(s, more).value; Silenced(t) && t.posts == s.posts && t.handlerCalls <= s.handlerCalls
    ensures s.commit != CommitDone(Acknowledged) ==> Exec(s, more).value.commit != CommitDone(Acknowledged)
    decreases |more|
  {
    if more != [] {
      SilencedSendsNothing(s, more[..|more| - 1]);
      StepSilenced(Exec(s, more[..|more| - 1]).value, more[|more| - 1]);
    }
  }

  /** Cancelling a delivery at any moment is final: it calls no handler, sends no request and
      does not get acknowledged any more, whatever follows. */
  lemma CancelledDeliverySendsNothing(build: HandlerResult -> Json, held: Option<Json>, schedule: seq<Event>, s: State, more: seq<Event>)
    requires Exec(Initial(build, held), schedule) == Some(s) && !s.main.Ended?
    requires Then(Some(s), ProcessCancelled).Some? && Exec(Then(Some(s), ProcessCancelled).value, more).Some?
    ensures var t := Exec(Then(Some(s), ProcessCancelled).value, more).value;
      && t.posts == s.posts && t.handlerCalls <= s.handlerCalls
      && (s.commit != CommitDone(Acknowledged) ==> t.main != Ended(Completed) && t.main != Closing(Completed))
  {
    ReachableInv(build, held, schedule);
    StepKeepsInv(s, ProcessCancelled, held);
    var cancelled := Step(s, ProcessCancelled).value;
    SilencedSendsNothing(cancelled, more);
    RunKeepsInv(cancelled, held, more);
  }

  lemma {:induction false} RunKeepsInv(s: State, held: Option<Json>, more: seq<Event>)
    requires Inv(s, held) && Exec(s, more).Some?
    ensures Inv(Exec(s, more).value, held)
    decreases |more|
  {
    if more != [] {
      RunKeepsInv(s, held, more[..|more| - 1]);
      StepKeepsInv(Exec(s, more[..|more| - 1]).value, more[|more| - 1], held);
    }
  }

  /** Losing the lease before the handler has ended commits nothing, ever. Losing it during the
      commit sends nothing more, unless the service answered 409: then the commit alone goes
      on, and nothing else changes. */
  lemma LeaseLossDecides(build: HandlerResult -> Json, held: Option<Json>, schedule: seq<Event>, s: State, error: RenewalEnd, more: seq<Event>)
    requires Exec(Initial(build, held), schedule) == Some(s) && s.renewal == RenewalDone(error)
    requires s.main.AwaitFirst? || (s.main.AwaitCommit? && s.commit.CommitRunning?)
    ensures Step(s, MainResumes).Some?
    ensures var t := Step(s, MainResumes).value;
      if s.main.AwaitCommit? && error == RenewalHttpError(409) then t == s.(main := AwaitCommitOnly)
      else t.main == Closing(Errored) && (Exec(t, more).Some? ==> Exec(t, more).value.posts == s.posts)
  {
    ReachableInv(build, held, schedule);
    var t := Step(s, MainResumes).value;
    if Silenced(t) && Exec(t, more).Some? { SilencedSendsNothing(t, more); }
  }

  // --------------------------------------------------- the commit loop on its own

  /** What becomes of one request: whether it reaches the gateway, and what the client sees. */
  datatype Fate =
    | Answered
    | Faulted(fault: Fault, arrived: bool)
    | TimedOut(arrived: bool)

  predicate Retryable(fate: Fate) { fate.Faulted? && Retried(fate.fault) }

  predicate Arrived(fate: Fate) { fate.Answered? || fate.arrived }

  /** The gateway's record of one message: idempotent, the first result wins. */
  class Gateway {
    var held: Option<Json>
    var posts: seq<Json>

    method Post(body: Json, arrives: bool) returns (reply: Reply)
      modifies this
      ensures posts == old(posts) + [body]
      ensures held == if arrives && old(held) == None then Some(body) else old(held)
      ensures reply == if held == Some(body) then Bound else Conflict
    {
      posts := posts + [body];
      if arrives && held == None { held := Some(body); }
      reply := if held == Some(body) then Bound else Conflict;
    }
  }

  /** The first attempt whose fate is not retried, or the last one allowed. */
  function Deciding(fates: nat -> Fate, k: nat): (n: nat)
    requires k < MAX_ATTEMPTS
    ensures k <= n < MAX_ATTEMPTS
    ensures n + 1 < MAX_ATTEMPTS ==> !Retryable(fates(n))
    ensures forall j :: k <= j < n ==> Retryable(fates(j))
    decreases MAX_ATTEMPTS - k
  {
    if Retryable(fates(k)) && k + 1 < MAX_ATTEMPTS then Deciding(fates, k + 1) else k
  }

  /** One of the first `n` requests reached the gateway. */
  predicate AnyArrived(fates: nat -> Fate, n: nat) { exists k :: 0 <= k < n && Arrived(fates(k)) }

  lemma NextArrived(fates: nat -> Fate, n: nat)
    ensures AnyArrived(fates, n + 1) <==> AnyArrived(fates, n) || Arrived(fates(n))
  {
  }

  /** The retry loop of `_commit_result` against any network: `fates(k)` is what happens to
      attempt `k`. It is acknowledged exactly when the deciding attempt is answered and the
      gateway holds nothing else, it sends only copies of the one payload, and it never
      displaces a result. */
  method CommitResult(gateway: Gateway, payload: Json, fates: nat -> Fate) returns (end: CommitEnd, attempts: nat)
    modifies gateway
    ensures attempts == Deciding(fates, 0) + 1 <= 6
    ensures gateway.posts == old(gateway.posts) + seq(attempts, _ => payload)
    ensures end == Acknowledged <==> fates(attempts - 1).Answered? && old(gateway.held) in {None, Some(payload)}
    ensures end == Acknowledged || end == CommitError
    ensures end == Acknowledged ==> gateway.held == Some(payload)
    ensures old(gateway.held).Some? ==> gateway.held == old(gateway.held)
    ensures old(gateway.held) == None ==>
      gateway.held == if AnyArrived(fates, attempts) then Some(payload) else None
  {
    attempts := 0;
    while attempts < MAX_ATTEMPTS
      invariant attempts < MAX_ATTEMPTS
      invariant Deciding(fates, attempts) == Deciding(fates, 0)
      invariant gateway.posts == old(gateway.posts) + seq(attempts, _ => payload)
      invariant old(gateway.held).Some? ==> gateway.held == old(gateway.held)
      invariant old(gateway.held) == None ==>
        gateway.held == if AnyArrived(fates, attempts) then Some(payload) else None
    {
      var fate := fates(attempts);
      NextArrived(fates, attempts);
      var reply := gateway.Post(payload, Arrived(fate));
      assert seq(attempts, _ => payload) + [payload] == seq(attempts + 1, _ => payload);
      attempts := attempts + 1;
      if fate.Answered? { return if reply == Bound then Acknowledged else CommitError, attempts; }
      if !Retryable(fate) || attempts == MAX_ATTEMPTS { return CommitError, attempts; }
    }
  }
}
