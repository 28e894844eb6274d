/** What a connected participant must do: the runs that receive, rotate and stop, and what each
    counter stands for. `Participant` says what no run does; here every receive request, delivery
    and session is accounted for by the event that made it, and the ordinary run of a receive
    call, of a rotation and of a stop is followed to its end from any reachable state that
    allows it. A stop always can end, because the grace period cancels what it waits for, and a
    cancelled task needs no more than two events of its own to finish. Several theorems here
    state the converse of one there: that a rotation swaps the session and not only that it
    swaps it alone, that a full participant goes on once a delivery has ended. */
module ParticipantRuns {
  import opened Outcomes
  import opened Participant

  // ------------------------------------------------- what the counters stand for

  /** The event installs a session: a rotation's activation, or a completed reload. */
  predicate Installs(s: State, e: Event) {
    || ActivatedBy(s, e)
    || (e == CleanupEnds(true) && s.lifecycle.Joining? && s.lifecycle.purpose.Reload?)
  }

  predicate ActivatedBy(s: State, e: Event) {
    e.RotationResumes? && e.progress == Proceed && e.id in s.tasks && s.tasks[e.id] == Rotation(Activating, false)
  }

  /** How many events of the run are of a kind. */
  ghost function Count(s: State, schedule: seq<Event>, kind: (State, Event) -> bool): nat
    requires Exec(s, schedule).Some?
    decreases |schedule|
  {
    if schedule == [] then 0
    else
      var front := schedule[..|schedule| - 1];
      Count(s, front, kind) + if kind(Exec(s, front).value, schedule[|schedule| - 1]) then 1 else 0
  }

  lemma RotationInstalls(s: State, id: nat, progress: Progress)
    requires RotationStep(s, id, progress).Some?
    ensures RotationStep(s, id, progress).value.session == s.session + if ActivatedBy(s, RotationResumes(id, progress)) then 1 else 0
  {
  }

  lemma StepInstalls(s: State, e: Event)
    requires Step(s, e).Some?
    ensures Step(s, e).value.session == s.session + if Installs(s, e) then 1 else 0
  {
    if e.RotationResumes? { RotationInstalls(s, e.id, e.progress); }
    else if ReceiverEvent(e) && s.claim.Held? && !e.Acknowledged? { OtherClaimEffect(s, e); }
  }

  lemma StepCounts(s: State, e: Event)
    requires Step(s, e).Some?
    ensures var t := Step(s, e).value;
      t.claims == s.claims + (if e == Registered(true) then 1 else 0) && t.next == s.next + if e == Acknowledged(true) then 1 else 0
  {
    if DeliveryEvent(e) { DeliveryEffect(s, e); }
    else if ReceiverEvent(e) { if s.claim.Held? { ClaimCounts(s, e); } }
    else { LifecycleEffect(s, e); }
  }

  lemma ClaimCounts(s: State, e: Event)
    requires s.claim.Held? && ClaimStep(s, e).Some?
    ensures var t := ClaimStep(s, e).value;
      t.claims == s.claims + (if e == Registered(true) then 1 else 0) && t.next == s.next + if e == Acknowledged(true) then 1 else 0
  {
    if e.Response? { ResponseCounts(s, e.received); }
    else if e.Validated? { ValidationCounts(s, s.claim.phase.pause, e.validation); }
    else if e.Acknowledged? { AcknowledgementCounts(s, s.claim.phase.pause, e.ok); }
  }

  lemma ResponseCounts(s: State, received: Received)
    requires s.claim.Held?
    ensures var t := AfterResponse(s, received); t.claims == s.claims && t.next == s.next
  {
  }

  lemma ValidationCounts(s: State, pause: bool, validation: Validation)
    requires s.claim.Held?
    ensures var t := AfterValidation(s, pause, validation); t.claims == s.claims && t.next == s.next
  {
  }

  lemma AcknowledgementCounts(s: State, pause: bool, ok: bool)
    requires s.claim.Held?
    ensures var t := AfterAcknowledgement(s, pause, ok); t.claims == s.claims && t.next == s.next + if ok then 1 else 0
  {
  }

  /** Over any run, every session installed is a rotation's activation or a completed reload,
      and each of those installs one; every request is a registered receive call; every
      delivery is an accepted acknowledgement. */
  lemma {:induction false} EverythingIsAccountedFor(s: State, schedule: seq<Event>, t: State)
    requires Exec(s, schedule) == Some(t)
    ensures t.session == s.session + Count(s, schedule, (u, e) => Installs(u, e))
    ensures t.claims == s.claims + Count(s, schedule, (u: State, e) => e == Registered(true))
    ensures t.next == s.next + Count(s, schedule, (u: State, e) => e == Acknowledged(true))
    decreases |schedule|
  {
    if schedule != [] {
      var front := schedule[..|schedule| - 1];
      var before := Exec(s, front).value;
      EverythingIsAccountedFor(s, front, before);
      StepInstalls(before, schedule[|schedule| - 1]);
      StepCounts(before, schedule[|schedule| - 1]);
    }
  }

  // ------------------------------------------------------------------- rotation

  /** The rotation proceeds whenever it goes on, and is never aborted. */
  predicate Proceeds(schedule: seq<Event>, id: nat) {
    forall k :: 0 <= k < |schedule| ==>
      (schedule[k].RotationResumes? && schedule[k].id == id ==> schedule[k].progress == Proceed) && schedule[k] != RotationAborts(id)
  }

  predicate BeforeSwap(phase: RotationPhase) {
    phase.Created? || phase.Draining? || phase.DrainRequest? || phase.Issuing? || phase.Activating?
  }

  /** Where a rotation that only proceeds can be, after `swaps` activations of its own. */
  predicate OnItsWay(s: State, id: nat, swaps: nat) {
    && id in s.tasks && !s.tasks[id].Process?
    && if s.tasks[id].Finished? then swaps == 1
       else if BeforeSwap(s.tasks[id].phase) then swaps == 0
       else (s.tasks[id].phase.Reconnecting? || s.tasks[id].phase == JoiningRenewal(false)) && swaps == 1
  }

  lemma ProceedsOnItsWay(s: State, id: nat, swaps: nat)
    requires OnItsWay(s, id, swaps) && RotationStep(s, id, Proceed).Some?
    ensures OnItsWay(RotationStep(s, id, Proceed).value, id, swaps + if ActivatedBy(s, RotationResumes(id, Proceed)) then 1 else 0)
  {
  }

  lemma StepsOnItsWay(s: State, e: Event, id: nat, swaps: nat)
    requires OnItsWay(s, id, swaps) && Step(s, e).Some? && id < s.next && e != RotationAborts(id)
    requires e.RotationResumes? && e.id == id ==> e.progress == Proceed
    ensures OnItsWay(Step(s, e).value, id, swaps + if ActivatedBy(s, e) && e.id == id then 1 else 0) && id < Step(s, e).value.next
  {
    if ReceiverEvent(e) { ReceiverEffect(s, e); }
    else if DeliveryEvent(e) {
      DeliveryEffect(s, e);
      if e == RotationResumes(id, Proceed) { ProceedsOnItsWay(s, id, swaps); }
    }
    else { LifecycleEffect(s, e); }
  }

  lemma {:induction false} RunsOnItsWay(s: State, schedule: seq<Event>, id: nat)
    requires Exec(s, schedule).Some? && OnItsWay(s, id, 0) && id < s.next && Proceeds(schedule, id)
    ensures var t := Exec(s, schedule).value;
      id < t.next && OnItsWay(t, id, Count(s, schedule, (u, e) => ActivatedBy(u, e) && e.id == id))
    decreases |schedule|
  {
    if schedule != [] {
      var front, e := schedule[..|schedule| - 1], schedule[|schedule| - 1];
      RunsOnItsWay(s, front, id);
      StepsOnItsWay(Exec(s, front).value, e, id, Count(s, front, (u, f) => ActivatedBy(u, f) && f.id == id));
    }
  }

  /** Whatever else happens meanwhile, a rotation that ends after only proceeding has installed
      exactly one session. */
  lemma FinishedRotationSwappedOnce(maxConcurrency: int, s: State, id: nat, schedule: seq<Event>, t: State)
    requires Reachable(maxConcurrency, s) && id in s.tasks && s.tasks[id] == Rotation(Created, false)
    requires Exec(s, schedule) == Some(t) && Proceeds(schedule, id) && id in t.tasks && t.tasks[id].Finished?
    ensures Count(s, schedule, (u, e) => ActivatedBy(u, e) && e.id == id) == 1
  {
    ReachableInv(maxConcurrency, s);
    RunsOnItsWay(s, schedule, id);
  }

  /** How often a rotation without company has to go on until it has ended. */
  function Remaining(phase: RotationPhase): nat {
    match phase
    case Created | Draining(_) => 6
    case DrainRequest => 5
    case Issuing => 4
    case Activating => 3
    case Reconnecting => 2
    case Restoring(report) => if report then 3 else 2
    case JoiningRenewal(report) => if report then 2 else 1
    case Reporting => 1
    case Unwinding => 0
  }

  function Repeated(e: Event, n: nat): seq<Event> { seq(n, _ => e) }

  /** The state after a rotation from `phase` has ended. */
  function Rotated(s: State, id: nat, phase: RotationPhase): State {
    s.(tasks := s.tasks[id := Finished], enabled := true, session := s.session + if BeforeSwap(phase) then 1 else 0)
  }

  /** Where a rotation without company goes on to. */
  function After(phase: RotationPhase): RotationPhase {
    match phase
    case Created | Draining(_) => DrainRequest
    case DrainRequest => Issuing
    case Issuing => Activating
    case Activating => Reconnecting
    case Reconnecting => JoiningRenewal(false)
    case Restoring(report) => JoiningRenewal(report)
    case _ => Reporting
  }

  lemma ProceedsAlone(s: State, id: nat, phase: RotationPhase)
    requires id in s.tasks && s.tasks[id] == Rotation(phase, false) && !phase.Unwinding? && Others(s, id) == {}
    requires phase.Draining? ==> Over(s, phase.watched)
    ensures Step(s, RotationResumes(id, Proceed)) == Some(
      if Remaining(phase) == 1 then Rotated(s, id, phase)
      else s.(tasks := s.tasks[id := Rotation(After(phase), false)], session := s.session + if phase.Activating? then 1 else 0))
  {
  }

  lemma AloneGoesOn(s: State, id: nat, phase: RotationPhase)
    requires id in s.tasks && s.tasks[id] == Rotation(phase, false) && !phase.Unwinding? && Others(s, id) == {}
    requires phase.Draining? ==> Over(s, phase.watched)
    ensures Step(s, RotationResumes(id, Proceed)).Some?
    ensures var t := Step(s, RotationResumes(id, Proceed)).value;
      if Remaining(phase) == 1 then t == Rotated(s, id, phase)
      else
        && id in t.tasks && t.tasks[id].Rotation? && !t.tasks[id].cancelling && !t.tasks[id].phase.Unwinding? && !t.tasks[id].phase.Draining?
        && Remaining(t.tasks[id].phase) == Remaining(phase) - 1 && Rotated(t, id, t.tasks[id].phase) == Rotated(s, id, phase)
        && t.tasks == s.tasks[id := t.tasks[id]]
  {
    ProceedsAlone(s, id, phase);
    var t := Step(s, RotationResumes(id, Proceed)).value;
    assert t.tasks[id := Finished] == s.tasks[id := Finished];
  }

  lemma StillAlone(s: State, t: State, id: nat)
    requires id in t.tasks && t.tasks == s.tasks[id := t.tasks[id]] && Others(s, id) == {}
    ensures Others(t, id) == {}
  {
    assert Others(t, id) <= Others(s, id);
  }

  lemma {:induction false} AloneCompletes(s: State, id: nat, phase: RotationPhase)
    requires id in s.tasks && s.tasks[id] == Rotation(phase, false) && !phase.Unwinding? && Others(s, id) == {}
    requires phase.Draining? ==> Over(s, phase.watched)
    ensures Exec(s, Repeated(RotationResumes(id, Proceed), Remaining(phase))) == Some(Rotated(s, id, phase))
    decreases Remaining(phase)
  {
    var e := RotationResumes(id, Proceed);
    AloneGoesOn(s, id, phase);
    var t := Step(s, e).value;
    ExecCons(s, e, Repeated(e, Remaining(phase) - 1));
    assert [e] + Repeated(e, Remaining(phase) - 1) == Repeated(e, Remaining(phase));
    if Remaining(phase) == 1 {
      assert Repeated(e, 0) == [];
    } else {
      StillAlone(s, t, id);
      AloneCompletes(t, id, t.tasks[id].phase);
    }
  }

  /** From every reachable state in which a rotation is the one unfinished delivery and was not
      cancelled, at most six successful steps end it: receiving is enabled again, and the
      session is a new one exactly if it had not been swapped or given up before. */
  lemma RotationCompletes(maxConcurrency: int, s: State, id: nat, phase: RotationPhase)
    requires Reachable(maxConcurrency, s) && id in s.tasks && s.tasks[id] == Rotation(phase, false) && Unfinished(s) == {id}
    ensures Remaining(phase) <= 6
    ensures Exec(s, Repeated(RotationResumes(id, Proceed), Remaining(phase))) == Some(Rotated(s, id, phase))
  {
    ReachableInv(maxConcurrency, s);
    assert UnfinishedRotation(s, id);
    if phase.Draining? { DrainIsOver(s, id); }
    AloneCompletes(s, id, phase);
  }

  lemma DrainIsOver(s: State, id: nat)
    requires Inv(s) && UnfinishedRotation(s, id) && s.tasks[id].phase.Draining? && Unfinished(s) == {id}
    ensures Over(s, s.tasks[id].phase.watched)
  {
    var watched := s.tasks[id].phase.watched;
    assert id !in watched;
    assert forall other :: other in watched && other in s.tasks && !s.tasks[other].Finished? ==> other in Unfinished(s);
  }

  /** A failure before the swap is reported unless it is temporary, on the session it has, and
      receiving is enabled again either way. */
  lemma FailureIsReportedUnlessTemporary(maxConcurrency: int, s: State, id: nat, retryable: bool)
    requires Reachable(maxConcurrency, s) && UnfinishedRotation(s, id) && !s.tasks[id].cancelling && Unfinished(s) == {id}
    requires var phase := s.tasks[id].phase; phase.Created? || phase.DrainRequest? || phase.Issuing? || phase.Activating?
    ensures var go := RotationResumes(id, Proceed); var end := s.(tasks := s.tasks[id := Finished], enabled := true);
      && Exec(s, [RotationResumes(id, Fail(retryable))] + Repeated(go, if retryable then 2 else 3)) == Some(end)
    ensures !retryable ==> var waiting := Exec(s, [RotationResumes(id, Fail(false))] + Repeated(RotationResumes(id, Proceed), 2));
      waiting == Some(s.(tasks := s.tasks[id := Rotation(Reporting, false)]))
  {
    var go, e := RotationResumes(id, Proceed), RotationResumes(id, Fail(retryable));
    var t := Step(s, e).value;
    assert t == s.(tasks := s.tasks[id := Rotation(Restoring(!retryable), false)]);
    StillAlone(s, t, id);
    AloneCompletes(t, id, Restoring(!retryable));
    assert t.tasks[id := Finished] == s.tasks[id := Finished];
    ExecCons(s, e, Repeated(go, if retryable then 2 else 3));
    if !retryable { Reports(s, t, id, e); }
  }

  lemma RotationMoves(s: State, id: nat, from: RotationPhase, to: RotationPhase)
    requires id in s.tasks && (from, to) in {(Restoring(true), JoiningRenewal(true)), (JoiningRenewal(true), Reporting)}
    ensures Step(s.(tasks := s.tasks[id := Rotation(from, false)]), RotationResumes(id, Proceed))
         == Some(s.(tasks := s.tasks[id := Rotation(to, false)]))
  {
    assert s.tasks[id := Rotation(from, false)][id := Rotation(to, false)] == s.tasks[id := Rotation(to, false)];
  }

  lemma Reports(s: State, t: State, id: nat, e: Event)
    requires Step(s, e) == Some(t) && id in s.tasks && t == s.(tasks := s.tasks[id := Rotation(Restoring(true), false)])
    ensures Exec(s, [e] + Repeated(RotationResumes(id, Proceed), 2)) == Some(s.(tasks := s.tasks[id := Rotation(Reporting, false)]))
  {
    var go := RotationResumes(id, Proceed);
    RotationMoves(s, id, Restoring(true), JoiningRenewal(true));
    RotationMoves(s, id, JoiningRenewal(true), Reporting);
    ExecCons(s, e, Repeated(go, 2));
    TwoEvents(t, go, go);
    assert Repeated(go, 2) == [go, go];
  }

  // ------------------------------------------------------------------ receiving

  /** The state after a message was accepted. */
  function Accepted(s: State, byLoop: bool, pause: bool): State {
    s.(tasks := s.tasks[s.next := if pause then Rotation(Created, false) else Process(false, false)],
       fromLoop := if byLoop then s.fromLoop + {s.next} else s.fromLoop,
       next := s.next + 1, claims := s.claims + 1, enabled := !pause)
  }

  lemma AdmittedAtOnce(s: State, byLoop: bool)
    requires s.claim.Free? && s.enabled && !s.stop && |Unfinished(s)| < s.max && (byLoop ==> s.loops)
    ensures Then(Then(Then(Some(s), ReceiveCalled(byLoop)), ClaimResumes), Registered(true))
         == Some(s.(claim := Held(byLoop, Requesting), claims := s.claims + 1))
  {
    assert Unfinished(s.(claim := Held(byLoop, AwaitEnabled))) == Unfinished(s);
  }

  lemma AcceptedInTurn(s: State, byLoop: bool, pause: bool)
    requires s.claim == Held(byLoop, Requesting) && s.enabled
    ensures Then(Then(Then(Some(s), Response(if pause then Rotate else Operation)), Validated(Valid)), Acknowledged(true))
         == Some(Accepted(s, byLoop, pause).(claim := Free, claims := s.claims))
  {
  }

  lemma ThreeMore(s: State, events: seq<Event>, a: Event, b: Event, c: Event)
    ensures Exec(s, events + [a, b, c]) == Then(Then(Then(Exec(s, events), a), b), c)
  {
    var one := events + [a];
    var two := one + [b];
    Extend(s, events, a);
    Extend(s, one, b);
    Extend(s, two, c);
    ListOfThree(events, a, b, c);
  }

  lemma ListOfThree(events: seq<Event>, a: Event, b: Event, c: Event)
    ensures events + [a] + [b] + [c] == events + [a, b, c]
  {
  }

  /** From every reachable state with the gate open and a delivery to spare, a receive call
      whose exchanges succeed sends one request and adds one delivery: a task for an operation,
      and for a rotation the rotation, with the gate closed behind it. */
  lemma MessageIsReceived(maxConcurrency: int, s: State, byLoop: bool, pause: bool)
    requires Reachable(maxConcurrency, s) && s.claim.Free? && s.enabled && !s.stop && |Unfinished(s)| < s.max
    requires byLoop ==> s.loops
    ensures Exec(s, [ReceiveCalled(byLoop), ClaimResumes, Registered(true)] +
                    [Response(if pause then Rotate else Operation), Validated(Valid), Acknowledged(true)])
         == Some(Accepted(s, byLoop, pause))
  {
    AsksOnce(s, byLoop);
    AcceptedFromAsked(s, byLoop, pause);
    TakesMessage(s, [ReceiveCalled(byLoop), ClaimResumes, Registered(true)],
                 s.(claim := Held(byLoop, Requesting), claims := s.claims + 1), byLoop, pause);
  }

  lemma AcceptedFromAsked(s: State, byLoop: bool, pause: bool)
    requires s.claim.Free?
    ensures var t := s.(claim := Held(byLoop, Requesting), claims := s.claims + 1);
      Accepted(t, byLoop, pause).(claim := Free, claims := t.claims) == Accepted(s, byLoop, pause)
  {
  }

  lemma TakesMessage(s: State, asked: seq<Event>, t: State, byLoop: bool, pause: bool)
    requires Exec(s, asked) == Some(t) && t.claim == Held(byLoop, Requesting) && t.enabled
    ensures Exec(s, asked + [Response(if pause then Rotate else Operation), Validated(Valid), Acknowledged(true)])
         == Some(Accepted(t, byLoop, pause).(claim := Free, claims := t.claims))
  {
    AcceptedInTurn(t, byLoop, pause);
    ThreeMore(s, asked, Response(if pause then Rotate else Operation), Validated(Valid), Acknowledged(true));
  }

  lemma AsksOnce(s: State, byLoop: bool)
    requires s.claim.Free? && s.enabled && !s.stop && |Unfinished(s)| < s.max && (byLoop ==> s.loops)
    ensures Exec(s, [ReceiveCalled(byLoop), ClaimResumes, Registered(true)])
         == Some(s.(claim := Held(byLoop, Requesting), claims := s.claims + 1))
  {
    var first := [ReceiveCalled(byLoop), ClaimResumes, Registered(true)];
    AdmittedAtOnce(s, byLoop);
    assert Exec(s, []) == Some(s) && [] + first == first;
    ThreeMore(s, [], ReceiveCalled(byLoop), ClaimResumes, Registered(true));
  }

  /** In every reachable state an accepted delivery that was not cancelled runs and ends, and
      gives its permit back. */
  lemma AcceptedDeliveryRuns(maxConcurrency: int, s: State, id: nat)
    requires Reachable(maxConcurrency, s) && id in s.tasks && s.tasks[id] == Process(false, false)
    ensures Exec(s, [ProcessStarts(id), ProcessEnds(id)]) == Some(s.(tasks := s.tasks[id := Finished]))
  {
    AdmissionIsBounded(maxConcurrency, s);
    var running := Step(s, ProcessStarts(id)).value;
    assert s.tasks[id := Process(true, false)][id := Finished] == s.tasks[id := Finished];
    assert Step(running, ProcessEnds(id)) == Some(s.(tasks := s.tasks[id := Finished]));
    TwoEvents(s, ProcessStarts(id), ProcessEnds(id));
  }

  /** An unsupported message, or one whose capability is invalid, is refused before anything is
      added, and the lock is free again; an empty answer frees it at once. */
  lemma RefusedMessageAddsNothing(s: State, byLoop: bool, pause: bool)
    ensures var asked := s.(claim := Held(byLoop, Requesting)); var free := s.(claim := Free);
      && Exec(asked, [Response(Nothing)]) == Some(free)
      && Exec(asked, [Response(Unsupported)]) == Some(s.(claim := Held(byLoop, Rejecting)))
      && Exec(asked, [Response(Unsupported), Rejected]) == Some(free)
    ensures var checked := s.(claim := Held(byLoop, Validating(pause))); var free := s.(claim := Free);
      && Exec(checked, [Validated(Invalid)]) == Some(s.(claim := Held(byLoop, Rejecting)))
      && Exec(checked, [Validated(Invalid), Rejected]) == Some(free)
  {
    var asked, checked := s.(claim := Held(byLoop, Requesting)), s.(claim := Held(byLoop, Validating(pause)));
    OneEvent(asked, Response(Nothing));
    OneEvent(asked, Response(Unsupported));
    OneEvent(checked, Validated(Invalid));
    TwoEvents(asked, Response(Unsupported), Rejected);
    TwoEvents(checked, Validated(Invalid), Rejected);
  }

  lemma OneEvent(s: State, a: Event)
    ensures Exec(s, [a]) == Step(s, a)
  {
    Extend(s, [], a);
    assert [] + [a] == [a];
  }

  lemma TwoEvents(s: State, a: Event, b: Event)
    ensures Exec(s, [a, b]) == Then(Step(s, a), b)
  {
    OneEvent(s, a);
    Extend(s, [a], b);
    assert [a] + [b] == [a, b];
  }

  /** A receive call at the limit waits for one of the deliveries there are; once one of those
      has ended it goes on, unless the participant is stopping: then it gives the lock up. */
  lemma FullParticipantWaits(maxConcurrency: int, s: State, id: nat)
    requires Reachable(maxConcurrency, s) && s.claim.Held? && s.claim.phase.AwaitEnabled? && s.enabled && !s.stop
    requires |Unfinished(s)| == s.max && id in Unfinished(s) && s.tasks[id].Process? && (s.tasks[id].running || s.tasks[id].cancelling)
    ensures Step(s, ClaimResumes) == Some(s.(claim := s.claim.(phase := Blocked(Unfinished(s)))))
    ensures Step(s.(claim := s.claim.(phase := Blocked(Unfinished(s)))), ClaimResumes) == None
    ensures var ended := Exec(s, [ClaimResumes, ProcessEnds(id)]);
      && ended.Some?
      && Step(ended.value, ClaimResumes) == Some(ended.value.(claim := s.claim.(phase := Registering)))
      && Step(ended.value.(stop := true), ClaimResumes) == Some(ended.value.(stop := true, claim := Free))
  {
    var blocked := s.(claim := s.claim.(phase := Blocked(Unfinished(s))));
    TwoEvents(s, ClaimResumes, ProcessEnds(id));
    assert Unfinished(blocked) == Unfinished(s);
    var ended := Step(blocked, ProcessEnds(id)).value;
    assert Unfinished(ended) == Unfinished(s) - {id};
    assert id in Unfinished(s) && id in ended.tasks && ended.tasks[id].Finished?;
    assert Unfinished(ended.(stop := true)) == Unfinished(ended);
  }

  // ------------------------------------------------------------------- stopping

  /** What a stop waits for was there when it began, and is being cancelled once the grace
      period is over. */
  predicate Stragglers(s: State) {
    && (s.lifecycle.Waiting? || s.lifecycle.Joining? ==> s.lifecycle.watched <= s.tasks.Keys)
    && (s.lifecycle.Joining? ==>
          forall id :: id in s.lifecycle.watched && id in s.tasks && !s.tasks[id].Finished? ==> s.tasks[id].cancelling)
  }

  lemma TaskKeepsCancelling(s: State, e: Event)
    requires DeliveryEvent(e) && Step(s, e).Some? && e.id in s.tasks && !s.tasks[e.id].Finished? && s.tasks[e.id].cancelling
    ensures var t := Step(s, e).value; e.id in t.tasks && (t.tasks[e.id].Finished? || t.tasks[e.id].cancelling)
  {
  }

  lemma FinishedTaskStays(s: State, e: Event)
    requires DeliveryEvent(e) && Step(s, e).Some? && e.id in s.tasks && s.tasks[e.id].Finished?
    ensures e.id in Step(s, e).value.tasks && Step(s, e).value.tasks[e.id].Finished?
  {
  }

  lemma StepStragglers(s: State, e: Event)
    requires Inv(s) && Stragglers(s) && Step(s, e).Some?
    ensures Stragglers(Step(s, e).value)
  {
    if ReceiverEvent(e) { ReceiverEffect(s, e); ReceiverKeepsLifecycle(s, e); }
    else if DeliveryEvent(e) {
      DeliveryEffect(s, e);
      if !s.tasks[e.id].Finished? && s.tasks[e.id].cancelling { TaskKeepsCancelling(s, e); }
      if s.tasks[e.id].Finished? { FinishedTaskStays(s, e); }
    }
    else { LifecycleEffect(s, e); LifecycleStragglers(s, e); }
  }

  lemma ReceiverKeepsLifecycle(s: State, e: Event)
    requires ReceiverEvent(e) && Step(s, e).Some?
    ensures Step(s, e).value.lifecycle == s.lifecycle
  {
    if s.claim.Held? && !e.Acknowledged? { OtherClaimEffect(s, e); }
  }

  lemma LifecycleStragglers(s: State, e: Event)
    requires Stragglers(s) && !ReceiverEvent(e) && !DeliveryEvent(e) && Step(s, e).Some?
    ensures Stragglers(Step(s, e).value)
  {
  }

  lemma {:induction false} RunStragglers(s: State, schedule: seq<Event>)
    requires Inv(s) && Stragglers(s) && Exec(s, schedule).Some?
    ensures Stragglers(Exec(s, schedule).value)
    decreases |schedule|
  {
    if schedule != [] {
      var front := schedule[..|schedule| - 1];
      RunStragglers(s, front);
      RunKeepsInv(s, front);
      StepStragglers(Exec(s, front).value, schedule[|schedule| - 1]);
    }
  }

  lemma ReachableStragglers(maxConcurrency: int, s: State)
    requires Reachable(maxConcurrency, s)
    ensures Stragglers(s)
  {
    var schedule :| Exec(Initial(maxConcurrency), schedule) == Some(s);
    InitialInv(maxConcurrency);
    RunStragglers(Initial(maxConcurrency), schedule);
  }

  /** Some continuation ends the stop the way it was asked for. */
  ghost predicate CanEndStop(s: State, purpose: Purpose, session: nat) {
    exists more :: Exec(s, more).Some? && Ended(Exec(s, more).value, purpose, session)
  }

  /** A stop leaves the participant down; a reload has installed a session and starts again
      what was started. */
  predicate Ended(t: State, purpose: Purpose, session: nat) {
    && t.session == session + (if purpose.Reload? then 1 else 0)
    && t.lifecycle == (if purpose == Reload(true) then Starting else Down)
    && (t.stop <==> purpose != Reload(true)) && !t.loops
  }

  lemma CanEndAfter(s: State, e: Event, purpose: Purpose, session: nat)
    requires Step(s, e).Some? && CanEndStop(Step(s, e).value, purpose, session)
    ensures CanEndStop(s, purpose, session)
  {
    var t := Step(s, e).value;
    var more :| Exec(t, more).Some? && Ended(Exec(t, more).value, purpose, session);
    ExecCons(s, e, more);
    assert Exec(s, [e] + more).Some? && Ended(Exec(s, [e] + more).value, purpose, session);
  }

  function Left(s: State): set<nat>
    requires s.lifecycle.Joining?
  {
    set id | id in s.tasks && id in s.lifecycle.watched && !s.tasks[id].Finished?
  }

  /** What ending one cancelled delivery leaves alone. */
  predicate OneEnded(s: State, t: State, id: nat) {
    && id in s.tasks && t.tasks == s.tasks[id := Finished]
    && t.lifecycle == s.lifecycle && t.session == s.session && t.loops == s.loops && t.stop == s.stop
  }

  lemma CancelledProcessEnds(s: State, id: nat)
    requires id in s.tasks && s.tasks[id].Process? && s.tasks[id].cancelling
    ensures Step(s, ProcessEnds(id)).Some? && OneEnded(s, Step(s, ProcessEnds(id)).value, id)
  {
  }

  /** A cancelled rotation ends in one event, or first unwinds. */
  lemma CancelledRotationEnds(s: State, id: nat) returns (twice: bool)
    requires id in s.tasks && s.tasks[id].Rotation? && s.tasks[id].cancelling
    ensures Step(s, RotationAborts(id)).Some?
    ensures var t := Step(s, RotationAborts(id)).value;
      if !twice then OneEnded(s, t, id) else Step(t, RotationAborts(id)).Some? && OneEnded(s, Step(t, RotationAborts(id)).value, id)
  {
    var t := Step(s, RotationAborts(id)).value;
    twice := !t.tasks[id].Finished?;
    if twice { assert t.tasks[id := Finished] == s.tasks[id := Finished]; }
  }

  /** Once the grace period is over, what is waited for can end, and then the stop. */
  lemma {:induction false} JoiningCanEnd(s: State)
    requires s.lifecycle.Joining? && Stragglers(s) && !s.loops && s.stop
    ensures CanEndStop(s, s.lifecycle.purpose, s.session)
    decreases |Left(s)|
  {
    var purpose := s.lifecycle.purpose;
    if id :| id in Left(s) {
      if s.tasks[id].Process? {
        CancelledProcessEnds(s, id);
        OneLess(s, Step(s, ProcessEnds(id)).value, id);
        JoiningCanEnd(Step(s, ProcessEnds(id)).value);
        CanEndAfter(s, ProcessEnds(id), purpose, s.session);
      } else {
        var twice := CancelledRotationEnds(s, id);
        var t := Step(s, RotationAborts(id)).value;
        var u := if twice then Step(t, RotationAborts(id)).value else t;
        OneLess(s, u, id);
        JoiningCanEnd(u);
        if twice { CanEndAfter(t, RotationAborts(id), purpose, s.session); }
        CanEndAfter(s, RotationAborts(id), purpose, s.session);
      }
    } else {
      assert Over(s, s.lifecycle.watched) by {
        assert forall id :: id in s.lifecycle.watched && id in s.tasks && !s.tasks[id].Finished? ==> id in Left(s);
      }
      var t := Step(s, CleanupEnds(true)).value;
      assert Exec(t, []) == Some(t) && Ended(t, purpose, s.session);
      CanEndAfter(s, CleanupEnds(true), purpose, s.session);
    }
  }

  lemma OneLess(s: State, t: State, id: nat)
    requires s.lifecycle.Joining? && Stragglers(s) && id in Left(s) && OneEnded(s, t, id)
    ensures Stragglers(t) && |Left(t)| < |Left(s)|
  {
    assert Left(t) == Left(s) - {id};
  }

  lemma WaitingCanEnd(s: State)
    requires s.lifecycle.Waiting? && Stragglers(s) && !s.loops && s.stop
    ensures CanEndStop(s, s.lifecycle.purpose, s.session)
  {
    LifecycleStragglers(s, GraceEnds);
    JoiningCanEnd(Step(s, GraceEnds).value);
    CanEndAfter(s, GraceEnds, s.lifecycle.purpose, s.session);
  }

  /** A started participant can always be stopped or reloaded, whatever it is doing: the stop
      ends, down or started again on a new session as asked, and joins the loops on the way. */
  lemma StopCanAlwaysEnd(maxConcurrency: int, s: State, purpose: Purpose)
    requires Reachable(maxConcurrency, s) && s.lifecycle.Up? && purpose != Reload(false)
    ensures Step(s, CleanupRequested(purpose)).Some? && CanEndStop(Step(s, CleanupRequested(purpose)).value, purpose, s.session)
  {
    ReachableStragglers(maxConcurrency, s);
    var t := Step(s, CleanupRequested(purpose)).value;
    if t.claim.Held? && t.claim.byLoop {
      var u := Abandon(t);
      LoopsCanEnd(u, purpose);
      CanEndAfter(t, ClaimCancelled, purpose, s.session);
    } else {
      LoopsCanEnd(t, purpose);
    }
  }

  lemma LoopsCanEnd(t: State, purpose: Purpose)
    requires t.lifecycle == JoiningLoops(purpose) && t.stop && !(t.claim.Held? && t.claim.byLoop)
    ensures CanEndStop(t, purpose, t.session)
  {
    var u := Step(t, LoopsJoined).value;
    assert Unfinished(t) <= t.tasks.Keys;
    WaitingCanEnd(u);
    CanEndAfter(t, LoopsJoined, purpose, t.session);
  }
}
