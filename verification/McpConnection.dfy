/** Who owns the tool server's connection (`connected/mcp_client.py`). */
module McpConnection {
  import opened Outcomes

  // The task that enters the transport contexts, the calls that start and stop it, and their
  // cancellation. Every event is one section between two awaits.

  /** `_own_connection`. A task cancelled before its first step never resolves `ready`. */
  datatype Owner =
    | Created(cancelling: bool)
    | Starting(cancelling: bool)
    | Serving(cancelling: bool)
    | Unwinding
    | Done(failed: bool)

  datatype Ready = Unresolved | Resolved | Rejected

  /** What the join in `_stop_connection` was for. */
  datatype Reason = Reconnect | StartupFailed | Close

  /** The holder of `_connect_lock`. Other calls wait for it and have done nothing yet. */
  datatype Lock =
    | Free
    | AwaitingReady(owner: nat)
    | Joining(owner: nat, reason: Reason, cancelled: bool)

  /** `current` is `_owner_task`, `client` the owner whose client is published in `_client`,
      `stopping` whether `_stop` is set. Owners are numbered in order of creation. */
  datatype State = State(
    owners: seq<Owner>,
    ready: seq<Ready>,
    current: Option<nat>,
    client: Option<nat>,
    stopping: bool,
    lock: Lock)

  datatype Event =
    | ConnectEnters
    | CloseEnters
    | ReadyArrives
    | CallCancelled
    | JoinEnds
    | OwnerRuns(id: nat)
    | OwnerReady(id: nat)
    | OwnerLeaves(id: nat)
    | OwnerEnds(id: nat, failed: bool)

  function Initial(): State { State([], [], None, None, false, Free) }

  /** `_stop_connection` up to its join. */
  function Stop(s: State, cancelStartup: bool, reason: Reason): State
    requires s.current.Some? && s.current.value < |s.owners|
  {
    var id := s.current.value;
    var owner := s.owners[id];
    var cancelled :=
      if !cancelStartup then owner
      else
        match owner
        case Created(_) => Created(true)
        case Starting(_) => Starting(true)
        case Serving(_) => Serving(true)
        case _ => owner;
    s.(client := None, stopping := true, owners := s.owners[id := cancelled], lock := Joining(id, reason, false))
  }

  /** `_connect` once a finished owner is out of the way. */
  function Begin(s: State): State {
    if s.client.Some? then s.(lock := Free)
    else
      s.(owners := s.owners + [Created(false)], ready := s.ready + [Unresolved], stopping := false,
         current := Some(|s.owners|), lock := AwaitingReady(|s.owners|))
  }

  function Enter(s: State, connect: bool): Option<State> {
    if !s.lock.Free? then None
    else if s.current.None? then Some(if connect then Begin(s) else s.(client := None))
    else if s.current.value >= |s.owners| then None
    else if !connect then Some(Stop(s, false, Close))
    else if s.owners[s.current.value].Done? then Some(Stop(s, false, Reconnect))
    else Some(Begin(s))
  }

  /** The exact owner has finished: ownership is dropped. */
  function Join(s: State): Option<State> {
    if !s.lock.Joining? || s.lock.owner >= |s.owners| || !s.owners[s.lock.owner].Done? then None
    else
      var dropped := if s.current == Some(s.lock.owner) then s.(current := None) else s;
      if s.lock.reason.Reconnect? && !s.lock.cancelled && !s.owners[s.lock.owner].failed then Some(Begin(dropped))
      else Some(dropped.(lock := Free))
  }

  function SetOwner(s: State, id: nat, owner: Owner): State
    requires id < |s.owners|
  {
    s.(owners := s.owners[id := owner])
  }

  function OwnerStep(s: State, e: Event): Option<State>
    requires e.OwnerRuns? || e.OwnerReady? || e.OwnerLeaves? || e.OwnerEnds?
  {
    if e.id >= |s.owners| || e.id >= |s.ready| then None
    else
      var owner := s.owners[e.id];
      match e
      case OwnerRuns(id) =>
        if owner == Created(false) then Some(SetOwner(s, id, Starting(false)))
        else if owner == Created(true) then Some(SetOwner(s, id, Done(false)))
        else None
      case OwnerReady(id) =>
        if owner == Starting(false) then Some(SetOwner(s, id, Serving(false)).(ready := s.ready[id := Resolved])) else None
      case OwnerLeaves(id) =>
        if owner.Starting? || owner.Serving? then Some(SetOwner(s, id, Unwinding)) else None
      case OwnerEnds(id, failed) =>
        if owner.Unwinding? then
          Some(SetOwner(s, id, Done(failed)).(ready := if s.ready[id].Unresolved? then s.ready[id := Rejected] else s.ready))
        else None
  }

  function Step(s: State, e: Event): Option<State> {
    match e
    case ConnectEnters => Enter(s, true)
    case CloseEnters => Enter(s, false)
    case ReadyArrives =>
      if !s.lock.AwaitingReady? || s.lock.owner >= |s.ready| || s.ready[s.lock.owner].Unresolved? then None
      else if s.ready[s.lock.owner].Resolved? then Some(s.(client := Some(s.lock.owner), lock := Free))
      else if s.current.Some? && s.current.value < |s.owners| then Some(Stop(s, true, StartupFailed))
      else None
    case CallCancelled =>
      (match s.lock
       case Free => None
       case AwaitingReady(_) =>
         if s.current.Some? && s.current.value < |s.owners| then Some(Stop(s, true, StartupFailed)) else None
       case Joining(owner, reason, _) => Some(s.(lock := Joining(owner, reason, true))))
    case JoinEnds => Join(s)
    case _ => OwnerStep(s, e)
  }

  function Exec(s: State, schedule: seq<Event>): Option<State>
    decreases |schedule|
  {
    if schedule == [] then Some(s)
    else
      match Exec(s, schedule[..|schedule| - 1])
      case None => None
      case Some(before) => Step(before, schedule[|schedule| - 1])
  }

  // ---------------------------------------------------------------- invariant

  /** Every owner but the current one has finished, and what each state of the lock means. */
  predicate Inv(s: State) {
    && |s.ready| == |s.owners|
    && (s.current.Some? ==> s.current.value < |s.owners|)
    && (forall id :: 0 <= id < |s.owners| && s.current != Some(id) ==> s.owners[id].Done?)
    && (forall id :: 0 <= id < |s.owners| && s.owners[id].Done? && !s.stopping && s.current == Some(id) ==> !s.ready[id].Unresolved?)
    && (forall id :: 0 <= id < |s.owners| && s.owners[id].Serving? ==> s.ready[id].Resolved?)
    && (forall id :: 0 <= id < |s.owners| && s.current == Some(id) && !s.stopping ==> !Cancelling(s.owners[id]))
    && match s.lock
       case Free => s.client == s.current && (s.current.Some? ==> !s.stopping && s.ready[s.current.value].Resolved?)
       case AwaitingReady(owner) => s.current == Some(owner) && s.client == None && !s.stopping
       case Joining(owner, _, _) => s.current == Some(owner) && s.client == None && s.stopping
  }

  predicate Cancelling(owner: Owner) { (owner.Created? || owner.Starting? || owner.Serving?) && owner.cancelling }

  predicate OwnerEvent(e: Event) { e.OwnerRuns? || e.OwnerReady? || e.OwnerLeaves? || e.OwnerEnds? }

  lemma OwnerStepKeepsInv(s: State, e: Event)
    requires Inv(s) && OwnerEvent(e) && OwnerStep(s, e).Some?
    ensures Inv(OwnerStep(s, e).value)
  {
  }

  lemma BeginKeepsInv(s: State)
    requires Inv(s.(lock := Free)) && (s.lock.Free? || s.current == None)
    ensures Inv(Begin(s))
  {
  }

  lemma StopKeepsInv(s: State, cancelStartup: bool, reason: Reason)
    requires Inv(s) && s.current.Some?
    ensures Inv(Stop(s, cancelStartup, reason))
  {
  }

  lemma JoinKeepsInv(s: State)
    requires Inv(s) && Join(s).Some?
    ensures Inv(Join(s).value)
  {
    BeginKeepsInv(s.(current := None));
  }

  lemma StepKeepsInv(s: State, e: Event)
    requires Inv(s) && Step(s, e).Some?
    ensures Inv(Step(s, e).value)
  {
    if OwnerEvent(e) { OwnerStepKeepsInv(s, e); }
    else if e.JoinEnds? { JoinKeepsInv(s); }
    else if s.lock.Free? {
      BeginKeepsInv(s);
      if s.current.Some? {
        StopKeepsInv(s, false, Close);
        StopKeepsInv(s, false, Reconnect);
      }
    } else if s.lock.AwaitingReady? {
      StopKeepsInv(s, true, StartupFailed);
    }
  }

  lemma {:induction false} ReachableInv(schedule: seq<Event>)
    requires Exec(Initial(), schedule).Some?
    ensures Inv(Exec(Initial(), schedule).value)
    decreases |schedule|
  {
    if schedule != [] {
      var front := schedule[..|schedule| - 1];
      ReachableInv(front);
      StepKeepsInv(Exec(Initial(), front).value, schedule[|schedule| - 1]);
    }
  }

  // ----------------------------------------------------------------- theorems

  /** A state some interleaving of calls, failures and cancellations reaches. */
  ghost predicate Reachable(s: State) { exists schedule :: Exec(Initial(), schedule) == Some(s) }

  lemma ReachableIsSound(s: State)
    requires Reachable(s)
    ensures Inv(s)
  {
    var schedule :| Exec(Initial(), schedule) == Some(s);
    ReachableInv(schedule);
  }

  predicate AllFinished(s: State) { forall id :: 0 <= id < |s.owners| ==> s.owners[id].Done? }

  /** However connects, closes, failures and cancellations interleave, at most one owner task
      is unfinished, and a new one is created only when every earlier one has finished and
      been joined. */
  lemma OneOwnerAtATime(s: State, e: Event)
    requires Reachable(s) && Step(s, e).Some?
    ensures forall i, j :: 0 <= i < |s.owners| && 0 <= j < |s.owners| && !s.owners[i].Done? && !s.owners[j].Done? ==> i == j
    ensures var t := Step(s, e).value;
      |t.owners| != |s.owners| ==> AllFinished(s) && |t.owners| == |s.owners| + 1 && t.current == Some(|s.owners|)
  {
    ReachableIsSound(s);
  }

  /** A close or a failed or cancelled startup that had an owner to stop gives up the lock only
      when no owner task is left running, however often it is cancelled meanwhile. */
  lemma StoppingJoins(s: State, e: Event)
    requires Reachable(s) && s.lock.Joining? && Step(s, e).Some?
    ensures var t := Step(s, e).value;
      if t.lock.Joining? then t.lock.owner == s.lock.owner && t.current == Some(s.lock.owner)
      else AllFinished(s) && |s.owners| <= |t.owners| && s.owners == t.owners[..|s.owners|]
           && (t.lock.Free? ==> t.current == None && t.client == None)
  {
    ReachableIsSound(s);
  }

  /** A published client belongs to the current owner, whose startup succeeded and which nobody
      has asked to stop; a connect never waits for an owner that has ended without an answer. */
  lemma ClientsAreLive(s: State)
    requires Reachable(s)
    ensures |s.ready| == |s.owners|
    ensures s.client.Some? ==>
      s.client == s.current && !s.stopping && s.client.value < |s.owners| && s.ready[s.client.value].Resolved?
    ensures s.lock.AwaitingReady? ==>
      s.lock.owner < |s.owners| && (s.owners[s.lock.owner].Done? ==> !s.ready[s.lock.owner].Unresolved?)
  {
    ReachableIsSound(s);
  }

  // ---------------------------------------------------------- what must happen

  function Then(s: Option<State>, e: Event): Option<State> {
    match s
    case None => None
    case Some(t) => Step(t, e)
  }

  lemma Extend(s: State, events: seq<Event>, e: Event)
    ensures Exec(s, events + [e]) == Then(Exec(s, events), e)
  {
    assert (events + [e])[..|events + [e]| - 1] == events;
  }

  lemma TwoEvents(s: State, a: Event, b: Event)
    ensures Exec(s, [a]) == Step(s, a) && Exec(s, [a, b]) == Then(Step(s, a), b)
  {
    Extend(s, [], a);
    Extend(s, [a], b);
    assert [] + [a] == [a] && [a] + [b] == [a, b];
  }

  lemma FourEvents(s: State, a: Event, b: Event, c: Event, d: Event)
    ensures Exec(s, [a, b, c, d]) == Then(Then(Then(Step(s, a), b), c), d)
  {
    TwoEvents(s, a, b);
    Extend(s, [a, b], c);
    Extend(s, [a, b, c], d);
    assert [a, b] + [c] == [a, b, c] && [a, b, c] + [d] == [a, b, c, d];
  }

  /** A new owner of its own that a connect waits for. */
  predicate Awaits(s: State, t: State, id: nat) {
    && id == |s.owners| && t.owners == s.owners + [Created(false)] && t.ready == s.ready + [Unresolved]
    && t.current == Some(id) && t.client == None && !t.stopping && t.lock == AwaitingReady(id)
  }

  lemma AwaitedIsPublished(s: State, id: nat)
    requires Inv(s) && id < |s.owners| && s.owners[id] == Created(false) && s.ready[id].Unresolved? && s.lock == AwaitingReady(id)
    ensures var t := Then(Then(Step(s, OwnerRuns(id)), OwnerReady(id)), ReadyArrives);
      t.Some? && t.value.client == Some(id) && t.value.lock.Free? && t.value.owners == s.owners[id := Serving(false)]
  {
    var running := Step(s, OwnerRuns(id)).value;
    assert running.owners == s.owners[id := Starting(false)];
    assert running.owners[id := Serving(false)] == s.owners[id := Serving(false)];
  }

  /** In every reachable state without a connection, a connect creates an owner and, once that
      has started, publishes its client. */
  lemma ConnectPublishes(s: State)
    requires Reachable(s) && s.lock.Free? && s.client == None
    ensures Step(s, ConnectEnters).Some? && Awaits(s, Step(s, ConnectEnters).value, |s.owners|)
    ensures var t := Exec(s, [ConnectEnters, OwnerRuns(|s.owners|), OwnerReady(|s.owners|), ReadyArrives]);
      && t.Some? && t.value.client == t.value.current == Some(|s.owners|) && t.value.lock.Free?
      && t.value.owners == s.owners + [Serving(false)]
  {
    var id := |s.owners|;
    ReachableIsSound(s);
    FourEvents(s, ConnectEnters, OwnerRuns(id), OwnerReady(id), ReadyArrives);
    var t := Step(s, ConnectEnters).value;
    StepKeepsInv(s, ConnectEnters);
    AwaitedIsPublished(t, id);
    assert (s.owners + [Created(false)])[id := Serving(false)] == s.owners + [Serving(false)];
  }

  /** A connect on a live connection keeps it as it is. One that finds its owner finished joins
      that owner and creates a new one; had the owner failed, the connect gives up and leaves
      no connection behind. */
  lemma ConnectReplacesFinishedOwner(s: State)
    requires Reachable(s) && s.lock.Free? && s.current.Some?
    ensures |s.owners| > s.current.value
    ensures var owner := s.owners[s.current.value]; var joined := Exec(s, [ConnectEnters, JoinEnds]);
      if !owner.Done? then Step(s, ConnectEnters) == Some(s)
      else
        && Step(s, ConnectEnters).Some? && Step(s, ConnectEnters).value.client == None && joined.Some?
        && if owner.failed then joined.value.lock.Free? && joined.value.current == joined.value.client == None && joined.value.owners == s.owners
           else Awaits(s, joined.value, |s.owners|)
  {
    ReachableIsSound(s);
    TwoEvents(s, ConnectEnters, JoinEnds);
    assert s.owners[s.current.value := s.owners[s.current.value]] == s.owners;
  }

  /** Some continuation frees the lock with no connection left. */
  ghost predicate CanBeClosed(s: State) {
    exists more :: Exec(s, more).Some? && Exec(s, more).value.lock.Free? && Exec(s, more).value.current == None && Exec(s, more).value.client == None
  }

  lemma {:induction false} ExecCons(s: State, e: Event, more: seq<Event>)
    requires Step(s, e).Some?
    ensures Exec(s, [e] + more) == Exec(Step(s, e).value, more)
    decreases |more|
  {
    if more == [] {
      Extend(s, [], e);
      assert [] + [e] == [e] + more;
    } else {
      var front, last := more[..|more| - 1], more[|more| - 1];
      ExecCons(s, e, front);
      Extend(s, [e] + front, last);
      Extend(Step(s, e).value, front, last);
      assert [e] + front + [last] == [e] + more && front + [last] == more;
    }
  }

  lemma ClosedAfter(s: State, e: Event)
    requires Step(s, e).Some? && CanBeClosed(Step(s, e).value)
    ensures CanBeClosed(s)
  {
    var t := Step(s, e).value;
    var more :| Exec(t, more).Some? && Exec(t, more).value.lock.Free? && Exec(t, more).value.current == None && Exec(t, more).value.client == None;
    ExecCons(s, e, more);
    assert Exec(s, [e] + more).Some?;
  }

  /** How far an owner is from its end. */
  function Distance(owner: Owner): nat {
    match owner
    case Created(cancelling) => if cancelling then 1 else 4
    case Starting(_) | Serving(_) => 2
    case Unwinding => 1
    case Done(_) => 0
  }

  function Towards(owner: Owner, id: nat): Event {
    match owner
    case Created(_) => OwnerRuns(id)
    case Starting(_) | Serving(_) => OwnerLeaves(id)
    case _ => OwnerEnds(id, true)
  }

  lemma {:induction false} JoiningCanEnd(s: State)
    requires Inv(s) && s.lock.Joining? && !s.lock.reason.Reconnect?
    ensures CanBeClosed(s)
    decreases Distance(s.owners[s.lock.owner])
  {
    var id := s.lock.owner;
    if s.owners[id].Done? {
      var t := Step(s, JoinEnds).value;
      assert Exec(t, []) == Some(t);
      ClosedAfter(s, JoinEnds);
    } else {
      var e := Towards(s.owners[id], id);
      StepKeepsInv(s, e);
      JoiningCanEnd(Step(s, e).value);
      ClosedAfter(s, e);
    }
  }

  predicate Leaving(owner: Owner) { Cancelling(owner) || owner.Unwinding? || owner.Done? }

  /** A close of a connection unpublishes its client at once and asks the owner to stop, and
      can always end; so can a startup that is cancelled or fails, whose owner is cancelled. */
  lemma CloseCanAlwaysEnd(s: State, e: Event)
    requires Reachable(s) && Step(s, e).Some?
    requires (e.CloseEnters? && s.current.Some?) || (e.CallCancelled? && s.lock.AwaitingReady?)
          || (e.ReadyArrives? && s.ready[s.lock.owner].Rejected?)
    ensures var t := Step(s, e).value; t.client == None && t.stopping && t.lock.Joining? && CanBeClosed(t)
    ensures var t := Step(s, e).value; !e.CloseEnters? ==> t.lock.owner < |t.owners| && Leaving(t.owners[t.lock.owner])
  {
    ReachableIsSound(s);
    StepKeepsInv(s, e);
    JoiningCanEnd(Step(s, e).value);
  }
}
