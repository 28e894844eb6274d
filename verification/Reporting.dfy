/** The stored reporting preference and its reporter. */
module Reporting {
  import opened Outcomes

  // `onboarding/reporting_state.py` and `onboarding/device_reporter.py`. Every event is one
  // section between two awaits or file operations of a holder of the process lease.

  const UPLOAD_INTERVAL := 300

  /** The stored record. */
  datatype Record = Record(enabled: bool, pending: bool, uploadedAt: int)

  /** What the holder of the lease is doing. `Saving...` follows a delivered reply. */
  datatype Lease =
    | Free
    | Setting(enabled: bool)
    | Initializing(enabled: bool)
    | Syncing(state: Record)
    | SavingSync(state: Record)
    | Checking(state: Record)
    | Uploading(state: Record)
    | SavingUpload(state: Record)

  /** What has happened, in order: preferences saved, requests sent, acknowledgements received. */
  datatype Happening =
    | OptInSaved
    | OptOutSaved
    | Initialized(enabled: bool)
    | EnableSent
    | RemovalSent
    | EnableAcked
    | RemovalAcked
    | UploadSent

  datatype State = State(record: Option<Record>, lease: Lease, history: seq<Happening>)

  datatype Event =
    | SetBegins(enabled: bool)
    | InitializeBegins(enabled: bool)
    | PreferenceSaved
    | TickBegins(now: int)
    | SyncReply
    | SyncSaved(now: int)
    | StatusReply(enabled: bool)
    | UploadReply
    | UploadSaved(now: int)
    | LeaseDropped

  function Initial(): State { State(None, Free, []) }

  predicate Due(state: Record, now: int) { !(0 <= now - state.uploadedAt < UPLOAD_INTERVAL) }

  /** The part of `tick` after synchronisation, up to its next await. */
  function AfterSync(s: State, state: Record, now: int): State {
    s.(lease := if state.enabled && Due(state, now) then Checking(state) else Free)
  }

  function Happens(s: State, what: Happening): State { s.(history := s.history + [what]) }

  function Saved(s: State): State
    requires s.lease.Setting? || s.lease.Initializing?
  {
    match s.lease
    case Setting(enabled) =>
      Happens(s, if enabled then OptInSaved else OptOutSaved).(record := Some(Record(enabled, true, 0)), lease := Free)
    case Initializing(enabled) =>
      if s.record.Some? then s.(lease := Free)
      else Happens(s, Initialized(enabled)).(record := Some(Record(enabled, false, 0)), lease := Free)
  }

  /** A busy lease makes `set_enabled`, `initialize` and `tick` return without effect.
      `LeaseDropped` is any exception, failed reply, lost reply or process death. */
  function Step(s: State, e: Event): Option<State> {
    match e
    case SetBegins(enabled) => if s.lease.Free? then Some(s.(lease := Setting(enabled))) else None
    case InitializeBegins(enabled) => if s.lease.Free? then Some(s.(lease := Initializing(enabled))) else None
    case PreferenceSaved => if s.lease.Setting? || s.lease.Initializing? then Some(Saved(s)) else None
    case TickBegins(now) =>
      if !s.lease.Free? || s.record.None? then None
      else
        var state := s.record.value;
        if state.pending then
          Some(Happens(s, if state.enabled then EnableSent else RemovalSent).(lease := Syncing(state)))
        else Some(AfterSync(s, state, now))
    case SyncReply =>
      if s.lease.Syncing? then
        Some(Happens(s, if s.lease.state.enabled then EnableAcked else RemovalAcked).(lease := SavingSync(s.lease.state)))
      else None
    case SyncSaved(now) =>
      if s.lease.SavingSync? then
        var state := s.lease.state.(pending := false);
        Some(AfterSync(s.(record := Some(state)), state, now))
      else None
    case StatusReply(enabled) =>
      if !s.lease.Checking? then None
      else if enabled then Some(Happens(s, UploadSent).(lease := Uploading(s.lease.state)))
      else Some(s.(lease := Free))
    case UploadReply => if s.lease.Uploading? then Some(s.(lease := SavingUpload(s.lease.state))) else None
    case UploadSaved(now) =>
      if s.lease.SavingUpload? then Some(s.(record := Some(s.lease.state.(uploadedAt := now)), lease := Free)) else None
    case LeaseDropped => if s.lease.Free? then None else Some(s.(lease := Free))
  }

  function Exec(s: State, schedule: seq<Event>): Option<State>
    decreases |schedule|
  {
    if schedule == [] then Some(s)
    else
      match Exec(s, schedule[..|schedule| - 1])
      case None => None
      case Some(before) => Step(before, schedule[|schedule| - 1])
  }

  // ------------------------------------------------------ what history tells

  predicate Preference(h: Happening) { h.OptInSaved? || h.OptOutSaved? || h.Initialized? }

  predicate Enabling(h: Happening) { h.OptInSaved? || h == Initialized(true) }

  /** The acknowledgement a saved preference calls for; an initial one calls for none. */
  predicate Answers(answer: Happening, preference: Happening) {
    (preference.OptInSaved? && answer.EnableAcked?) || (preference.OptOutSaved? && answer.RemovalAcked?)
  }

  /** The last preference saved, and whether it has been acknowledged since. */
  datatype Standing = Standing(preference: Option<Happening>, settled: bool)

  function Heard(before: Standing, last: Happening): Standing {
    if Preference(last) then Standing(Some(last), last.Initialized?)
    else if before.preference.Some? && Answers(last, before.preference.value) then before.(settled := true)
    else before
  }

  function StandingOf(history: seq<Happening>): Standing {
    if history == [] then Standing(None, false)
    else Heard(StandingOf(history[..|history| - 1]), history[|history| - 1])
  }

  /** `at` is the last preference before position `end`. */
  predicate LastPreference(history: seq<Happening>, at: nat, end: nat) {
    && at < end <= |history| && Preference(history[at])
    && forall k :: at < k < end ==> !Preference(history[k])
  }

  predicate AnsweredBetween(history: seq<Happening>, at: nat, end: nat) {
    at < end <= |history| && exists k :: at < k < end && Answers(history[k], history[at])
  }

  lemma {:induction false} StandingMeans(history: seq<Happening>)
    ensures StandingOf(history).preference == None <==> forall k :: 0 <= k < |history| ==> !Preference(history[k])
    ensures StandingOf(history).preference.Some? ==>
      exists at: nat :: LastPreference(history, at, |history|) && Some(history[at]) == StandingOf(history).preference
        && (StandingOf(history).settled <==> history[at].Initialized? || AnsweredBetween(history, at, |history|))
    decreases |history|
  {
    if history != [] {
      var n := |history| - 1;
      var front, last := history[..n], history[n];
      StandingMeans(front);
      if Preference(last) {
        assert LastPreference(history, n, n + 1);
      } else if StandingOf(front).preference.Some? {
        var at: nat :| LastPreference(front, at, n) && Some(front[at]) == StandingOf(front).preference
          && (StandingOf(front).settled <==> front[at].Initialized? || AnsweredBetween(front, at, n));
        Longer(history, at);
      }
    }
  }

  lemma Longer(history: seq<Happening>, at: nat)
    requires history != [] && !Preference(history[|history| - 1]) && LastPreference(history[..|history| - 1], at, |history| - 1)
    ensures LastPreference(history, at, |history|)
    ensures AnsweredBetween(history, at, |history|) <==>
      AnsweredBetween(history[..|history| - 1], at, |history| - 1) || Answers(history[|history| - 1], history[at])
  {
    var n := |history| - 1;
    var front := history[..n];
    if AnsweredBetween(front, at, n) {
      var k :| at < k < n && Answers(front[k], front[at]);
      assert Answers(history[k], history[at]);
    }
    if AnsweredBetween(history, at, n + 1) && !Answers(history[n], history[at]) {
      var k :| at < k < n + 1 && Answers(history[k], history[at]);
      assert Answers(front[k], front[at]);
    }
  }

  // ---------------------------------------------------------------- invariant

  predicate RecordMatches(record: Option<Record>, standing: Standing) {
    match standing.preference
    case None => record.None?
    case Some(preference) =>
      && Preference(preference) && record.Some? && record.value.enabled == Enabling(preference)
      && (!record.value.pending ==> standing.settled)
      && (preference.Initialized? ==> !record.value.pending)
  }

  predicate LeaseMatches(s: State) {
    match s.lease
    case Syncing(state) => s.record == Some(state) && state.pending
    case SavingSync(state) => s.record == Some(state) && state.pending && StandingOf(s.history).settled
    case Checking(state) => s.record == Some(state) && !state.pending && state.enabled
    case Uploading(state) => s.record == Some(state) && !state.pending && state.enabled
    case SavingUpload(state) => s.record == Some(state) && !state.pending && state.enabled
    case _ => true
  }

  /** The upload at position `j` was sent under an enabling preference that needed no
      acknowledgement or had one. */
  predicate UploadAllowed(history: seq<Happening>, j: nat)
    requires j < |history|
  {
    var standing := StandingOf(history[..j]);
    standing.preference.Some? && Enabling(standing.preference.value) && standing.settled
  }

  ghost predicate Inv(s: State) {
    && RecordMatches(s.record, StandingOf(s.history)) && LeaseMatches(s)
    && UploadsAllowed(s.history)
  }

  lemma StandingHappens(history: seq<Happening>, what: Happening)
    ensures StandingOf(history + [what]) == Heard(StandingOf(history), what)
  {
    assert (history + [what])[..|history|] == history;
  }

  ghost predicate UploadsAllowed(history: seq<Happening>) {
    forall j :: 0 <= j < |history| && history[j].UploadSent? ==> UploadAllowed(history, j)
  }

  lemma HappensKeeps(history: seq<Happening>, what: Happening)
    requires UploadsAllowed(history)
    requires what.UploadSent? ==>
      StandingOf(history).preference.Some? && Enabling(StandingOf(history).preference.value) && StandingOf(history).settled
    ensures UploadsAllowed(history + [what])
  {
    var h := history + [what];
    forall j | 0 <= j < |h| && h[j].UploadSent? ensures UploadAllowed(h, j) {
      assert h[..j] == history[..j];
      assert history[..|history|] == history;
    }
  }

  lemma SilentStepKeepsInv(s: State, e: Event)
    requires Inv(s) && Step(s, e).Some? && Step(s, e).value.history == s.history
    ensures Inv(Step(s, e).value)
  {
  }

  lemma HeardStepKeepsInv(s: State, e: Event, what: Happening)
    requires Inv(s) && Step(s, e).Some? && Step(s, e).value.history == s.history + [what]
    ensures Inv(Step(s, e).value)
  {
    StandingHappens(s.history, what);
    HappensKeeps(s.history, what);
  }

  lemma StepKeepsInv(s: State, e: Event)
    requires Inv(s) && Step(s, e).Some?
    ensures Inv(Step(s, e).value)
  {
    var t := Step(s, e).value;
    if t.history == s.history {
      SilentStepKeepsInv(s, e);
    } else {
      HeardStepKeepsInv(s, e, t.history[|t.history| - 1]);
    }
  }

  lemma {:induction false} ReachableInv(schedule: seq<Event>)
    requires Exec(Initial(), schedule).Some?
    ensures Inv(Exec(Initial(), schedule).value)
    decreases |schedule|
  {
    if schedule != [] {
      var front := schedule[..|schedule| - 1];
      ReachableInv(front);
      StepKeepsInv(Exec(Initial(), front).value, schedule[|schedule| - 1]);
    }
  }

  // ----------------------------------------------------------------- theorems

  lemma PrefixPreference(history: seq<Happening>, j: nat, at: nat)
    requires j <= |history| && LastPreference(history[..j], at, j)
    ensures LastPreference(history, at, j)
    ensures AnsweredBetween(history[..j], at, j) ==> AnsweredBetween(history, at, j)
  {
    if AnsweredBetween(history[..j], at, j) {
      var k :| at < k < j && Answers(history[..j][k], history[..j][at]);
      assert Answers(history[k], history[at]);
    }
  }

  lemma AllowedUpload(history: seq<Happening>, j: nat)
    requires UploadsAllowed(history) && j < |history| && history[j].UploadSent?
    ensures exists at: nat ::
      LastPreference(history, at, j) && Enabling(history[at]) && (history[at].OptInSaved? ==> AnsweredBetween(history, at, j))
  {
    assert UploadAllowed(history, j);
    StandingMeans(history[..j]);
    var at: nat :| LastPreference(history[..j], at, j) && Some(history[..j][at]) == StandingOf(history[..j]).preference
      && (StandingOf(history[..j]).settled <==> history[..j][at].Initialized? || AnsweredBetween(history[..j], at, j));
    PrefixPreference(history, j, at);
  }

  /** Every upload of every run follows an enabling preference that is the last one saved
      before it, and if that is an opt-in, an acknowledgement of enabling in between. */
  lemma UploadsFollowAcknowledgedOptIn(schedule: seq<Event>, j: nat)
    requires Exec(Initial(), schedule).Some?
    requires j < |Exec(Initial(), schedule).value.history| && Exec(Initial(), schedule).value.history[j].UploadSent?
    ensures var h := Exec(Initial(), schedule).value.history;
      exists at: nat :: LastPreference(h, at, j) && Enabling(h[at]) && (h[at].OptInSaved? ==> AnsweredBetween(h, at, j))
  {
    ReachableInv(schedule);
    AllowedUpload(Exec(Initial(), schedule).value.history, j);
  }

  /** Once an opt-out has been saved, no upload is sent before an opt-in is saved. */
  lemma NoUploadAfterOptOut(schedule: seq<Event>, i: nat, j: nat)
    requires Exec(Initial(), schedule).Some?
    requires var h := Exec(Initial(), schedule).value.history; i < j < |h| && h[i].OptOutSaved? && h[j].UploadSent?
    ensures var h := Exec(Initial(), schedule).value.history; exists k :: i < k < j && h[k].OptInSaved?
  {
    var h := Exec(Initial(), schedule).value.history;
    UploadsFollowAcknowledgedOptIn(schedule, j);
    var at: nat :| LastPreference(h, at, j) && Enabling(h[at]) && (h[at].OptInSaved? ==> AnsweredBetween(h, at, j));
    assert at > i;
    InitializedFirst(schedule, i, at);
  }

  /** The initial preference is only ever the first. */
  lemma {:induction false} InitializedFirst(schedule: seq<Event>, i: nat, j: nat)
    requires Exec(Initial(), schedule).Some?
    requires var h := Exec(Initial(), schedule).value.history; i < j < |h| && Preference(h[i])
    ensures !Exec(Initial(), schedule).value.history[j].Initialized?
    decreases |schedule|
  {
    if schedule != [] {
      var front := schedule[..|schedule| - 1];
      var before := Exec(Initial(), front).value;
      var h := Exec(Initial(), schedule).value.history;
      if j < |before.history| {
        InitializedFirst(front, i, j);
        assert h[j] == before.history[j];
      } else {
        ReachableInv(front);
        StandingMeans(before.history);
        assert before.history[i] == h[i];
        assert before.record.Some?;
      }
    }
  }

  /** While the last preference is an unacknowledged opt-out, the record says so and every tick
      that gets the lease begins by sending the removal. */
  lemma RemovalIsRetried(schedule: seq<Event>, i: nat)
    requires Exec(Initial(), schedule).Some?
    requires var h := Exec(Initial(), schedule).value.history;
      LastPreference(h, i, |h|) && h[i].OptOutSaved? && !AnsweredBetween(h, i, |h|)
    ensures var s := Exec(Initial(), schedule).value;
      && s.record.Some? && !s.record.value.enabled && s.record.value.pending
      && (s.lease.Free? ==>
            forall now :: Step(s, TickBegins(now)) == Some(Happens(s, RemovalSent).(lease := Syncing(s.record.value))))
  {
    ReachableInv(schedule);
    var h := Exec(Initial(), schedule).value.history;
    StandingMeans(h);
    var at: nat :| LastPreference(h, at, |h|) && Some(h[at]) == StandingOf(h).preference
      && (StandingOf(h).settled <==> h[at].Initialized? || AnsweredBetween(h, at, |h|));
    assert at == i;
  }

  // ---------------------------------------------------------- what must happen

  function Then(s: Option<State>, e: Event): Option<State> {
    match s
    case None => None
    case Some(t) => Step(t, e)
  }

  lemma Extend(s: State, events: seq<Event>, e: Event)
    ensures Exec(s, events + [e]) == Then(Exec(s, events), e)
  {
    assert (events + [e])[..|events + [e]| - 1] == events;
  }

  lemma TwoMore(s: State, events: seq<Event>, a: Event, b: Event)
    ensures Exec(s, events + [a]) == Then(Exec(s, events), a) && Exec(s, events + [a, b]) == Then(Then(Exec(s, events), a), b)
  {
    var one := events + [a];
    Extend(s, events, a);
    Extend(s, one, b);
    assert one + [b] == events + [a, b];
  }

  /** A record that uploads, after its upload has been noted. */
  function Noted(s: State, at: int): State {
    Happens(s, UploadSent).(record := Some(Record(true, false, at)), lease := Free)
  }

  lemma UploadRuns(s: State, from: int, at: int)
    requires s.lease == Checking(Record(true, false, from))
    ensures Exec(s, [StatusReply(true), UploadReply] + [UploadSaved(at)]) == Some(Noted(s, at))
  {
    var first := [StatusReply(true), UploadReply];
    TwoMore(s, [], StatusReply(true), UploadReply);
    assert [] + first == first;
    Extend(s, first, UploadSaved(at));
  }

  lemma RefusalFreesLease(s: State)
    requires s.lease.Checking?
    ensures Exec(s, [StatusReply(false)]) == Some(s.(lease := Free))
  {
    Extend(s, [], StatusReply(false));
    assert [] + [StatusReply(false)] == [StatusReply(false)];
  }

  lemma {:induction false} ExecCons(s: State, e: Event, more: seq<Event>)
    requires Step(s, e).Some?
    ensures Exec(s, [e] + more) == Exec(Step(s, e).value, more)
    decreases |more|
  {
    if more == [] {
      Extend(s, [], e);
      assert [] + [e] == [e] + more;
    } else {
      var front, last := more[..|more| - 1], more[|more| - 1];
      ExecCons(s, e, front);
      Extend(s, [e] + front, last);
      Extend(Step(s, e).value, front, last);
      assert [e] + front + [last] == [e] + more && front + [last] == more;
    }
  }

  /** A tick with nothing to synchronise: within five minutes of the last upload it does
      nothing; otherwise, and when the clock is before it, it asks for the status and, if that
      is enabled, uploads once and notes the time. A disabled record uploads nothing. */
  lemma DueTickUploads(s: State, record: Record, now: int, at: int)
    requires s.lease.Free? && s.record == Some(record) && !record.pending
    ensures !record.enabled || 0 <= now - record.uploadedAt < 300 ==> Step(s, TickBegins(now)) == Some(s)
    ensures var uploads := Exec(s, [TickBegins(now)] + ([StatusReply(true), UploadReply] + [UploadSaved(at)]));
      record.enabled && !(0 <= now - record.uploadedAt < 300) ==> uploads == Some(Noted(s, at))
    ensures var refused := Exec(s, [TickBegins(now)] + [StatusReply(false)]);
      record.enabled && !(0 <= now - record.uploadedAt < 300) ==> refused == Some(s)
  {
    var asks := s.(lease := Checking(record));
    if record.enabled && !(0 <= now - record.uploadedAt < 300) {
      UploadRuns(asks, record.uploadedAt, at);
      RefusalFreesLease(asks);
      ExecCons(s, TickBegins(now), [StatusReply(true), UploadReply] + [UploadSaved(at)]);
      ExecCons(s, TickBegins(now), [StatusReply(false)]);
    }
  }

  /** A preference saved and acknowledged at the next tick. */
  function Chosen(s: State, enabled: bool): State {
    s.(record := Some(Record(enabled, false, 0)),
       history := s.history + if enabled then [OptInSaved, EnableSent, EnableAcked] else [OptOutSaved, RemovalSent, RemovalAcked])
  }

  function Choosing(enabled: bool, now: int): seq<Event> { [SetBegins(enabled), PreferenceSaved] + [TickBegins(now), SyncReply] }

  lemma ChoiceIsSent(s: State, enabled: bool, now: int)
    requires s.lease.Free?
    ensures Exec(s, Choosing(enabled, now)) == Some(Chosen(s, enabled).(record := Some(Record(enabled, true, 0)), lease := SavingSync(Record(enabled, true, 0))))
  {
    ChoiceIsSaved(s, enabled);
    TwoMore(s, [SetBegins(enabled), PreferenceSaved], TickBegins(now), SyncReply);
    var saved := if enabled then OptInSaved else OptOutSaved;
    var sent := if enabled then EnableSent else RemovalSent;
    var acked := if enabled then EnableAcked else RemovalAcked;
    assert s.history + [saved] + [sent] + [acked] == s.history + [saved, sent, acked];
  }

  /** A saved opt-out is sent and acknowledged at the next tick, and nothing is uploaded. */
  lemma OptOutTakesEffect(s: State, now: int, later: int)
    requires s.lease.Free?
    ensures Exec(s, Choosing(false, now) + [SyncSaved(later)]) == Some(Chosen(s, false))
  {
    ChoiceIsSent(s, false, now);
    Extend(s, Choosing(false, now), SyncSaved(later));
  }

  lemma ChoiceIsAcked(s: State, now: int, later: int)
    requires s.lease.Free? && !(0 <= later < 300)
    ensures Exec(s, Choosing(true, now) + [SyncSaved(later)]) == Some(Chosen(s, true).(lease := Checking(Record(true, false, 0))))
  {
    ChoiceIsSent(s, true, now);
    Extend(s, Choosing(true, now), SyncSaved(later));
  }

  /** A saved opt-in is sent and acknowledged at the next tick, which goes on to upload when the
      status allows it. */
  lemma OptInTakesEffect(s: State, now: int, later: int, at: int)
    requires s.lease.Free? && !(0 <= later < 300)
    ensures Exec(s, Choosing(true, now) + [SyncSaved(later)] + ([StatusReply(true), UploadReply] + [UploadSaved(at)]))
         == Some(Noted(Chosen(s, true), at))
  {
    var asks := Chosen(s, true).(lease := Checking(Record(true, false, 0)));
    ChoiceIsAcked(s, now, later);
    UploadRuns(asks, 0, at);
    ExecConcat(s, Choosing(true, now) + [SyncSaved(later)], [StatusReply(true), UploadReply] + [UploadSaved(at)]);
  }

  /** A tick that is interrupted before its answer leaves the saved preference pending. */
  lemma InterruptedTickStaysPending(s: State, enabled: bool, now: int)
    requires s.lease.Free?
    ensures var t := Exec(s, [SetBegins(enabled), PreferenceSaved] + [TickBegins(now), LeaseDropped]);
      t.Some? && t.value.record == Some(Record(enabled, true, 0))
  {
    ChoiceIsSaved(s, enabled);
    TwoMore(s, [SetBegins(enabled), PreferenceSaved], TickBegins(now), LeaseDropped);
  }

  lemma ChoiceIsSaved(s: State, enabled: bool)
    requires s.lease.Free?
    ensures Exec(s, [SetBegins(enabled), PreferenceSaved])
         == Some(Happens(s, if enabled then OptInSaved else OptOutSaved).(record := Some(Record(enabled, true, 0))))
  {
    TwoMore(s, [], SetBegins(enabled), PreferenceSaved);
    assert [] + [SetBegins(enabled), PreferenceSaved] == [SetBegins(enabled), PreferenceSaved];
  }

  lemma {:induction false} ExecConcat(s: State, first: seq<Event>, more: seq<Event>)
    requires Exec(s, first).Some?
    ensures Exec(s, first + more) == Exec(Exec(s, first).value, more)
    decreases |more|
  {
    if more == [] {
      assert first + more == first;
    } else {
      var front, last := more[..|more| - 1], more[|more| - 1];
      ExecConcat(s, first, front);
      Extend(s, first + front, last);
      Extend(Exec(s, first).value, front, last);
      assert first + front + [last] == first + more && front + [last] == more;
    }
  }

  /** An initial preference is saved only where none was, and calls for no acknowledgement. */
  lemma InitialPreference(s: State, enabled: bool)
    requires s.lease.Free?
    ensures Exec(s, [InitializeBegins(enabled), PreferenceSaved]) ==
      if s.record.Some? then Some(s) else Some(Happens(s, Initialized(enabled)).(record := Some(Record(enabled, false, 0))))
  {
    TwoMore(s, [], InitializeBegins(enabled), PreferenceSaved);
    assert [] + [InitializeBegins(enabled), PreferenceSaved] == [InitializeBegins(enabled), PreferenceSaved];
  }
}
