/** When a connection failure may be retried (`onboarding/http_response.py`): the bounded walk
    over an exception's causes, and the attempts it guards. */
module ConnectRetry {
  const MAX_STEPS := 16

  /** The exceptions behind an error: those grouped in each, its cause and its context. The
      objects may be shared and even circular. */
  datatype Causes = Causes(related: map<nat, seq<nat>>, tls: set<nat>)

  function Related(g: Causes, e: nat): seq<nat> { if e in g.related then g.related[e] else [] }

  /** `group` holds everything behind each of its members. */
  ghost predicate Closed(g: Causes, group: set<nat>) {
    forall e, r :: e in group && r in Related(g, e) ==> r in group
  }

  /** The references the members of a group hold. */
  ghost function References(g: Causes, group: set<nat>): (n: nat)
    decreases group
  {
    if group == {} then 0
    else
      var e :| e in group;
      |Related(g, e)| + References(g, group - {e})
  }

  lemma {:induction false} ReferencesWithout(g: Causes, group: set<nat>, e: nat)
    requires e in group
    ensures References(g, group) == |Related(g, e)| + References(g, group - {e})
    decreases group
  {
    var x :| x in group && References(g, group) == |Related(g, x)| + References(g, group - {x});
    if x != e {
      ReferencesWithout(g, group - {x}, e);
      ReferencesWithout(g, group - {e}, x);
      assert group - {x} - {e} == group - {e} - {x};
    }
  }

  lemma {:induction false} ReferencesGrow(g: Causes, a: set<nat>, b: set<nat>)
    requires a <= b
    ensures References(g, a) <= References(g, b)
    decreases b
  {
    if a != {} {
      var e :| e in a;
      ReferencesWithout(g, a, e);
      ReferencesWithout(g, b, e);
      ReferencesGrow(g, a - {e}, b - {e});
    }
  }

  /** Everything behind `error` can be seen without meeting a TLS failure, through fewer than
      sixteen references, the first one to `error` itself. */
  ghost predicate Harmless(g: Causes, error: nat) {
    exists group :: error in group && Closed(g, group) && group !! g.tls && 1 + References(g, group) < 16
  }

  /** `_transient_connect_error`. */
  method TransientConnectError(g: Causes, error: nat) returns (transient: bool)
    ensures transient <==> Harmless(g, error)
  {
    var pending, seen := [error], {};
    for step := 0 to MAX_STEPS
      invariant seen !! g.tls
      invariant step + |pending| == 1 + References(g, seen)
      invariant error in seen || error in pending
      invariant forall e, r :: e in seen && r in Related(g, e) ==> r in seen || r in pending
      invariant forall group :: error in group && Closed(g, group) ==> seen <= group && forall e :: e in pending ==> e in group
    {
      if pending == [] {
        assert Closed(g, seen);
        return true;
      }
      var current := pending[|pending| - 1];
      ghost var before := pending;
      pending := pending[..|pending| - 1];
      assert before == pending + [current];
      if current !in seen {
        if current in g.tls {
          forall group | error in group && Closed(g, group) ensures !(group !! g.tls) { assert current in before; }
          return false;
        }
        ReferencesWithout(g, seen + {current}, current);
        assert seen + {current} - {current} == seen;
        assert forall group :: error in group && Closed(g, group) ==> current in group by { assert current in before; }
        seen := seen + {current};
        pending := pending + Related(g, current);
      }
    }
    forall group | error in group && Closed(g, group) ensures 1 + References(g, group) >= MAX_STEPS {
      ReferencesGrow(g, seen, group);
    }
    return false;
  }

  /** What comes of one connection: it never opened, the service answered, or it failed after
      the request could have been sent. */
  datatype Fate = NotConnected(causes: Causes, error: nat) | Answered | FailedLater

  datatype Outcome = Response | TransportUnavailable

  ghost predicate Retried(fate: Fate) { fate.NotConnected? && Harmless(fate.causes, fate.error) }

  /** The attempts of `request_json`: three for a read without a body, else two. A further one
      is made only when the connection never opened for a reason that hides no TLS failure, so
      whatever happens at most one attempt, the last, can have sent the request. */
  method RequestJson(fates: nat -> Fate, bodyless: bool) returns (outcome: Outcome, attempts: nat)
    ensures 1 <= attempts <= if bodyless then 3 else 2
    ensures forall k :: 0 <= k < attempts - 1 ==> Retried(fates(k))
    ensures Retried(fates(attempts - 1)) ==> attempts == if bodyless then 3 else 2
    ensures outcome == Response <==> fates(attempts - 1) == Answered
  {
    var limit := if bodyless then 3 else 2;
    attempts := 0;
    while true
      invariant attempts < limit
      invariant forall k :: 0 <= k < attempts ==> Retried(fates(k))
      decreases limit - attempts
    {
      var fate := fates(attempts);
      attempts := attempts + 1;
      if fate.Answered? { return Response, attempts; }
      if fate.FailedLater? || attempts == limit { return TransportUnavailable, attempts; }
      var transient := TransientConnectError(fate.causes, fate.error);
      if !transient { return TransportUnavailable, attempts; }
    }
  }
}
