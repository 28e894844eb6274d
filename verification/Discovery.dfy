/** Finding an installed hook in a settings document with a bounded worklist
    (`_has_adapter` in `discovery/inventory.py`). */
module Discovery {
  import opened Json
  import opened HookParser

  const INSPECTION_LIMIT := 4096
  const DEPTH_LIMIT := 16

  predicate IsContainer(a: Json) { a.Obj? || a.List? }

  /** The values directly inside a container. */
  function Inside(a: Json): seq<Json> {
    match a
    case Obj(fields) => seq(|fields|, i requires 0 <= i < |fields| => fields[i].value)
    case List(items) => items
    case _ => []
  }

  function ContainersAmong(values: seq<Json>): seq<Json> {
    if values == [] then []
    else (if IsContainer(values[0]) then [values[0]] else []) + ContainersAmong(values[1..])
  }

  /** The containers directly inside a container, in order. */
  function Children(a: Json): seq<Json> { ContainersAmong(Inside(a)) }

  lemma ChildIsSmaller(a: Json, i: nat)
    requires i < |Children(a)|
    ensures Children(a)[i] < a
  {
    InsideIsSmaller(a);
    ContainersAmongAreMembers(Inside(a));
  }

  lemma InsideIsSmaller(a: Json)
    ensures forall v :: v in Inside(a) ==> v < a
  {
    forall v | v in Inside(a) ensures v < a {
      var i :| 0 <= i < |Inside(a)| && Inside(a)[i] == v;
      match a
      case Obj(fields) => FieldIsSmaller(a, fields[i]);
      case List(items) => assert items[i] < a;
      case _ =>
    }
  }

  lemma {:induction false} ContainersAmongAreMembers(values: seq<Json>)
    ensures forall i :: 0 <= i < |ContainersAmong(values)| ==>
      ContainersAmong(values)[i] in values && IsContainer(ContainersAmong(values)[i])
    decreases values
  {
    if values != [] { ContainersAmongAreMembers(values[1..]); }
  }

  lemma {:induction false} ContainerIsAmong(values: seq<Json>, v: Json)
    requires v in values && IsContainer(v)
    ensures v in ContainersAmong(values)
    decreases values
  {
    if values[0] != v { ContainerIsAmong(values[1..], v); }
  }

  /** An object whose `command` launches the hook for this host. */
  predicate Hit(a: Json, host: string) {
    && a.Obj?
    && var command := Get(a.fields, "command", Null);
      command.Str? && Recognises(command.text, host)
  }

  // --------------------------------------------------- what the worklist visits

  datatype Entry = Entry(value: Json, depth: nat)

  /** The values visited from one entry, last child first, down to the depth limit. */
  function Visited(a: Json, depth: nat): seq<Json>
    decreases a, 1
  {
    [a] + if depth < DEPTH_LIMIT then VisitedChildren(a, |Children(a)|, depth) else []
  }

  /** Visits the first `count` children, the last of them first. */
  function VisitedChildren(a: Json, count: nat, depth: nat): seq<Json>
    requires count <= |Children(a)|
    decreases a, 0, count
  {
    if count == 0 then []
    else
      ChildIsSmaller(a, count - 1);
      Visited(Children(a)[count - 1], depth + 1) + VisitedChildren(a, count - 1, depth)
  }

  /** Joins the parts, last part first. */
  function LastFirst(parts: seq<seq<Json>>): seq<Json> {
    if parts == [] then [] else parts[|parts| - 1] + LastFirst(parts[..|parts| - 1])
  }

  function VisitedBy(stack: seq<Entry>): seq<seq<Json>> {
    seq(|stack|, i requires 0 <= i < |stack| => Visited(stack[i].value, stack[i].depth))
  }

  /** The values a whole stack still leads to, top entry first. */
  function Pending(stack: seq<Entry>): seq<Json> { LastFirst(VisitedBy(stack)) }

  lemma {:induction false} LastFirstOfConcat(a: seq<seq<Json>>, b: seq<seq<Json>>)
    ensures LastFirst(a + b) == LastFirst(b) + LastFirst(a)
    decreases b
  {
    if b == [] {
      assert a + b == a;
    } else {
      assert (a + b)[..|a + b| - 1] == a + b[..|b| - 1];
      LastFirstOfConcat(a, b[..|b| - 1]);
    }
  }

  lemma VisitedByConcat(a: seq<Entry>, b: seq<Entry>)
    ensures VisitedBy(a + b) == VisitedBy(a) + VisitedBy(b)
  {
    var all, parts := VisitedBy(a + b), VisitedBy(a) + VisitedBy(b);
    forall i | 0 <= i < |a + b| ensures all[i] == parts[i] {
      if i < |a| { assert (a + b)[i] == a[i]; } else { assert (a + b)[i] == b[i - |a|]; }
    }
  }

  lemma PendingOfConcat(a: seq<Entry>, b: seq<Entry>)
    ensures Pending(a + b) == Pending(b) + Pending(a)
  {
    VisitedByConcat(a, b);
    LastFirstOfConcat(VisitedBy(a), VisitedBy(b));
  }

  lemma PendingOfOne(entry: Entry)
    ensures Pending([entry]) == Visited(entry.value, entry.depth)
  {
    var parts := VisitedBy([entry]);
    assert parts[..0] == [];
    assert LastFirst(parts) == parts[0] + LastFirst(parts[..0]);
  }

  predicate AnyHit(values: seq<Json>, host: string) { exists i :: 0 <= i < |values| && Hit(values[i], host) }

  function FirstOf(values: seq<Json>, limit: nat): seq<Json> { if |values| <= limit then values else values[..limit] }

  /** The answer the bounded search gives: a hit among the first 4096 visited values. */
  predicate HasAdapter(value: Json, host: string) {
    AnyHit(FirstOf(Visited(value, 0), 4096), host)
  }

  function Entries(values: seq<Json>, depth: nat): seq<Entry> {
    seq(|values|, i requires 0 <= i < |values| => Entry(values[i], depth))
  }

  lemma {:induction false} PendingOfChildren(a: Json, count: nat, depth: nat)
    requires count <= |Children(a)|
    ensures Pending(Entries(Children(a)[..count], depth + 1)) == VisitedChildren(a, count, depth)
    decreases count
  {
    var entries := Entries(Children(a)[..count], depth + 1);
    if count > 0 {
      var last := Entry(Children(a)[count - 1], depth + 1);
      assert entries == Entries(Children(a)[..count - 1], depth + 1) + [last];
      PendingOfConcat(Entries(Children(a)[..count - 1], depth + 1), [last]);
      PendingOfOne(last);
      PendingOfChildren(a, count - 1, depth);
    }
  }

  lemma HitInFirst(visited: seq<Json>, done: seq<Json>, rest: seq<Json>, limit: nat, host: string)
    requires visited == done + rest && |done| <= limit && !AnyHit(done, host)
    ensures |done| < limit && rest != [] && Hit(rest[0], host) ==> AnyHit(FirstOf(visited, limit), host)
    ensures |done| == limit || rest == [] ==> !AnyHit(FirstOf(visited, limit), host)
  {
    if |done| < limit && rest != [] && Hit(rest[0], host) {
      assert FirstOf(visited, limit)[|done|] == rest[0];
    }
    if |done| == limit || rest == [] {
      assert FirstOf(visited, limit) == done;
    }
  }

  lemma VisitedThenChildren(current: Entry, children: seq<Json>)
    requires children == if current.depth < DEPTH_LIMIT then Children(current.value) else []
    ensures Visited(current.value, current.depth) == [current.value] + Pending(Entries(children, current.depth + 1))
  {
    if current.depth < DEPTH_LIMIT {
      assert children[..|children|] == children;
      PendingOfChildren(current.value, |children|, current.depth);
    } else {
      assert Pending(Entries([], current.depth + 1)) == [];
    }
  }

  /** Popping an entry and pushing its children visits the entry's value next. */
  lemma PopVisits(below: seq<Entry>, current: Entry, children: seq<Json>)
    requires children == if current.depth < DEPTH_LIMIT then Children(current.value) else []
    ensures Pending(below + [current]) == [current.value] + Pending(below + Entries(children, current.depth + 1))
  {
    VisitedThenChildren(current, children);
    PendingOfConcat(below, [current]);
    PendingOfOne(current);
    PendingOfConcat(below, Entries(children, current.depth + 1));
    Associate(current.value, Pending(Entries(children, current.depth + 1)), Pending(below));
  }

  lemma Associate(first: Json, middle: seq<Json>, rest: seq<Json>)
    ensures [first] + middle + rest == [first] + (middle + rest)
  {
  }

  lemma VisitMiss(visited: seq<Json>, done: seq<Json>, value: Json, rest: seq<Json>, host: string)
    requires visited == done + ([value] + rest) && !AnyHit(done, host) && !Hit(value, host)
    ensures visited == done + [value] + rest && !AnyHit(done + [value], host)
  {
  }

  /** `_has_adapter`: a stack, a counter and two early exits. */
  method FindAdapter(value: Json, host: string) returns (found: bool)
    ensures found == HasAdapter(value, host)
  {
    var pending := [Entry(value, 0)];
    var inspected: nat := 0;
    ghost var visited, done := Visited(value, 0), [];
    PendingOfOne(Entry(value, 0));
    while pending != [] && inspected < INSPECTION_LIMIT
      invariant inspected == |done| <= INSPECTION_LIMIT
      invariant visited == done + Pending(pending)
      invariant !AnyHit(done, host)
      decreases INSPECTION_LIMIT - inspected
    {
      var current, below := pending[|pending| - 1], pending[..|pending| - 1];
      assert pending == below + [current];
      var children := if current.depth < DEPTH_LIMIT then Children(current.value) else [];
      PopVisits(below, current, children);
      if Hit(current.value, host) {
        HitInFirst(visited, done, Pending(pending), INSPECTION_LIMIT, host);
        return true;
      }
      pending := below + Entries(children, current.depth + 1);
      VisitMiss(visited, done, current.value, Pending(pending), host);
      done := done + [current.value];
      inspected := inspected + 1;
    }
    HitInFirst(visited, done, Pending(pending), INSPECTION_LIMIT, host);
    return false;
  }

  // --------------------------------------------------- against the whole tree

  /** Every container of the tree and the root, without any limit. */
  function Nested(a: Json): seq<Json>
    decreases a, 1
  {
    [a] + NestedChildren(a, |Children(a)|)
  }

  function NestedChildren(a: Json, count: nat): seq<Json>
    requires count <= |Children(a)|
    decreases a, 0, count
  {
    if count == 0 then []
    else
      ChildIsSmaller(a, count - 1);
      Nested(Children(a)[count - 1]) + NestedChildren(a, count - 1)
  }

  /** How many levels of containers lie below the root. */
  function Height(a: Json): nat
    decreases a, 1
  {
    ChildrenHeight(a, |Children(a)|)
  }

  function ChildrenHeight(a: Json, count: nat): nat
    requires count <= |Children(a)|
    decreases a, 0, count
  {
    if count == 0 then 0
    else
      ChildIsSmaller(a, count - 1);
      var last, others := 1 + Height(Children(a)[count - 1]), ChildrenHeight(a, count - 1);
      if last > others then last else others
  }

  predicate Among(values: seq<Json>, all: seq<Json>) { forall v :: v in values ==> v in all }

  lemma {:induction false} VisitedAreNested(a: Json, depth: nat)
    ensures Among(Visited(a, depth), Nested(a))
    ensures depth + Height(a) <= DEPTH_LIMIT ==> Visited(a, depth) == Nested(a)
    decreases a, 1
  {
    VisitedChildrenAreNested(a, |Children(a)|, depth);
    if depth == DEPTH_LIMIT && Height(a) == 0 { NoChildrenAtHeightZero(a, |Children(a)|); }
  }

  lemma NoChildrenAtHeightZero(a: Json, count: nat)
    requires count <= |Children(a)| && ChildrenHeight(a, count) == 0
    ensures count == 0
  {
  }

  lemma {:induction false} VisitedChildrenAreNested(a: Json, count: nat, depth: nat)
    requires count <= |Children(a)|
    ensures Among(VisitedChildren(a, count, depth), NestedChildren(a, count))
    ensures depth + ChildrenHeight(a, count) <= DEPTH_LIMIT ==> VisitedChildren(a, count, depth) == NestedChildren(a, count)
    decreases a, 0, count
  {
    if count > 0 {
      ChildIsSmaller(a, count - 1);
      var last := Children(a)[count - 1];
      VisitedAreNested(last, depth + 1);
      VisitedChildrenAreNested(a, count - 1, depth);
      assert VisitedChildren(a, count, depth) == Visited(last, depth + 1) + VisitedChildren(a, count - 1, depth);
      assert NestedChildren(a, count) == Nested(last) + NestedChildren(a, count - 1);
      JoinedMembers(Visited(last, depth + 1), VisitedChildren(a, count - 1, depth), Nested(last), NestedChildren(a, count - 1));
    }
  }

  lemma JoinedMembers(first: seq<Json>, rest: seq<Json>, more: seq<Json>, others: seq<Json>)
    requires Among(first, more) && Among(rest, others)
    ensures Among(first + rest, more + others)
  {
  }

  // ------------------------------------------------------ what nested means

  /** `v` is `a` or lies in it, through lists and objects. */
  predicate Contains(a: Json, v: Json)
    decreases a
  {
    a == v ||
    match a
    case List(items) => exists i :: 0 <= i < |items| && IsContainer(items[i]) && Contains(items[i], v)
    case Obj(fields) => exists i :: 0 <= i < |fields| && IsContainer(fields[i].value) && Contains(fields[i].value, v)
    case _ => false
  }

  /** Some container lies `depth` levels below `a`. */
  predicate ReachesLevel(a: Json, depth: nat)
    decreases a
  {
    depth == 0 ||
    match a
    case List(items) => exists i :: 0 <= i < |items| && IsContainer(items[i]) && ReachesLevel(items[i], depth - 1)
    case Obj(fields) => exists i :: 0 <= i < |fields| && IsContainer(fields[i].value) && ReachesLevel(fields[i].value, depth - 1)
    case _ => false
  }

  lemma ChildrenAreInside(a: Json, child: Json)
    ensures child in Children(a) <==> child in Inside(a) && IsContainer(child)
  {
    ContainersAmongAreMembers(Inside(a));
    if child in Inside(a) && IsContainer(child) { ContainerIsAmong(Inside(a), child); }
  }

  lemma {:induction false} NestedInChild(a: Json, count: nat, v: Json)
    requires count <= |Children(a)|
    ensures v in NestedChildren(a, count) <==> exists i :: 0 <= i < count && InNth(a, i, v)
    decreases count
  {
    if count > 0 {
      NestedInChild(a, count - 1, v);
      var last, others := Nested(Children(a)[count - 1]), NestedChildren(a, count - 1);
      assert NestedChildren(a, count) == last + others;
      InEither(last, others, v);
      assert InNth(a, count - 1, v) <==> v in last;
      if i :| 0 <= i < count && InNth(a, i, v) { assert i < count - 1 || v in last; }
    }
  }

  lemma InEither(first: seq<Json>, rest: seq<Json>, v: Json)
    ensures v in first + rest <==> v in first || v in rest
  {
  }

  predicate InNth(a: Json, i: nat, v: Json)
    requires i < |Children(a)|
  {
    v in Nested(Children(a)[i])
  }

  lemma {:induction false} NestedIsContained(a: Json, v: Json)
    ensures v in Nested(a) <==> Contains(a, v)
    decreases a
  {
    forall child | child in Inside(a) ensures v in Nested(child) <==> Contains(child, v) {
      InsideIsSmaller(a);
      NestedIsContained(child, v);
    }
    ContainedThroughChildren(a, v);
  }

  lemma ContainedThroughChildren(a: Json, v: Json)
    requires forall child :: child in Inside(a) ==> (v in Nested(child) <==> Contains(child, v))
    ensures v in Nested(a) <==> Contains(a, v)
  {
    assert Nested(a) == [a] + NestedChildren(a, |Children(a)|);
    InEither([a], NestedChildren(a, |Children(a)|), v);
    NestedInChild(a, |Children(a)|, v);
    InChildIsContained(a, v);
    if i :| 0 <= i < |Children(a)| && InNth(a, i, v) { ChildrenAreInside(a, Children(a)[i]); }
    if child :| child in Inside(a) && IsContainer(child) && Contains(child, v) {
      ChildrenAreInside(a, child);
      var i :| 0 <= i < |Children(a)| && Children(a)[i] == child;
      assert InNth(a, i, v);
    }
  }

  lemma InChildIsContained(a: Json, v: Json)
    ensures Contains(a, v) <==> a == v || exists child :: child in Inside(a) && IsContainer(child) && Contains(child, v)
  {
    match a
    case List(items) =>
      if i :| 0 <= i < |items| && IsContainer(items[i]) && Contains(items[i], v) { assert items[i] in Inside(a); }
    case Obj(fields) =>
      var values := Inside(a);
      assert forall i :: 0 <= i < |fields| ==> values[i] == fields[i].value;
      if i :| 0 <= i < |fields| && IsContainer(fields[i].value) && Contains(fields[i].value, v) { assert values[i] in Inside(a); }
    case _ =>
  }

  lemma {:induction false} HeightOfChildren(a: Json, count: nat, depth: nat)
    requires count <= |Children(a)| && depth > 0
    ensures ChildrenHeight(a, count) >= depth <==> exists i :: 0 <= i < count && TallNth(a, i, depth)
    decreases count
  {
    if count > 0 {
      HeightOfChildren(a, count - 1, depth);
      var last, others := 1 + Height(Children(a)[count - 1]), ChildrenHeight(a, count - 1);
      assert ChildrenHeight(a, count) == if last > others then last else others;
      assert TallNth(a, count - 1, depth) <==> last >= depth;
      if i :| 0 <= i < count && TallNth(a, i, depth) { assert i < count - 1 || last >= depth; }
    }
  }

  predicate TallNth(a: Json, i: nat, depth: nat)
    requires i < |Children(a)|
  {
    Height(Children(a)[i]) + 1 >= depth
  }

  lemma {:induction false} HeightIsLevels(a: Json, depth: nat)
    ensures Height(a) >= depth <==> ReachesLevel(a, depth)
    decreases a
  {
    if depth > 0 {
      forall child | child in Inside(a) ensures Height(child) >= depth - 1 <==> ReachesLevel(child, depth - 1) {
        InsideIsSmaller(a);
        HeightIsLevels(child, depth - 1);
      }
      LevelOfChildren(a, depth);
    }
  }

  lemma LevelOfChildren(a: Json, depth: nat)
    requires depth > 0 && forall child :: child in Inside(a) ==> (Height(child) >= depth - 1 <==> ReachesLevel(child, depth - 1))
    ensures Height(a) >= depth <==> ReachesLevel(a, depth)
  {
    HeightOfChildren(a, |Children(a)|, depth);
    LevelThroughChild(a, depth);
    if i :| 0 <= i < |Children(a)| && TallNth(a, i, depth) { ChildrenAreInside(a, Children(a)[i]); }
    if child :| child in Inside(a) && IsContainer(child) && ReachesLevel(child, depth - 1) {
      ChildrenAreInside(a, child);
      var i :| 0 <= i < |Children(a)| && Children(a)[i] == child;
      assert TallNth(a, i, depth);
    }
  }

  lemma LevelThroughChild(a: Json, depth: nat)
    requires depth > 0
    ensures ReachesLevel(a, depth) <==> exists child :: child in Inside(a) && IsContainer(child) && ReachesLevel(child, depth - 1)
  {
    match a
    case List(items) =>
      if i :| 0 <= i < |items| && IsContainer(items[i]) && ReachesLevel(items[i], depth - 1) { assert items[i] in Inside(a); }
    case Obj(fields) =>
      var values := Inside(a);
      assert forall i :: 0 <= i < |fields| ==> values[i] == fields[i].value;
      if i :| 0 <= i < |fields| && IsContainer(fields[i].value) && ReachesLevel(fields[i].value, depth - 1) { assert values[i] in Inside(a); }
    case _ =>
  }

  /** Somewhere in the value an object has a `command` that launches the hook for the host. */
  ghost predicate Installed(value: Json, host: string) {
    exists v :: Contains(value, v) && v.Obj? && Get(v.fields, "command", Null).Str? && Recognises(Get(v.fields, "command", Null).text, host)
  }

  lemma HitsAreInstalled(value: Json, host: string)
    ensures (exists v :: v in Nested(value) && Hit(v, host)) <==> Installed(value, host)
  {
    if v :| v in Nested(value) && Hit(v, host) { NestedIsContained(value, v); }
    if Installed(value, host) {
      var v :| Contains(value, v) && v.Obj? && Get(v.fields, "command", Null).Str? && Recognises(Get(v.fields, "command", Null).text, host);
      NestedIsContained(value, v);
      assert Hit(v, host);
    }
  }

  /** A reported adapter is always there. */
  lemma ReportedAdapterExists(value: Json, host: string)
    requires HasAdapter(value, host)
    ensures Installed(value, host)
  {
    VisitedAreNested(value, 0);
    var first := FirstOf(Visited(value, 0), 4096);
    var i :| 0 <= i < |first| && Hit(first[i], host);
    assert first[i] == Visited(value, 0)[i];
    HitsAreInstalled(value, host);
  }

  /** With no container more than sixteen levels down and at most 4096 nested values, the search
      is exact. */
  lemma SearchIsExactWithinLimits(value: Json, host: string)
    requires !ReachesLevel(value, 17) && |Nested(value)| <= 4096
    ensures HasAdapter(value, host) <==> Installed(value, host)
  {
    HeightIsLevels(value, 17);
    HitsAreInstalled(value, host);
    VisitedAreNested(value, 0);
    if v :| v in Nested(value) && Hit(v, host) {
      var i :| 0 <= i < |Nested(value)| && Nested(value)[i] == v;
      assert Hit(Nested(value)[i], host);
    }
    if HasAdapter(value, host) { ReportedAdapterExists(value, host); }
  }

  lemma {:induction false} ChildIsNested(a: Json, count: nat, i: nat, v: Json)
    requires i < count <= |Children(a)| && v in Nested(Children(a)[i])
    ensures v in NestedChildren(a, count)
    decreases count
  {
    if i < count - 1 { ChildIsNested(a, count - 1, i, v); }
  }

  /** Nesting is transitive along one container step. */
  lemma NestedThrough(outer: Json, inner: Json, v: Json)
    requires inner in Inside(outer) && IsContainer(inner) && v in Nested(inner)
    ensures v in Nested(outer)
  {
    ContainerIsAmong(Inside(outer), inner);
    var i :| 0 <= i < |Children(outer)| && Children(outer)[i] == inner;
    ChildIsNested(outer, |Children(outer)|, i, v);
  }
}
