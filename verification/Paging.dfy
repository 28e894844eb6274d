/** Pages of eight and the cursors that join them. */
module Paging {
  import opened Outcomes

  // Pages over retained request records (`onboarding/native_saved_inventory.py`,
  // `onboarding/workload_inventory.py`), the loop that follows their cursors
  // (`onboarding/connection_lifecycle.py`), and the pages accepted from the service
  // (`onboarding/device_assignments.py`, `onboarding/device_preparations.py`).

  const PAGE := 8
  const MAX_ENTRIES := 10000

  /** A directory entry by its name; identities are UUIDs, ordered as numbers. */
  datatype Entry = Temporary | Hidden | Side(canonical: bool) | Record(id: nat) | Unexpected

  datatype Inventory = Saved | Workload

  datatype Page = Page(ids: seq<nat>, cursor: Option<nat>)

  /** Names that make an inventory fail; what is neither rejected nor a record is skipped. */
  predicate Rejected(inventory: Inventory, e: Entry) {
    match e
    case Temporary => false
    case Hidden => inventory.Saved?
    case Side(canonical) => inventory.Saved? || !canonical
    case Record(_) => false
    case Unexpected => true
  }

  predicate Readable(inventory: Inventory, entries: seq<Entry>) {
    |entries| <= 10000 && forall e :: e in entries ==> !Rejected(inventory, e)
  }

  /** No directory holds two entries of one name. */
  predicate DistinctRecords(entries: seq<Entry>) {
    forall i, j :: 0 <= i < j < |entries| && entries[i].Record? ==> entries[i] != entries[j]
  }

  function Ids(entries: seq<Entry>): set<nat> { set e | e in entries && e.Record? :: e.id }

  predicate Beyond(x: nat, after: Option<nat>) { after.None? || x > after.value }

  function Candidates(ids: set<nat>, after: Option<nat>): set<nat> { set x | x in ids && Beyond(x, after) }

  predicate Increasing(s: seq<nat>) { forall i, j :: 0 <= i < j < |s| ==> s[i] < s[j] }

  predicate Smallest(s: seq<nat>, n: nat, from: set<nat>) {
    && Increasing(s) && |s| <= n && (forall x :: x in s ==> x in from)
    && (forall x :: x in from && x !in s ==> |s| == n > 0 && s[n - 1] < x)
  }

  /** What a page promises about the retained identities. */
  predicate PageOf(ids: set<nat>, after: Option<nat>, page: Page) {
    && Increasing(page.ids) && |page.ids| <= 8
    && (forall x :: x in page.ids ==> x in Candidates(ids, after))
    && match page.cursor
       case None => forall x :: x in Candidates(ids, after) ==> x in page.ids
       case Some(c) =>
         && |page.ids| == 8 && c == page.ids[7]
         && (forall x :: x in Candidates(ids, after) && x <= c ==> x in page.ids)
         && exists x :: x in ids && x > c
  }

  // -------------------------------------------------------- smallest nine

  /** Where `x` belongs in an increasing sequence. */
  function Position(s: seq<nat>, x: nat): (i: nat)
    ensures i <= |s|
    ensures forall k :: 0 <= k < i ==> s[k] < x
    ensures i < |s| ==> x <= s[i]
  {
    if s == [] || x <= s[0] then 0 else 1 + Position(s[1..], x)
  }

  /** All of `s` with `x` in its place. */
  function Inserted(s: seq<nat>, x: nat): seq<nat> { s[..Position(s, x)] + [x] + s[Position(s, x)..] }

  function Place(s: seq<nat>, x: nat, n: nat): seq<nat> {
    if |Inserted(s, x)| > n then Inserted(s, x)[..n] else Inserted(s, x)
  }

  lemma InsertedIncreases(s: seq<nat>, x: nat)
    requires Increasing(s) && x !in s
    ensures Increasing(Inserted(s, x)) && |Inserted(s, x)| == |s| + 1
    ensures forall y :: y in Inserted(s, x) <==> y in s || y == x
  {
    var i := Position(s, x);
    assert s == s[..i] + s[i..];
    assert forall k :: i <= k < |s| ==> s[k] >= s[i];
  }

  lemma PlaceKeepsSmallest(s: seq<nat>, x: nat, n: nat, from: set<nat>)
    requires Smallest(s, n, from) && x !in from && n > 0
    ensures Smallest(Place(s, x, n), n, from + {x})
  {
    InsertedIncreases(s, x);
    var all, placed := Inserted(s, x), Place(s, x, n);
    assert all == placed + all[|placed|..];
    forall y | y in from + {x} && y !in placed ensures |placed| == n && placed[n - 1] < y {
      if y in all {
        var k :| 0 <= k < |all| && all[k] == y;
        assert k >= |placed|;
      } else {
        BeyondInserted(s, x, n, y);
      }
    }
  }

  lemma BeyondInserted(s: seq<nat>, x: nat, n: nat, y: nat)
    requires Increasing(s) && |s| == n > 0 && s[n - 1] < y
    ensures Inserted(s, x)[n - 1] < y
  {
  }

  /** `identifiers`: one scan in any order that keeps the nine smallest candidates. */
  method Identifiers(inventory: Inventory, entries: seq<Entry>, after: Option<nat>) returns (page: Option<Page>)
    requires DistinctRecords(entries)
    ensures page.Some? <==> Readable(inventory, entries)
    ensures page.Some? ==> PageOf(Ids(entries), after, page.value)
  {
    var selected := [];
    for count := 0 to |entries|
      invariant count <= MAX_ENTRIES
      invariant forall e :: e in entries[..count] ==> !Rejected(inventory, e)
      invariant Smallest(selected, PAGE + 1, Candidates(Ids(entries[..count]), after))
    {
      var e := entries[count];
      assert e in entries && entries[..count + 1] == entries[..count] + [e];
      if count + 1 > MAX_ENTRIES || Rejected(inventory, e) { return None; }
      if e.Record? && Beyond(e.id, after) {
        NewRecord(entries, count, after);
        PlaceKeepsSmallest(selected, e.id, PAGE + 1, Candidates(Ids(entries[..count]), after));
        selected := Place(selected, e.id, PAGE + 1);
      } else {
        assert Candidates(Ids(entries[..count + 1]), after) == Candidates(Ids(entries[..count]), after);
      }
    }
    assert entries[..|entries|] == entries;
    if |selected| == PAGE + 1 {
      page := Some(Page(selected[..PAGE], Some(selected[PAGE - 1])));
      CutPage(Ids(entries), after, selected);
    } else {
      page := Some(Page(selected, None));
    }
  }

  lemma NewRecord(entries: seq<Entry>, count: nat, after: Option<nat>)
    requires DistinctRecords(entries) && count < |entries| && entries[count].Record? && Beyond(entries[count].id, after)
    ensures entries[count].id !in Candidates(Ids(entries[..count]), after)
    ensures Candidates(Ids(entries[..count + 1]), after) == Candidates(Ids(entries[..count]), after) + {entries[count].id}
  {
    assert entries[..count + 1] == entries[..count] + [entries[count]];
    assert entries[count] !in entries[..count];
  }

  lemma CutPage(ids: set<nat>, after: Option<nat>, selected: seq<nat>)
    requires |selected| == PAGE + 1 && Smallest(selected, PAGE + 1, Candidates(ids, after))
    ensures PageOf(ids, after, Page(selected[..PAGE], Some(selected[PAGE - 1])))
  {
    forall x | x in Candidates(ids, after) && x <= selected[PAGE - 1] ensures x in selected[..PAGE] {
      assert x in selected;
      var k :| 0 <= k < |selected| && selected[k] == x;
      assert selected[..PAGE][k] == x;
    }
    assert selected[PAGE] in selected;
    assert selected[PAGE] in ids && selected[PAGE] > selected[PAGE - 1];
  }

  /** The loop of `reconcile_connections` over a fixed directory: it ends, and visits every
      retained identity exactly once, in increasing order. */
  method FollowCursors(inventory: Inventory, entries: seq<Entry>) returns (rows: Option<seq<nat>>)
    requires DistinctRecords(entries)
    ensures rows.Some? <==> Readable(inventory, entries)
    ensures rows.Some? ==> Increasing(rows.value) && forall x :: x in rows.value <==> x in Ids(entries)
  {
    var after, seen := None, [];
    while true
      invariant Increasing(seen) && forall x :: x in seen <==> x in Ids(entries) && !Beyond(x, after)
      decreases |Candidates(Ids(entries), after)|
    {
      var page := Identifiers(inventory, entries, after);
      if page.None? { return None; }
      NextPage(Ids(entries), after, seen, page.value);
      seen := seen + page.value.ids;
      if page.value.cursor.None? { return Some(seen); }
      after := page.value.cursor;
    }
  }

  lemma NextPage(ids: set<nat>, after: Option<nat>, seen: seq<nat>, page: Page)
    requires PageOf(ids, after, page)
    requires Increasing(seen) && forall x :: x in seen <==> x in ids && !Beyond(x, after)
    ensures Increasing(seen + page.ids)
    ensures page.cursor.None? ==> forall x :: x in seen + page.ids <==> x in ids
    ensures page.cursor.Some? ==>
      (forall x :: x in seen + page.ids <==> x in ids && !Beyond(x, page.cursor))
      && |Candidates(ids, page.cursor)| < |Candidates(ids, after)|
  {
    var all := seen + page.ids;
    forall i, j | 0 <= i < j < |all| ensures all[i] < all[j] {
      if i < |seen| <= j { assert all[i] in seen && all[j] in page.ids; }
    }
    if page.cursor.Some? {
      var c := page.cursor.value;
      assert c in Candidates(ids, after);
      assert Candidates(ids, page.cursor) <= Candidates(ids, after) - {c};
      Subset(Candidates(ids, page.cursor), Candidates(ids, after) - {c});
    }
  }

  lemma {:induction false} Subset(a: set<nat>, b: set<nat>)
    requires a <= b
    ensures |a| <= |b|
    decreases a
  {
    if a != {} {
      var x :| x in a;
      Subset(a - {x}, b - {x});
    }
  }

  // ------------------------------------------------------- pages of the service

  /** `sorted(set(ids))`. */
  function SortedSet(ids: seq<nat>): seq<nat> {
    if ids == [] then []
    else
      var rest := SortedSet(ids[..|ids| - 1]);
      if ids[|ids| - 1] in rest then rest else Place(rest, ids[|ids| - 1], |rest| + 1)
  }

  /** `DeviceAssignmentPage.from_payload`. */
  predicate AcceptsAssignments(page: Page, after: Option<nat>) {
    && |page.ids| <= PAGE && page.ids == SortedSet(page.ids)
    && (forall x :: x in page.ids ==> Beyond(x, after))
    && (page.cursor.Some? ==> |page.ids| == PAGE && page.cursor.value == page.ids[|page.ids| - 1])
  }

  /** `DevicePreparationPage.from_payload`; `only` asks for a single preparation. */
  predicate AcceptsPreparations(page: Page, after: Option<nat>, only: Option<nat>) {
    && AcceptsAssignments(page, after)
    && (only.Some? ==> |page.ids| <= 1 && page.cursor.None? && forall x :: x in page.ids ==> x == only.value)
  }

  lemma {:induction false} SortedSetIncreases(ids: seq<nat>)
    ensures Increasing(SortedSet(ids)) && forall x :: x in SortedSet(ids) <==> x in ids
    decreases |ids|
  {
    if ids != [] {
      var front, last := ids[..|ids| - 1], ids[|ids| - 1];
      SortedSetIncreases(front);
      var rest := SortedSet(front);
      assert ids == front + [last];
      if last !in rest { InsertedIncreases(rest, last); }
    }
  }

  /** Every page but the last was accepted with a cursor, which the next request starts from.
      Assignment pages are accepted as preparation pages that ask for no single one. */
  predicate Follows(pages: seq<Page>, start: Option<nat>, only: Option<nat>) {
    pages == [] || (Follows(pages[..|pages| - 1], start, only)
      && AcceptsPreparations(pages[|pages| - 1], Continuation(pages[..|pages| - 1], start), only)
      && (|pages| > 1 ==> pages[|pages| - 2].cursor.Some?))
  }

  function Continuation(pages: seq<Page>, start: Option<nat>): Option<nat> {
    if pages == [] then start else pages[|pages| - 1].cursor
  }

  function Joined(pages: seq<Page>): seq<nat> {
    if pages == [] then [] else Joined(pages[..|pages| - 1]) + pages[|pages| - 1].ids
  }

  /** Whatever pages a service returns, those the client accepts join to a strictly increasing
      list, so no identity repeats, and every page but the last brings eight new ones; asking
      for a single preparation brings at most that one. */
  lemma {:induction false} AcceptedPagesAdvance(pages: seq<Page>, start: Option<nat>, only: Option<nat>)
    requires Follows(pages, start, only)
    ensures Increasing(Joined(pages)) && forall x :: x in Joined(pages) ==> Beyond(x, start)
    ensures pages != [] && pages[|pages| - 1].cursor.Some? ==>
      Joined(pages) != [] && Joined(pages)[|Joined(pages)| - 1] == pages[|pages| - 1].cursor.value
      && |Joined(pages)| == 8 * |pages|
    ensures pages != [] ==> |Joined(pages)| >= 8 * (|pages| - 1)
    ensures only.Some? ==> |Joined(pages)| <= 1 && forall x :: x in Joined(pages) ==> x == only.value
    decreases |pages|
  {
    if pages != [] {
      var front, last := pages[..|pages| - 1], pages[|pages| - 1];
      AcceptedPagesAdvance(front, start, only);
      SortedSetIncreases(last.ids);
      var before := Joined(front);
      if front != [] {
        assert before[|before| - 1] in before;
        assert forall x :: x in last.ids ==> x > before[|before| - 1];
      }
      JoinIncreases(before, last.ids);
    }
  }

  lemma JoinIncreases(a: seq<nat>, b: seq<nat>)
    requires Increasing(a) && Increasing(b) && (a != [] ==> forall x :: x in b ==> x > a[|a| - 1])
    ensures Increasing(a + b)
  {
    forall i, j | 0 <= i < j < |a + b| ensures (a + b)[i] < (a + b)[j] {
      if i < |a| <= j { assert b[j - |a|] in b; }
    }
  }

  lemma AppendIsInserted(s: seq<nat>, x: nat)
    requires Increasing(s + [x])
    ensures Inserted(s, x) == s + [x] && x !in s
  {
    var all := s + [x];
    assert forall k :: 0 <= k < |s| ==> all[k] == s[k] && all[k] < all[|s|];
    assert forall k :: 0 <= k < |s| ==> s[k] < x;
  }

  lemma {:induction false} IncreasingIsSorted(ids: seq<nat>)
    requires Increasing(ids)
    ensures SortedSet(ids) == ids
    decreases |ids|
  {
    if ids != [] {
      var front, last := ids[..|ids| - 1], ids[|ids| - 1];
      assert ids == front + [last];
      IncreasingIsSorted(front);
      AppendIsInserted(front, last);
    }
  }

  /** A page is accepted exactly when its identities increase, lie beyond the cursor asked for,
      are at most eight, and all eight where it names a next cursor, which is the last. */
  lemma AcceptedExactly(page: Page, after: Option<nat>)
    ensures AcceptsAssignments(page, after) <==>
      && Increasing(page.ids) && |page.ids| <= 8 && (forall x :: x in page.ids ==> after.None? || x > after.value)
      && (page.cursor.Some? ==> |page.ids| == 8 && page.cursor.value == page.ids[7])
  {
    SortedSetIncreases(page.ids);
    if Increasing(page.ids) { IncreasingIsSorted(page.ids); }
  }

  /** What one scan of a directory yields is accepted as a page. */
  lemma HonestPagesAreAccepted(ids: set<nat>, after: Option<nat>, page: Page)
    requires PageOf(ids, after, page)
    ensures AcceptsAssignments(page, after)
  {
    AcceptedExactly(page, after);
  }
}
