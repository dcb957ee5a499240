/** Allocation of connection ids: `alloc_conn_id` in src/tcp.rs. */
module Allocator {
  import opened Common

  const ID_COUNT := 256

  /** `wrapping_add(1)` on one byte. */
  function Succ(id: ConnId): ConnId {
    if id == ID_COUNT - 1 then 0 else id + 1
  }

  /** How many increments take the cursor from `from` to `to`. */
  function Offset(from: ConnId, to: ConnId): nat {
    if from <= to then to - from else to + ID_COUNT - from
  }

  /** The first unmapped id among the `tries` ids that start at `next`, going round. */
  function Scan(used: set<ConnId>, next: ConnId, tries: nat): Option<ConnId>
    decreases tries
  {
    if tries == 0 then None
    else if next !in used then Some(next)
    else Scan(used, Succ(next), tries - 1)
  }

  /** The id to hand out, if any, and the cursor left behind. */
  function Alloc(used: set<ConnId>, next: ConnId): (Option<ConnId>, ConnId) {
    match Scan(used, next, ID_COUNT)
    case None => (None, next)
    case Some(id) => (Some(id), Succ(id))
  }

  /** `id` is unmapped and every id met on the way from the cursor to it is mapped. */
  ghost predicate CyclicallyFirst(used: set<ConnId>, next: ConnId, id: ConnId) {
    && id !in used
    && forall y: ConnId | Offset(next, y) < Offset(next, id) :: y in used
  }

  lemma {:induction false} ScanMeaning(used: set<ConnId>, next: ConnId, tries: nat)
    requires tries <= ID_COUNT
    ensures Scan(used, next, tries).None? ==> forall y: ConnId | Offset(next, y) < tries :: y in used
    ensures Scan(used, next, tries).Some? ==> CyclicallyFirst(used, next, Scan(used, next, tries).value)
    decreases tries
  {
    if tries > 0 && next in used {
      ScanMeaning(used, Succ(next), tries - 1);
      forall y: ConnId | y != next
        ensures Offset(next, y) == Offset(Succ(next), y) + 1
      {
      }
    }
  }

  /** The allocator returns exactly the cyclically first free id, and gives up exactly when none is free. */
  lemma AllocIsCyclicFirstFit(used: set<ConnId>, next: ConnId)
    ensures var (r, next') := Alloc(used, next);
      && (r.None? <==> forall id: ConnId :: id in used)
      && (r.None? ==> next' == next)
      && (forall id: ConnId :: r == Some(id) <==> CyclicallyFirst(used, next, id))
      && (r.Some? ==> next' == Succ(r.value))
  {
    ScanMeaning(used, next, ID_COUNT);
    var r := Alloc(used, next).0;
    if r.None? {
      forall id: ConnId
        ensures id in used
      {
        assert Offset(next, id) < ID_COUNT;
      }
    } else {
      forall id: ConnId | CyclicallyFirst(used, next, id)
        ensures id == r.value
      {
        assert Offset(next, id) == Offset(next, r.value);
      }
    }
  }

  /** A run of calls: call m sees the ids `used[m]` mapped and finds the cursor at `CursorAt(used, next, m)`. */
  function CursorAt(used: seq<set<ConnId>>, next: ConnId, m: nat): ConnId
    requires m <= |used|
  {
    if m == 0 then next else Alloc(used[m - 1], CursorAt(used, next, m - 1)).1
  }

  function ResultAt(used: seq<set<ConnId>>, next: ConnId, m: nat): Option<ConnId>
    requires m < |used|
  {
    Alloc(used[m], CursorAt(used, next, m)).0
  }

  /** `y` was handed out, or seen mapped, by a call after call i and no later than call l. */
  ghost predicate Passed(used: seq<set<ConnId>>, next: ConnId, i: nat, l: nat, y: ConnId)
    requires l < |used|
  {
    exists c: nat | i < c <= l :: ResultAt(used, next, c) == Some(y) || y in used[c]
  }

  ghost predicate AllPassed(used: seq<set<ConnId>>, next: ConnId, i: nat, l: nat, x: ConnId)
    requires l < |used|
  {
    forall y: ConnId :: Passed(used, next, i, l, y) || y == x
  }

  /** The ids passed after call i returned x: all others, or those from just behind x up to the cursor. */
  ghost predicate Progress(used: seq<set<ConnId>>, next: ConnId, i: nat, l: nat, x: ConnId)
    requires l < |used|
  {
    || AllPassed(used, next, i, l, x)
    || (forall y: ConnId | Offset(Succ(x), y) < Offset(Succ(x), CursorAt(used, next, l + 1)) ::
          Passed(used, next, i, l, y))
  }

  /** Every id a call looks at is either returned by it or seen mapped by it. */
  lemma ScannedIsPassed(used: seq<set<ConnId>>, next: ConnId, i: nat, l: nat, y: ConnId)
    requires i < l < |used|
    requires var from, r := CursorAt(used, next, l), ResultAt(used, next, l);
      r.None? || Offset(from, y) <= Offset(from, r.value)
    ensures Passed(used, next, i, l, y)
  {
    AllocIsCyclicFirstFit(used[l], CursorAt(used, next, l));
    assert ResultAt(used, next, l) == Some(y) || y in used[l];
  }

  lemma PassedGrows(used: seq<set<ConnId>>, next: ConnId, i: nat, l: nat, y: ConnId)
    requires l + 1 < |used| && Passed(used, next, i, l, y)
    ensures Passed(used, next, i, l + 1, y)
  {
    var c: nat :| i < c <= l && (ResultAt(used, next, c) == Some(y) || y in used[c]);
  }

  /** What walking the cursor from `from` to just past `id` covers, seen from just behind x. */
  lemma CursorWalk(x: ConnId, from: ConnId, id: ConnId, y: ConnId)
    requires y != x
    requires Offset(from, id) < Offset(from, y)
    ensures Offset(Succ(x), y) < Offset(Succ(x), from) || Offset(Succ(x), Succ(id)) <= Offset(Succ(x), y)
  {
  }

  lemma {:induction false} CursorProgress(used: seq<set<ConnId>>, next: ConnId, i: nat, l: nat, x: ConnId)
    requires i <= l < |used|
    requires ResultAt(used, next, i) == Some(x)
    ensures Progress(used, next, i, l, x)
    decreases l
  {
    if l == i {
      assert CursorAt(used, next, l + 1) == Succ(x);
    } else {
      CursorProgress(used, next, i, l - 1, x);
      ProgressStep(used, next, i, l, x);
    }
  }

  lemma ProgressStep(used: seq<set<ConnId>>, next: ConnId, i: nat, l: nat, x: ConnId)
    requires i < l < |used|
    requires Progress(used, next, i, l - 1, x)
    ensures Progress(used, next, i, l, x)
  {
    forall y: ConnId | Passed(used, next, i, l - 1, y)
      ensures Passed(used, next, i, l, y)
    {
      PassedGrows(used, next, i, l - 1, y);
    }
    var from, r := CursorAt(used, next, l), ResultAt(used, next, l);
    forall y: ConnId | r.None? || Offset(from, y) <= Offset(from, r.value)
      ensures Passed(used, next, i, l, y)
    {
      ScannedIsPassed(used, next, i, l, y);
    }
    if r.Some? && !AllPassed(used, next, i, l - 1, x) {
      AllocIsCyclicFirstFit(used[l], from);
      WalkCovers(used, next, i, l, x, from, r.value);
    }
  }

  lemma WalkCovers(used: seq<set<ConnId>>, next: ConnId, i: nat, l: nat, x: ConnId, from: ConnId, id: ConnId)
    requires l < |used| && CursorAt(used, next, l + 1) == Succ(id)
    requires forall y: ConnId | Offset(Succ(x), y) < Offset(Succ(x), from) :: Passed(used, next, i, l, y)
    requires forall y: ConnId | Offset(from, y) <= Offset(from, id) :: Passed(used, next, i, l, y)
    ensures Progress(used, next, i, l, x)
  {
    forall y: ConnId | Offset(Succ(x), y) < Offset(Succ(x), Succ(id)) && y != x
      ensures Passed(used, next, i, l, y)
    {
      if Offset(from, id) < Offset(from, y) {
        CursorWalk(x, from, id, y);
      }
    }
  }

  /** Reuse distance: between two calls that return the same id, every other id is returned or seen mapped. */
  lemma ReuseDistance(used: seq<set<ConnId>>, next: ConnId, i: nat, j: nat, x: ConnId)
    requires i < j < |used|
    requires ResultAt(used, next, i) == Some(x) && ResultAt(used, next, j) == Some(x)
    ensures AllPassed(used, next, i, j, x)
  {
    CursorProgress(used, next, i, j - 1, x);
    var from := CursorAt(used, next, j);
    forall y: ConnId | y != x
      ensures Passed(used, next, i, j, y)
    {
      if Passed(used, next, i, j - 1, y) {
        PassedGrows(used, next, i, j - 1, y);
      } else {
        assert Offset(Succ(x), from) <= Offset(Succ(x), y);
        ScannedIsPassed(used, next, i, j, y);
      }
    }
  }
}
