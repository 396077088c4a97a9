// Timer IDs: 32-bit unsigned, found by counting upwards from the smallest one.

module TimerIds {
  import opened Timers
  import opened TimerTable

  const SMALLEST_TIMER_ID := 1
  const MAX_UINT32 := 0xFFFF_FFFF

  // What `timerID++` does to a 32-bit unsigned value.
  function Increment(id: nat): nat { (id + 1) % (MAX_UINT32 + 1) }

  // Counting upwards from `from`; past the largest value the counter wraps to 0,
  // which no live timer uses unless all the others are taken.
  function Search(ids: set<nat>, from: nat): nat
    decreases MAX_UINT32 + 1 - from
  {
    if from > MAX_UINT32 then 0 else if from in ids then Search(ids, from + 1) else from
  }

  ghost function FreshId(t: Table): nat { Search(Ids(t), SMALLEST_TIMER_ID) }

  lemma {:induction false} SearchResult(ids: set<nat>, from: nat)
    requires 1 <= from <= MAX_UINT32 + 1
    ensures Search(ids, from) != 0 ==> from <= Search(ids, from) <= MAX_UINT32 && Search(ids, from) !in ids
    ensures Search(ids, from) != 0 ==> forall j: nat | from <= j < Search(ids, from) :: j in ids
    ensures Search(ids, from) == 0 ==> forall j: nat | from <= j <= MAX_UINT32 :: j in ids
    decreases MAX_UINT32 + 1 - from
  {
    if from > MAX_UINT32 || from !in ids {
    } else {
      SearchResult(ids, from + 1);
    }
  }

  lemma {:induction false} IdsBound(t: Table)
    ensures |Ids(t)| <= |t|
    ensures DistinctIds(t) ==> |Ids(t)| == |t|
  {
    if t == [] {
    } else {
      Unfold(t);
      IdsBound(t[1..]);
    }
  }

  // Pigeonhole: `n` consecutive numbers need `n` members.
  lemma {:induction false} Pigeonhole(ids: set<nat>, from: nat, n: nat)
    requires forall j: nat | from <= j < from + n :: j in ids
    ensures n <= |ids|
    decreases n
  {
    if n == 0 {
    } else {
      var last := from + n - 1;
      Pigeonhole(ids - {last}, from, n - 1);
      assert last in ids;
    }
  }

  // The search returns the least ID of at least 1 that no live timer has, and it is
  // at most one more than the number of timers. It fails (returns the ID 0, which is
  // also the failure value of registration) exactly when every ID is taken.
  lemma FreshIdIsLeast(t: Table)
    ensures FreshId(t) != 0 ==> 1 <= FreshId(t) <= |t| + 1 && FreshId(t) !in Ids(t)
    ensures FreshId(t) != 0 ==> forall j: nat | 1 <= j < FreshId(t) :: j in Ids(t)
    ensures FreshId(t) == 0 <==> forall j: nat | 1 <= j <= MAX_UINT32 :: j in Ids(t)
    ensures |t| < MAX_UINT32 ==> FreshId(t) != 0
  {
    SearchResult(Ids(t), 1);
    IdsBound(t);
    if FreshId(t) == 0 {
      Pigeonhole(Ids(t), 1, MAX_UINT32);
    } else {
      Pigeonhole(Ids(t), 1, FreshId(t) - 1);
    }
  }

  // With fewer than 2^32 timers the ID is free even when the counter wrapped, so
  // registration keeps live IDs distinct.
  lemma FreshIdIsFree(t: Table)
    requires |t| <= MAX_UINT32
    ensures FreshId(t) !in Ids(t)
  {
    FreshIdIsLeast(t);
    IdsBound(t);
    if FreshId(t) == 0 && 0 in Ids(t) {
      Pigeonhole(Ids(t), 0, MAX_UINT32 + 1);
    }
  }

  // Live IDs are never 0 as long as the ID space is not exhausted.
  lemma RegisterKeepsIds(t: Table, timer: TimerValue)
    requires WellFormed(t) && |t| <= MAX_UINT32
    ensures WellFormed(InsertTimer(t, timer.(id := FreshId(t))))
    ensures 0 !in Ids(t) && |t| < MAX_UINT32 ==> 0 !in Ids(InsertTimer(t, timer.(id := FreshId(t))))
  {
    var registered := timer.(id := FreshId(t));
    FreshIdIsFree(t);
    FreshIdIsLeast(t);
    InsertKeeps(t, registered);
    InsertMembers(t, Entry(registered.Expiry(), registered));
  }

  ghost predicate InRange(ids: set<nat>, n: nat) {
    forall id | id in ids :: 1 <= id <= n
  }

  lemma {:induction false} RangeBound(ids: set<nat>, n: nat)
    requires InRange(ids, n)
    ensures |ids| <= n
    decreases n
  {
    if n == 0 {
      assert ids == {};
    } else {
      RangeBound(ids - {n}, n - 1);
    }
  }

  // The ID 0 is handed out exactly when there are as many live timers as usable IDs.
  lemma ZeroIdIff(t: Table)
    requires DistinctIds(t) && InRange(Ids(t), MAX_UINT32)
    ensures FreshId(t) == 0 <==> |t| == MAX_UINT32
  {
    FreshIdIsLeast(t);
    IdsBound(t);
    RangeBound(Ids(t), MAX_UINT32);
    if FreshId(t) != 0 {
      RangeBound(Ids(t) + {FreshId(t)}, MAX_UINT32);
    }
  }
}
