// The multimap of timers as a value: a sequence of (key, timer) entries in
// iteration order, with the operations of `TimersCache` as functions and the
// invariants they keep.

module TimerTable {
  import opened Messages
  import opened Timers

  datatype Entry = Entry(key: int, timer: TimerValue)

  type Table = seq<Entry>

  // ---------------------------------------------------------------- operations

  // A multimap inserts after every entry whose key is not larger.
  function Insert(t: Table, e: Entry): Table {
    if t == [] || e.key < t[0].key then [e] + t else [t[0]] + Insert(t[1..], e)
  }

  function InsertTimer(t: Table, timer: TimerValue): Table {
    Insert(t, Entry(timer.Expiry(), timer))
  }

  // Erases the first timer that has this ID.
  function RemoveId(t: Table, id: nat): Table {
    if t == [] then [] else if t[0].timer.id == id then t[1..] else [t[0]] + RemoveId(t[1..], id)
  }

  // The timer that has this ID: the table read as a finite map.
  function Lookup(t: Table, id: nat): Option<TimerValue> {
    if t == [] then None else if t[0].timer.id == id then Some(t[0].timer) else Lookup(t[1..], id)
  }

  function Restart(t: Table, id: nat, now: int): Table {
    match Lookup(t, id)
    case None => t
    case Some(timer) => InsertTimer(RemoveId(t, id), timer.(start := now))
  }

  function Trigger(t: Table, timePoint: int): Table {
    seq(|t|, i requires 0 <= i < |t| => Entry(t[i].key, Triggered(t[i].timer, timePoint)))
  }

  // The timers whose callbacks a trigger pass runs, in the order it runs them.
  function Fired(t: Table, timePoint: int): seq<TimerValue> {
    if t == [] then []
    else (if t[0].timer.Due(timePoint) then [t[0].timer] else []) + Fired(t[1..], timePoint)
  }

  function Keep(t: Table, p: TimerValue -> bool): Table {
    if t == [] then [] else (if p(t[0].timer) then [t[0]] else []) + Keep(t[1..], p)
  }

  // Puts timers back one after the other, each started at its own clock reading.
  function Reinsert(t: Table, again: Table, readings: seq<int>): Table
    requires |again| == |readings|
    decreases |again|
  {
    if again == [] then t
    else Reinsert(InsertTimer(t, Renewed(again[0].timer, readings[0])), again[1..], readings[1..])
  }

  function Renewed(timer: TimerValue, now: int): TimerValue {
    timer.(status := Waiting, start := now)
  }

  function RestartRepeatable(t: Table, readings: seq<int>): Table
    requires |Keep(t, EndedRepeatable)| == |readings|
  {
    Reinsert(Keep(t, NotEndedRepeatable), Keep(t, EndedRepeatable), readings)
  }

  // One timer changes its status in place.
  function SetStatus(t: Table, id: nat, status: ActionStatus): Table {
    if t == [] then []
    else if t[0].timer.id == id then [Entry(t[0].key, t[0].timer.(status := status))] + t[1..]
    else [t[0]] + SetStatus(t[1..], id, status)
  }

  function RemoveEnded(t: Table): Table { Keep(t, NotEndedOneShot) }

  function NextExpiration(t: Table): Option<int> {
    if t == [] then None else Some(t[0].key)
  }

  // ---------------------------------------------------------------- invariants

  ghost function Ids(t: Table): set<nat> { set e | e in t :: e.timer.id }

  ghost predicate Sorted(t: Table) {
    t != [] ==> (forall e | e in t[1..] :: t[0].key <= e.key) && Sorted(t[1..])
  }

  ghost predicate KeysAgree(t: Table) {
    forall e | e in t :: e.key == e.timer.Expiry()
  }

  ghost predicate DistinctIds(t: Table) {
    t != [] ==> t[0].timer.id !in Ids(t[1..]) && DistinctIds(t[1..])
  }

  // What every operation of the cache keeps.
  ghost predicate WellFormed(t: Table) { Sorted(t) && KeysAgree(t) && DistinctIds(t) }

  // ---------------------------------------------------------------- membership

  lemma Unfold(t: Table)
    requires t != []
    ensures forall e :: e in t <==> e == t[0] || e in t[1..]
    ensures Ids(t) == {t[0].timer.id} + Ids(t[1..])
  {
  }

  lemma {:induction false} LookupFound(t: Table, id: nat)
    ensures Lookup(t, id).Some? <==> id in Ids(t)
    ensures Lookup(t, id).Some? ==>
      Lookup(t, id).value.id == id && exists e :: e in t && e.timer == Lookup(t, id).value
  {
    if t == [] {
    } else {
      Unfold(t);
      LookupFound(t[1..], id);
      if t[0].timer.id == id {
        assert t[0] in t;
      }
    }
  }

  // With distinct IDs the table is a map: it holds exactly the timers it finds.
  lemma {:induction false} MemberLookup(t: Table, e: Entry)
    requires DistinctIds(t) && e in t
    ensures Lookup(t, e.timer.id) == Some(e.timer)
  {
    Unfold(t);
    if e == t[0] {
    } else {
      MemberLookup(t[1..], e);
    }
  }

  lemma {:induction false} InsertMembers(t: Table, e: Entry)
    ensures forall x :: x in Insert(t, e) <==> x == e || x in t
    ensures Ids(Insert(t, e)) == Ids(t) + {e.timer.id}
    ensures |Insert(t, e)| == |t| + 1
  {
    if t != [] && t[0].key <= e.key {
      Unfold(t);
      InsertMembers(t[1..], e);
      Unfold(Insert(t, e));
    } else {
      Unfold([e] + t);
    }
  }

  lemma {:induction false} RemoveMembers(t: Table, id: nat)
    ensures forall x :: x in RemoveId(t, id) ==> x in t
    ensures DistinctIds(t) ==> Ids(RemoveId(t, id)) == Ids(t) - {id}
    ensures |RemoveId(t, id)| == if Lookup(t, id).Some? then |t| - 1 else |t|
  {
    if t == [] {
    } else {
      Unfold(t);
      RemoveMembers(t[1..], id);
      if t[0].timer.id != id {
        Unfold(RemoveId(t, id));
      }
    }
  }

  lemma {:induction false} KeepMembers(t: Table, p: TimerValue -> bool)
    ensures forall x :: x in Keep(t, p) <==> x in t && p(x.timer)
    ensures Ids(Keep(t, p)) <= Ids(t)
    ensures |Keep(t, p)| <= |t|
  {
    if t == [] {
    } else {
      Unfold(t);
      KeepMembers(t[1..], p);
      if p(t[0].timer) {
        Unfold(Keep(t, p));
      }
    }
  }

  lemma KeepSingle(e: Entry, p: TimerValue -> bool)
    ensures Keep([e], p) == if p(e.timer) then [e] else []
  {
    assert [e][1..] == [];
  }

  lemma TriggerTail(t: Table, timePoint: int)
    requires t != []
    ensures Trigger(t, timePoint)[1..] == Trigger(t[1..], timePoint)
    ensures Trigger(t, timePoint) == [Entry(t[0].key, Triggered(t[0].timer, timePoint))] + Trigger(t[1..], timePoint)
  {
  }

  // ---------------------------------------------------------------- the table read as a map

  lemma {:induction false} LookupInsert(t: Table, e: Entry, id: nat)
    requires e.timer.id !in Ids(t)
    ensures Lookup(Insert(t, e), id) == if id == e.timer.id then Some(e.timer) else Lookup(t, id)
  {
    if t != [] && t[0].key <= e.key {
      Unfold(t);
      LookupInsert(t[1..], e, id);
      assert Insert(t, e)[1..] == Insert(t[1..], e);
    } else {
      assert ([e] + t)[1..] == t;
    }
  }

  lemma {:induction false} LookupRemove(t: Table, id: nat, other: nat)
    requires DistinctIds(t)
    ensures Lookup(RemoveId(t, id), other) == if other == id then None else Lookup(t, other)
  {
    if t == [] {
    } else {
      Unfold(t);
      LookupRemove(t[1..], id, other);
      if t[0].timer.id == id {
        LookupFound(t[1..], id);
      } else {
        assert RemoveId(t, id)[1..] == RemoveId(t[1..], id);
      }
    }
  }

  lemma {:induction false} LookupKeep(t: Table, p: TimerValue -> bool, id: nat)
    requires DistinctIds(t)
    ensures Lookup(Keep(t, p), id) ==
      if Lookup(t, id).Some? && p(Lookup(t, id).value) then Lookup(t, id) else None
  {
    if t == [] {
    } else {
      Unfold(t);
      LookupKeep(t[1..], p, id);
      KeepMembers(t[1..], p);
      LookupFound(Keep(t[1..], p), id);
      if p(t[0].timer) {
        assert Keep(t, p)[1..] == Keep(t[1..], p);
      } else {
        assert Keep(t, p) == Keep(t[1..], p);
      }
    }
  }

  lemma {:induction false} LookupTrigger(t: Table, timePoint: int, id: nat)
    ensures Lookup(Trigger(t, timePoint), id) ==
      match Lookup(t, id) case None => None case Some(timer) => Some(Triggered(timer, timePoint))
  {
    if t == [] {
    } else {
      TriggerTail(t, timePoint);
      LookupTrigger(t[1..], timePoint, id);
    }
  }

  lemma {:induction false} TriggerIds(t: Table, timePoint: int)
    ensures Ids(Trigger(t, timePoint)) == Ids(t)
  {
    if t == [] {
    } else {
      Unfold(t);
      TriggerTail(t, timePoint);
      TriggerIds(t[1..], timePoint);
      Unfold(Trigger(t, timePoint));
    }
  }

  // ---------------------------------------------------------------- every operation keeps the invariants

  lemma {:induction false} InsertKeeps(t: Table, timer: TimerValue)
    requires WellFormed(t) && timer.id !in Ids(t)
    ensures WellFormed(InsertTimer(t, timer))
  {
    var e := Entry(timer.Expiry(), timer);
    InsertMembers(t, e);
    if t != [] && t[0].key <= e.key {
      Unfold(t);
      InsertMembers(t[1..], e);
      InsertKeeps(t[1..], timer);
      assert Insert(t, e)[1..] == Insert(t[1..], e);
    } else {
      assert ([e] + t)[1..] == t;
      if t != [] {
        Unfold(t);
      }
    }
  }

  lemma {:induction false} RemoveKeeps(t: Table, id: nat)
    requires WellFormed(t)
    ensures WellFormed(RemoveId(t, id))
  {
    RemoveMembers(t, id);
    if t == [] {
    } else {
      Unfold(t);
      RemoveMembers(t[1..], id);
      RemoveKeeps(t[1..], id);
      if t[0].timer.id != id {
        assert RemoveId(t, id)[1..] == RemoveId(t[1..], id);
      }
    }
  }

  lemma RestartKeeps(t: Table, id: nat, now: int)
    requires WellFormed(t)
    ensures WellFormed(Restart(t, id, now))
    ensures Ids(Restart(t, id, now)) == Ids(t)
    ensures |Restart(t, id, now)| == |t|
  {
    LookupFound(t, id);
    if Lookup(t, id).Some? {
      var timer := Lookup(t, id).value;
      RemoveKeeps(t, id);
      RemoveMembers(t, id);
      InsertKeeps(RemoveId(t, id), timer.(start := now));
      InsertMembers(RemoveId(t, id), Entry(timer.(start := now).Expiry(), timer.(start := now)));
    }
  }

  lemma LookupRestart(t: Table, id: nat, now: int, other: nat)
    requires DistinctIds(t)
    ensures Lookup(Restart(t, id, now), other) ==
      if other == id && Lookup(t, id).Some? then Some(Lookup(t, id).value.(start := now)) else Lookup(t, other)
  {
    LookupFound(t, id);
    if Lookup(t, id).Some? {
      var timer := Lookup(t, id).value.(start := now);
      RemoveMembers(t, id);
      LookupInsert(RemoveId(t, id), Entry(timer.Expiry(), timer), other);
      LookupRemove(t, id, other);
    }
  }

  lemma {:induction false} KeepKeeps(t: Table, p: TimerValue -> bool)
    requires WellFormed(t)
    ensures WellFormed(Keep(t, p))
  {
    KeepMembers(t, p);
    if t == [] {
    } else {
      Unfold(t);
      KeepMembers(t[1..], p);
      KeepKeeps(t[1..], p);
      if p(t[0].timer) {
        assert Keep(t, p)[1..] == Keep(t[1..], p);
      } else {
        assert Keep(t, p) == Keep(t[1..], p);
      }
    }
  }

  lemma {:induction false} TriggerKeeps(t: Table, timePoint: int)
    requires WellFormed(t)
    ensures WellFormed(Trigger(t, timePoint))
  {
    if t == [] {
    } else {
      Unfold(t);
      TriggerTail(t, timePoint);
      TriggerKeeps(t[1..], timePoint);
      TriggerIds(t[1..], timePoint);
      var u := Trigger(t, timePoint);
      Unfold(u);
      forall e | e in u[1..] ensures u[0].key <= e.key {
        var i :| 0 <= i < |u[1..]| && u[1..][i] == e;
        assert t[1..][i].key == e.key && t[1..][i] in t[1..];
      }
    }
  }

  lemma {:induction false} ReinsertKeeps(t: Table, again: Table, readings: seq<int>)
    requires WellFormed(t) && DistinctIds(again) && Ids(t) !! Ids(again)
    requires |again| == |readings|
    ensures WellFormed(Reinsert(t, again, readings))
    ensures Ids(Reinsert(t, again, readings)) == Ids(t) + Ids(again)
    ensures |Reinsert(t, again, readings)| == |t| + |again|
    decreases |again|
  {
    if again == [] {
    } else {
      Unfold(again);
      var timer := Renewed(again[0].timer, readings[0]);
      InsertKeeps(t, timer);
      InsertMembers(t, Entry(timer.Expiry(), timer));
      ReinsertKeeps(InsertTimer(t, timer), again[1..], readings[1..]);
    }
  }

  // Splitting a table by a predicate keeps the two halves apart.
  lemma {:induction false} SplitIds(t: Table, p: TimerValue -> bool, q: TimerValue -> bool)
    requires DistinctIds(t)
    requires forall timer :: p(timer) <==> !q(timer)
    ensures Ids(Keep(t, p)) !! Ids(Keep(t, q))
    ensures Ids(Keep(t, p)) + Ids(Keep(t, q)) == Ids(t)
    ensures |Keep(t, p)| + |Keep(t, q)| == |t|
  {
    if t == [] {
    } else {
      Unfold(t);
      SplitIds(t[1..], p, q);
      KeepMembers(t[1..], p);
      KeepMembers(t[1..], q);
      if p(t[0].timer) {
        Unfold(Keep(t, p));
        assert Keep(t, p)[1..] == Keep(t[1..], p);
      } else {
        Unfold(Keep(t, q));
        assert Keep(t, q)[1..] == Keep(t[1..], q);
      }
    }
  }

  lemma RestartRepeatableKeeps(t: Table, readings: seq<int>)
    requires WellFormed(t) && |Keep(t, EndedRepeatable)| == |readings|
    ensures WellFormed(RestartRepeatable(t, readings))
    ensures Ids(RestartRepeatable(t, readings)) == Ids(t)
    ensures |RestartRepeatable(t, readings)| == |t|
  {
    KeepKeeps(t, NotEndedRepeatable);
    KeepKeeps(t, EndedRepeatable);
    SplitIds(t, NotEndedRepeatable, EndedRepeatable);
    ReinsertKeeps(Keep(t, NotEndedRepeatable), Keep(t, EndedRepeatable), readings);
  }

  // ---------------------------------------------------------------- the table under status changes

  lemma {:induction false} SetStatusKeeps(t: Table, id: nat, status: ActionStatus)
    requires WellFormed(t)
    ensures WellFormed(SetStatus(t, id, status))
    ensures Ids(SetStatus(t, id, status)) == Ids(t)
    ensures |SetStatus(t, id, status)| == |t|
    ensures forall e | e in SetStatus(t, id, status) ::
      exists o :: o in t && o.key == e.key && (e == o || e.timer == o.timer.(status := status))
  {
    if t == [] {
    } else {
      Unfold(t);
      var u := SetStatus(t, id, status);
      if t[0].timer.id == id {
        assert u[1..] == t[1..];
      } else {
        SetStatusKeeps(t[1..], id, status);
        assert u[1..] == SetStatus(t[1..], id, status);
      }
      Unfold(u);
    }
  }

  lemma {:induction false} LookupSetStatus(t: Table, id: nat, status: ActionStatus, other: nat)
    ensures Lookup(SetStatus(t, id, status), other) ==
      if other == id && Lookup(t, id).Some? then Some(Lookup(t, id).value.(status := status)) else Lookup(t, other)
  {
    if t == [] || t[0].timer.id == id {
    } else {
      LookupSetStatus(t[1..], id, status, other);
    }
  }

  lemma {:induction false} SetStatusAt(t: Table, i: nat, status: ActionStatus)
    requires DistinctIds(t) && i < |t|
    ensures SetStatus(t, t[i].timer.id, status) == t[i := Entry(t[i].key, t[i].timer.(status := status))]
    decreases |t|
  {
    if i == 0 {
    } else {
      assert t[1..][i - 1] == t[i] && t[i] in t[1..];
      SetStatusAt(t[1..], i - 1, status);
    }
  }

  // ---------------------------------------------------------------- sorted-index agreement

  // The first key is the smallest expiry of all timers.
  lemma {:induction false} NextExpirationIsMinimum(t: Table)
    requires WellFormed(t)
    ensures NextExpiration(t).None? <==> t == []
    ensures t != [] ==>
      (exists e :: e in t && e.timer.Expiry() == NextExpiration(t).value)
      && forall e | e in t :: NextExpiration(t).value <= e.timer.Expiry()
  {
  }
}
