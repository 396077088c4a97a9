// One turn of the timers thread, trigger + restart + remove, against a simple
// update of a map from IDs to timers; and which timers a trigger pass fires.

module TimerPass {
  import opened Messages
  import opened Timers
  import opened TimerTable

  // The three passes at the bottom of the timers thread's loop.
  function Pass(t: Table, timePoint: int, readings: seq<int>): Table
    requires |Keep(Trigger(t, timePoint), EndedRepeatable)| == |readings|
  {
    RemoveEnded(RestartRepeatable(Trigger(t, timePoint), readings))
  }

  // The same turn for one timer, without any table: `reading` is the clock
  // value at which it is put back if it repeats.
  function Turn(timer: TimerValue, timePoint: int, reading: int): Option<TimerValue> {
    if timer.status == Ended || timer.Due(timePoint) then
      if timer.repeatable then Some(timer.(status := Waiting, start := reading)) else None
    else Some(timer)
  }

  // Position of an ID in a table, or the table's length.
  function Position(t: Table, id: nat): (i: nat)
    ensures i <= |t|
    ensures i < |t| ==> t[i].timer.id == id
    ensures i < |t| <==> id in Ids(t)
  {
    if t == [] then 0
    else
      assert Ids(t) == {t[0].timer.id} + Ids(t[1..]) by { Unfold(t); }
      if t[0].timer.id == id then 0 else 1 + Position(t[1..], id)
  }

  // The clock reading a pass uses for this ID: timers are put back in table order.
  function ReadingFor(t: Table, timePoint: int, readings: seq<int>, id: nat): int {
    var i := Position(Keep(Trigger(t, timePoint), EndedRepeatable), id);
    if i < |readings| then readings[i] else 0
  }

  lemma {:induction false} LookupReinsert(t: Table, again: Table, readings: seq<int>, id: nat)
    requires WellFormed(t) && DistinctIds(again) && Ids(t) !! Ids(again)
    requires |again| == |readings|
    ensures Lookup(Reinsert(t, again, readings), id) ==
      var i := Position(again, id);
      if i < |again| then Some(Renewed(again[i].timer, readings[i])) else Lookup(t, id)
    decreases |again|
  {
    if again == [] {
    } else {
      Unfold(again);
      var timer := Renewed(again[0].timer, readings[0]);
      var t1 := InsertTimer(t, timer);
      InsertKeeps(t, timer);
      InsertMembers(t, Entry(timer.Expiry(), timer));
      LookupInsert(t, Entry(timer.Expiry(), timer), id);
      LookupReinsert(t1, again[1..], readings[1..], id);
    }
  }

  lemma {:induction false} LookupPosition(t: Table, id: nat)
    ensures Lookup(t, id) == if Position(t, id) < |t| then Some(t[Position(t, id)].timer) else None
  {
    if t == [] {
    } else {
      LookupPosition(t[1..], id);
    }
  }

  // What restarting does to the timer found under an ID.
  lemma LookupRestartRepeatable(t: Table, readings: seq<int>, id: nat)
    requires WellFormed(t) && |Keep(t, EndedRepeatable)| == |readings|
    ensures Lookup(RestartRepeatable(t, readings), id) ==
      var i := Position(Keep(t, EndedRepeatable), id);
      if Lookup(t, id).Some? && EndedRepeatable(Lookup(t, id).value)
      then if i < |readings| then Some(Renewed(Lookup(t, id).value, readings[i])) else None
      else Lookup(t, id)
    ensures Lookup(t, id).Some? && EndedRepeatable(Lookup(t, id).value)
      ==> Position(Keep(t, EndedRepeatable), id) < |readings|
  {
    var again := Keep(t, EndedRepeatable);
    KeepKeeps(t, NotEndedRepeatable);
    KeepKeeps(t, EndedRepeatable);
    SplitIds(t, NotEndedRepeatable, EndedRepeatable);
    LookupReinsert(Keep(t, NotEndedRepeatable), again, readings, id);
    LookupKeep(t, EndedRepeatable, id);
    LookupKeep(t, NotEndedRepeatable, id);
    LookupPosition(again, id);
  }

  // The three passes over the sorted multimap are one map update: every ID is
  // treated by `Turn`, on its own.
  lemma PassRefinesTurn(t: Table, timePoint: int, readings: seq<int>, id: nat)
    requires WellFormed(t)
    requires |Keep(Trigger(t, timePoint), EndedRepeatable)| == |readings|
    ensures WellFormed(Pass(t, timePoint, readings))
    ensures Lookup(Pass(t, timePoint, readings), id) ==
      match Lookup(t, id)
      case None => None
      case Some(timer) => Turn(timer, timePoint, ReadingFor(t, timePoint, readings, id))
    ensures Lookup(t, id).Some? && EndedRepeatable(Triggered(Lookup(t, id).value, timePoint))
      ==> ReadingFor(t, timePoint, readings, id) in readings
  {
    var t1 := Trigger(t, timePoint);
    var t2 := RestartRepeatable(t1, readings);
    TriggerKeeps(t, timePoint);
    LookupTrigger(t, timePoint, id);
    RestartRepeatableKeeps(t1, readings);
    LookupRestartRepeatable(t1, readings, id);
    KeepKeeps(t2, NotEndedOneShot);
    LookupKeep(t2, NotEndedOneShot, id);
  }

  // No timer is left running or ended behind a turn of the timers thread.
  lemma PassLeavesWaiting(t: Table, timePoint: int, readings: seq<int>)
    requires WellFormed(t) && forall e | e in t :: e.timer.status != Running
    requires |Keep(Trigger(t, timePoint), EndedRepeatable)| == |readings|
    ensures forall e | e in Pass(t, timePoint, readings) :: e.timer.status == Waiting
  {
    var t' := Pass(t, timePoint, readings);
    forall e | e in t' ensures e.timer.status == Waiting {
      var id := e.timer.id;
      PassRefinesTurn(t, timePoint, readings, id);
      MemberLookup(t', e);
      LookupFound(t, id);
    }
  }

  // ---------------------------------------------------------------- what a trigger pass fires

  lemma {:induction false} FiredMembers(t: Table, timePoint: int, timer: TimerValue)
    ensures timer in Fired(t, timePoint) <==> timer.Due(timePoint) && exists e :: e in t && e.timer == timer
  {
    if t == [] {
    } else {
      Unfold(t);
      FiredMembers(t[1..], timePoint, timer);
      if t[0].timer == timer {
        assert t[0] in t;
      }
    }
  }

  // Under an ID a pass fires the timer found there, if it is due, and nothing else.
  lemma FiredLookup(t: Table, timePoint: int, timer: TimerValue)
    requires DistinctIds(t)
    ensures timer in Fired(t, timePoint) <==> timer.Due(timePoint) && Lookup(t, timer.id) == Some(timer)
  {
    FiredMembers(t, timePoint, timer);
    LookupFound(t, timer.id);
    if timer in Fired(t, timePoint) {
      var e :| e in t && e.timer == timer;
      MemberLookup(t, e);
    }
  }

  lemma {:induction false} FiredDistinct(t: Table, timePoint: int)
    requires DistinctIds(t)
    ensures forall i, j | 0 <= i < j < |Fired(t, timePoint)| :: Fired(t, timePoint)[i].id != Fired(t, timePoint)[j].id
  {
    if t == [] {
    } else {
      Unfold(t);
      FiredDistinct(t[1..], timePoint);
      if t[0].timer.Due(timePoint) {
        var rest := Fired(t[1..], timePoint);
        forall j | 0 <= j < |rest| ensures rest[j].id in Ids(t[1..]) {
          FiredMembers(t[1..], timePoint, rest[j]);
        }
      }
    }
  }

  // How many entries `getExpiredTimers` would return if it stopped at the first
  // key that is not before `now`.
  function ExpiredPrefix(t: Table, now: int): (k: nat)
    ensures k <= |t|
  {
    if t == [] || now <= t[0].key then 0 else 1 + ExpiredPrefix(t[1..], now)
  }

  // The entries with a key before `now` are exactly a prefix of the order, and a
  // trigger pass at the same instant fires exactly the waiting timers in it.
  lemma {:induction false} ExpiredIsPrefix(t: Table, now: int)
    requires WellFormed(t)
    ensures forall i | 0 <= i < |t| :: t[i].key < now <==> i < ExpiredPrefix(t, now)
    ensures Fired(t, now) == WaitingTimers(t[..ExpiredPrefix(t, now)])
  {
    if t == [] {
    } else {
      Unfold(t);
      ExpiredIsPrefix(t[1..], now);
      var k := ExpiredPrefix(t, now);
      if k == 0 {
        forall i | 0 <= i < |t| ensures now <= t[i].key {
          if i > 0 {
            assert t[i] == t[1..][i - 1] && t[i] in t[1..];
          }
        }
        NoneFired(t, now);
      } else {
        forall i | 0 <= i < |t| ensures t[i].key < now <==> i < k {
          if i > 0 {
            assert t[i] == t[1..][i - 1];
          }
        }
        assert t[..k][1..] == t[1..][..k - 1];
        assert t[0] in t;
      }
    }
  }

  function WaitingTimers(t: Table): seq<TimerValue> {
    if t == [] then []
    else (if t[0].timer.status == Waiting then [t[0].timer] else []) + WaitingTimers(t[1..])
  }

  lemma {:induction false} NoneFired(t: Table, now: int)
    requires KeysAgree(t) && forall i | 0 <= i < |t| :: now <= t[i].key
    ensures Fired(t, now) == []
  {
    if t == [] {
    } else {
      assert t[0] in t;
      Unfold(t);
      NoneFired(t[1..], now);
    }
  }
}
