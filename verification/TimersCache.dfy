// `TimersCache`: the multimap of owned timers and the flag that tells the timers
// thread about a change. Every method is proved against a function on `Table`.

module TimersCaches {
  import opened Messages
  import opened Timers
  import opened TimerTable
  import opened TimerPass
  import opened TimerIds

  // One element of the multimap.
  datatype Slot = Slot(key: int, timer: Timer)

  class TimersCache {
    var timers: seq<Slot>
    var timersInvokedStatus: bool
    ghost var notified: nat         // calls of timersInvoked.notify_one
    ghost var Contents: Table       // the multimap as a value
    ghost var Owned: set<Timer>     // the timer objects it owns

    // Each timer is owned once and the entries say what the objects hold.
    ghost predicate Linked()
      reads this, Owned
    {
      && |timers| == |Contents|
      && (forall i | 0 <= i < |timers| ::
            timers[i].timer in Owned && Contents[i] == Entry(timers[i].key, timers[i].timer.Value()))
      && (forall i, j | 0 <= i < j < |timers| :: timers[i].timer != timers[j].timer)
    }

    // The table is sorted by expiry and its IDs differ.
    ghost predicate Valid()
      reads this, Owned
    {
      Linked() && WellFormed(Contents)
    }

    ghost predicate Holds(timer: Timer)
      reads this
    {
      exists s :: s in timers && s.timer == timer
    }

    constructor ()
      ensures Valid() && Contents == [] && !timersInvokedStatus && Owned == {} && notified == 0
    {
      timers, Contents, Owned := [], [], {};
      timersInvokedStatus, notified := false, 0;
    }

    // Where a multimap puts a new key: behind all keys that are not larger.
    method UpperBound(key: int) returns (i: nat)
      requires Linked() && Sorted(Contents)
      ensures i <= |timers|
      ensures forall e: Entry :: e.key == key ==> Insert(Contents, e) == Contents[..i] + [e] + Contents[i..]
    {
      i := 0;
      while i < |timers| && timers[i].key <= key
        invariant 0 <= i <= |timers|
        invariant forall k | 0 <= k < i :: Contents[k].key <= key
      {
        i := i + 1;
      }
      forall e: Entry | e.key == key ensures Insert(Contents, e) == Contents[..i] + [e] + Contents[i..] {
        InsertAt(Contents, i, e);
      }
    }

    // `std::find_if` by ID: the first slot with the ID, or the end.
    method FindTimer(timerID: nat) returns (i: nat)
      requires Linked()
      ensures i <= |timers|
      ensures i < |timers| <==> Lookup(Contents, timerID).Some?
      ensures i < |timers| ==> Lookup(Contents, timerID) == Some(timers[i].timer.Value())
      ensures RemoveId(Contents, timerID) ==
        if i < |timers| then Contents[..i] + Contents[i + 1..] else Contents
    {
      i := 0;
      while i < |timers| && timers[i].timer.timerID != timerID
        invariant 0 <= i <= |timers|
        invariant forall k | 0 <= k < i :: Contents[k].timer.id != timerID
      {
        i := i + 1;
      }
      FoundAt(Contents, i, timerID);
    }

    // Tries IDs upwards until no timer has one, as the nested loops of the source do.
    method GenerateTimerID() returns (timerID: nat)
      requires Valid() && |timers| <= MAX_UINT32
      ensures timerID == FreshId(Contents)
    {
      timerID := SMALLEST_TIMER_ID;
      ghost var tried: nat := 0;
      var searching := true;
      while searching
        invariant Tried(Contents, tried, timerID)
        invariant !searching ==> timerID !in Ids(Contents)
        decreases searching, MAX_UINT32 - tried
      {
        var i := FindTimer(timerID);
        LookupFound(Contents, timerID);
        if i == |timers| {
          searching := false;
        } else {
          TriedNext(Contents, tried, timerID);
          timerID := Increment(timerID);
          tried := tried + 1;
        }
      }
      TriedFound(Contents, tried, timerID);
    }

    // `timers.insert(...)` of a timer that the caller owns.
    method InsertOwned(timer: Timer)
      requires Linked() && Sorted(Contents) && timer !in Owned
      modifies this`timers, this`Contents, this`Owned
      ensures Linked() && Owned == old(Owned) + {timer}
      ensures forall s | s in old(timers) :: s in timers
      ensures Contents == InsertTimer(old(Contents), timer.Value())
    {
      var key := timer.GetExpirationTimestamp();
      var i := UpperBound(key);
      StillIn(timers, i, Slot(key, timer));
      PlaceAt(i, key, timer);
    }

    method PlaceAt(i: nat, key: int, timer: Timer)
      requires Linked() && i <= |timers| && timer !in Owned
      modifies this`timers, this`Contents, this`Owned
      ensures Linked() && Owned == old(Owned) + {timer}
      ensures timers == old(timers)[..i] + [Slot(key, timer)] + old(timers)[i..]
      ensures Contents == old(Contents)[..i] + [Entry(key, timer.Value())] + old(Contents)[i..]
    {
      timers := timers[..i] + [Slot(key, timer)] + timers[i..];
      Contents := Contents[..i] + [Entry(key, timer.Value())] + Contents[i..];
      Owned := Owned + {timer};
    }

    method InternalRegisterTimer(newTimer: Timer?) returns (newTimerID: nat)
      requires Valid() && |timers| <= MAX_UINT32
      requires newTimer != null ==> newTimer !in Owned
      modifies this, newTimer
      ensures Valid() && notified == old(notified)
      ensures newTimer == null ==> newTimerID == 0 && unchanged(this)
      ensures newTimer != null ==>
        && newTimerID == FreshId(old(Contents)) && newTimerID !in Ids(old(Contents))
        && newTimer.Value() == old(newTimer.Value()).(id := newTimerID)
        && Contents == InsertTimer(old(Contents), newTimer.Value())
        && Owned == old(Owned) + {newTimer}
        && timersInvokedStatus
      ensures forall s | s in old(timers) :: s in timers
    {
      newTimerID := GenerateTimerID();
      if newTimer != null {
        FreshIdIsFree(Contents);
        newTimer.SetTimerID(newTimerID);
        InsertKeeps(Contents, newTimer.Value());
        InsertOwned(newTimer);
        timersInvokedStatus := true;
      } else {
        newTimerID := 0;
      }
    }

    // The flag is raised under the lock, the notification follows, even for no timer.
    method RegisterTimer(newTimer: Timer?) returns (timerID: nat)
      requires Valid() && |timers| <= MAX_UINT32
      requires newTimer != null ==> newTimer !in Owned
      modifies this, newTimer
      ensures Valid() && notified == old(notified) + 1
      ensures newTimer == null ==> timerID == 0 && Contents == old(Contents)
      ensures newTimer == null ==> timersInvokedStatus == old(timersInvokedStatus)
      ensures newTimer != null ==>
        && timerID == FreshId(old(Contents)) && timerID !in Ids(old(Contents))
        && newTimer.Value() == old(newTimer.Value()).(id := timerID)
        && Contents == InsertTimer(old(Contents), newTimer.Value())
        && Owned == old(Owned) + {newTimer}
        && timersInvokedStatus
      ensures forall s | s in old(timers) :: s in timers
    {
      timerID := InternalRegisterTimer(newTimer);
      notified := notified + 1;
    }

    // Registration under the lock, for use inside callbacks: no flag is raised.
    method RegisterTimerNoLock(newTimer: Timer?) returns (newTimerID: nat)
      requires Valid() && |timers| <= MAX_UINT32
      requires newTimer != null ==> newTimer !in Owned
      modifies this, newTimer
      ensures Valid() && timersInvokedStatus == old(timersInvokedStatus) && notified == old(notified)
      ensures newTimer == null ==> newTimerID == 0 && unchanged(this)
      ensures newTimer != null ==>
        && newTimerID == FreshId(old(Contents)) && newTimerID !in Ids(old(Contents))
        && newTimer.Value() == old(newTimer.Value()).(id := newTimerID)
        && Contents == InsertTimer(old(Contents), newTimer.Value())
        && Owned == old(Owned) + {newTimer}
    {
      newTimerID := GenerateTimerID();
      if newTimer != null {
        FreshIdIsFree(Contents);
        newTimer.SetTimerID(newTimerID);
        InsertKeeps(Contents, newTimer.Value());
        InsertOwned(newTimer);
      } else {
        newTimerID := 0;
      }
    }

    method EraseAt(i: nat)
      requires Linked() && i < |timers|
      modifies this`timers, this`Contents, this`Owned
      ensures Linked() && Contents == old(Contents)[..i] + old(Contents)[i + 1..]
      ensures |timers| == old(|timers|) - 1
      ensures Owned == old(Owned) - {old(timers)[i].timer}
    {
      Owned := Owned - {timers[i].timer};
      timers := timers[..i] + timers[i + 1..];
      Contents := Contents[..i] + Contents[i + 1..];
    }

    method EraseFound(i: nat, ghost timerID: nat)
      requires Valid() && i < |timers| && RemoveId(Contents, timerID) == Contents[..i] + Contents[i + 1..]
      modifies this`timers, this`Contents, this`Owned
      ensures Valid() && Owned <= old(Owned) && Contents == RemoveId(old(Contents), timerID)
    {
      RemoveKeeps(Contents, timerID);
      EraseAt(i);
    }

    // `timersInvokedStatus` is raised only if a timer was removed.
    method InternalRemoveTimer(timerID: nat) returns (removed: bool)
      requires Valid()
      modifies this
      ensures Valid() && Owned <= old(Owned) && notified == old(notified)
      ensures removed <==> Lookup(old(Contents), timerID).Some?
      ensures Contents == RemoveId(old(Contents), timerID)
      ensures timersInvokedStatus == (old(timersInvokedStatus) || removed)
    {
      var i := FindTimer(timerID);
      removed := i < |timers|;
      if removed {
        EraseFound(i, timerID);
        timersInvokedStatus := true;
      }
    }

    method RemoveTimer(timerID: nat)
      requires Valid()
      modifies this
      ensures Valid() && Owned <= old(Owned)
      ensures Contents == RemoveId(old(Contents), timerID)
      ensures
        var removed := Lookup(old(Contents), timerID).Some?;
        && timersInvokedStatus == (old(timersInvokedStatus) || removed)
        && notified == old(notified) + if removed then 1 else 0
    {
      var removed := InternalRemoveTimer(timerID);
      if removed {
        notified := notified + 1;
      }
    }

    // Moves the timer to its new place; the flag is left alone.
    method RestartTimer(timerID: nat, now: int) returns (timerRestarted: bool)
      requires Valid()
      modifies this`timers, this`Contents, this`Owned, Owned
      ensures Valid() && Owned == old(Owned)
      ensures timerRestarted <==> Lookup(old(Contents), timerID).Some?
      ensures Contents == Restart(old(Contents), timerID, now)
    {
      var i := FindTimer(timerID);
      timerRestarted := i < |timers|;
      if timerRestarted {
        RemoveKeeps(Contents, timerID);
        RestartKeeps(Contents, timerID, now);
        MoveTimer(i, now);
      }
    }

    method MoveTimer(i: nat, now: int)
      requires Linked() && i < |timers| && Sorted(Contents[..i] + Contents[i + 1..])
      modifies this`timers, this`Contents, this`Owned, timers[i].timer
      ensures Linked() && Owned == old(Owned)
      ensures Contents ==
        InsertTimer(old(Contents)[..i] + old(Contents)[i + 1..], old(Contents)[i].timer.(start := now))
    {
      var timer := timers[i].timer;
      EraseAt(i);
      timer.RestartTimer(now);
      InsertOwned(timer);
    }

    // Runs, in table order, the callbacks of the timers that are waiting and expired;
    // the values of the timers that ran are handed back.
    method TriggerExpiredTimers(timePoint: int) returns (fired: seq<TimerValue>)
      requires Valid()
      modifies Owned, this`Contents
      ensures Valid()
      ensures Contents == Trigger(old(Contents), timePoint)
      ensures fired == Fired(old(Contents), timePoint)
    {
      ghost var before := Contents;
      fired := [];
      var i := 0;
      while i < |timers|
        invariant 0 <= i <= |timers| && Linked()
        invariant forall k | i <= k < |timers| :: Contents[k] == before[k]
        invariant forall k | 0 <= k < i ::
          Contents[k] == Entry(before[k].key, Triggered(before[k].timer, timePoint))
        invariant fired == Fired(before[..i], timePoint)
      {
        FiredSnoc(before, i, timePoint);
        var ran := TriggerOne(i, timePoint);
        fired := fired + ran;
        i := i + 1;
      }
      assert before[..i] == before && Contents == Trigger(before, timePoint);
      TriggerKeeps(before, timePoint);
    }

    // The body of the loop: one slot of the map.
    method TriggerOne(i: nat, timePoint: int) returns (ran: seq<TimerValue>)
      requires Linked() && i < |timers|
      modifies timers[i].timer, this`Contents
      ensures Linked()
      ensures Contents == old(Contents)[i :=
        Entry(old(Contents)[i].key, Triggered(old(Contents)[i].timer, timePoint))]
      ensures ran == if old(Contents)[i].timer.Due(timePoint) then [old(Contents)[i].timer] else []
    {
      var timer := timers[i].timer;
      ran := [];
      if timer.actionStatus == Waiting {
        var expiration := timer.GetExpirationTimestamp();
        if expiration < timePoint {
          ran := [timer.Value()];
          var _ := timer.RunCallbackFunction();
        }
      }
      Contents := Contents[i := Entry(timers[i].key, timer.Value())];
    }

    // First takes the ended repeatable timers out, then puts each back as waiting,
    // started at its own clock reading.
    method RestartRepeatableTimers(readings: seq<int>)
      requires Valid() && |readings| == |Keep(Contents, EndedRepeatable)|
      modifies this`timers, this`Contents, this`Owned, Owned
      ensures Valid() && Owned <= old(Owned)
      ensures Contents == RestartRepeatable(old(Contents), readings)
    {
      ghost var before := Contents;
      var toRestart, again := TakeEndedRepeatables();
      KeepKeeps(before, NotEndedRepeatable);
      KeepKeeps(before, EndedRepeatable);
      SplitIds(before, NotEndedRepeatable, EndedRepeatable);
      ReinsertTimers(toRestart, again, readings);
    }

    // The first loop: moves the ended repeatable timers from the map to a list.
    method TakeEndedRepeatables() returns (toRestart: seq<Timer>, ghost again: Table)
      requires Linked()
      modifies this`timers, this`Contents, this`Owned
      ensures Linked() && Contents == Keep(old(Contents), NotEndedRepeatable)
      ensures again == Keep(old(Contents), EndedRepeatable) && Extracted(toRestart, again)
      ensures forall timer | timer in toRestart :: timer in old(Owned) && timer !in Owned
      ensures Owned <= old(Owned)
    {
      ghost var rest, kept: Table := Contents, [];
      toRestart, again := [], [];
      var i := 0;
      while i < |timers|
        invariant 0 <= i == |kept| <= |timers| && Linked()
        invariant Contents == kept + rest
        invariant Keep(old(Contents), NotEndedRepeatable) == kept + Keep(rest, NotEndedRepeatable)
        invariant Keep(old(Contents), EndedRepeatable) == again + Keep(rest, EndedRepeatable)
        invariant Extracted(toRestart, again)
        invariant forall k | 0 <= k < |toRestart| :: toRestart[k] in old(Owned) && toRestart[k] !in Owned
        invariant Owned <= old(Owned)
        decreases |timers| - i
      {
        SplitAt(kept, rest);
        KeepStep(kept, rest, NotEndedRepeatable);
        KeepStep(again, rest, EndedRepeatable);
        var timer := timers[i].timer;
        if timer.actionStatus == Ended && timer.repeatable {
          EraseAt(i);
          ExtractedSnoc(toRestart, again, timer, rest[0]);
          again := again + [rest[0]];
          toRestart := toRestart + [timer];
        } else {
          kept := kept + [rest[0]];
          i := i + 1;
        }
        rest := rest[1..];
      }
    }

    // The second loop: `Reinsert` on the objects.
    method ReinsertTimers(toRestart: seq<Timer>, ghost again: Table, readings: seq<int>)
      requires Valid() && |again| == |readings|
      requires Extracted(toRestart, again) && forall timer | timer in toRestart :: timer !in Owned
      requires DistinctIds(again) && Ids(Contents) !! Ids(again)
      modifies this`timers, this`Contents, this`Owned, set timer | timer in toRestart
      ensures Valid() && Owned <= old(Owned) + (set timer | timer in toRestart)
      ensures Contents == Reinsert(old(Contents), again, readings)
      decreases |toRestart|
    {
      ReinsertKeeps(Contents, again, readings);
      var i := 0;
      while i < |toRestart|
        invariant 0 <= i <= |toRestart| && Linked() && Sorted(Contents)
        invariant Outside(toRestart, again, i)
        invariant Owned <= old(Owned) + (set timer | timer in toRestart)
        invariant Reinsert(old(Contents), again, readings) == Reinsert(Contents, again[i..], readings[i..])
      {
        ReinsertStep(Contents, again, readings, i);
        PutBackAt(toRestart, again, i, readings[i]);
        i := i + 1;
      }
    }

    // The timers from position `i` on are still outside of the map.
    ghost predicate Outside(toRestart: seq<Timer>, again: Table, i: nat)
      reads this, set timer | timer in toRestart
    {
      |toRestart| == |again| && forall k | i <= k < |toRestart| ::
        toRestart[k] !in Owned && toRestart[k].Value() == again[k].timer
    }

    method PutBackAt(toRestart: seq<Timer>, ghost again: Table, i: nat, now: int)
      requires Linked() && Sorted(Contents) && i < |toRestart| && Outside(toRestart, again, i)
      requires forall k | i < k < |toRestart| :: toRestart[k] != toRestart[i]
      modifies this`timers, this`Contents, this`Owned, toRestart[i]
      ensures Linked() && Sorted(Contents) && Owned == old(Owned) + {toRestart[i]}
      ensures Outside(toRestart, again, i + 1)
      ensures Contents == InsertTimer(old(Contents), Renewed(again[i].timer, now))
    {
      PutBack(toRestart[i], now);
    }

    method PutBack(timer: Timer, now: int)
      requires Linked() && Sorted(Contents) && timer !in Owned
      modifies this`timers, this`Contents, this`Owned, timer
      ensures Linked() && Sorted(Contents) && Owned == old(Owned) + {timer}
      ensures Contents == InsertTimer(old(Contents), Renewed(old(timer.Value()), now))
    {
      timer.SetActionStatus(Waiting);
      timer.SetStartTimestamp(now);
      InsertSorted(Contents, Entry(timer.Value().Expiry(), timer.Value()));
      InsertOwned(timer);
    }

    method RemoveEndedTimers()
      requires Valid()
      modifies this`timers, this`Contents, this`Owned
      ensures Valid() && Owned <= old(Owned)
      ensures Contents == RemoveEnded(old(Contents))
    {
      ghost var rest, kept: Table := Contents, [];
      var i := 0;
      while i < |timers|
        invariant 0 <= i == |kept| <= |timers| && Linked()
        invariant Contents == kept + rest
        invariant RemoveEnded(old(Contents)) == kept + RemoveEnded(rest)
        invariant Owned <= old(Owned)
        decreases |timers| - i
      {
        SplitAt(kept, rest);
        KeepStep(kept, rest, NotEndedOneShot);
        if !timers[i].timer.repeatable && timers[i].timer.actionStatus == Ended {
          EraseAt(i);
        } else {
          kept := kept + [rest[0]];
          i := i + 1;
        }
        rest := rest[1..];
      }
      KeepKeeps(old(Contents), NotEndedOneShot);
    }

    method NextExpirationTimestamp() returns (next: Option<int>)
      requires Valid()
      ensures next == NextExpiration(Contents)
      ensures next.None? <==> Contents == []
      ensures next.Some? ==> forall e | e in Contents :: next.value <= e.timer.Expiry()
    {
      NextExpirationIsMinimum(Contents);
      next := if timers == [] then None else Some(timers[0].key);
    }

    // The positions of all entries whose key lies before `now`: exactly a prefix.
    method GetExpiredTimers(now: int) returns (expired: seq<nat>)
      requires Valid()
      ensures expired == seq(ExpiredPrefix(Contents, now), k => k)
    {
      ExpiredIsPrefix(Contents, now);
      ghost var n := ExpiredPrefix(Contents, now);
      expired := [];
      var i := 0;
      while i < |timers|
        invariant 0 <= i <= |timers|
        invariant expired == seq(if i < n then i else n, k => k)
      {
        assert timers[i].key == Contents[i].key;
        if timers[i].key < now {
          expired := expired + [i];
        }
        i := i + 1;
      }
    }

    // A timer of the cache changes its status while its callback is run.
    method SetStatusOf(timer: Timer, status: ActionStatus)
      requires Valid() && Holds(timer)
      modifies timer, this`Contents
      ensures Valid() && timers == old(timers)
      ensures timer.Value() == old(timer.Value()).(status := status)
      ensures Contents == SetStatus(old(Contents), timer.timerID, status)
    {
      ghost var s :| s in timers && s.timer == timer;
      ghost var i :| 0 <= i < |timers| && timers[i] == s;
      SetStatusKeeps(Contents, timer.timerID, status);
      SetStatusAt(Contents, i, status);
      ChangeStatusAt(timer, status, i);
    }

    method ChangeStatusAt(timer: Timer, status: ActionStatus, ghost i: nat)
      requires Linked() && i < |timers| && timers[i].timer == timer
      modifies timer, this`Contents
      ensures Linked() && timer.Value() == old(timer.Value()).(status := status)
      ensures Contents == old(Contents)[i :=
        Entry(old(Contents)[i].key, old(Contents)[i].timer.(status := status))]
    {
      timer.SetActionStatus(status);
      Contents := Contents[i := Entry(timers[i].key, timer.Value())];
    }

    // What a wait does when it returns, because the flag is up or its time is over.
    method LeaveWait()
      requires Valid()
      modifies this`timersInvokedStatus
      ensures Valid() && !timersInvokedStatus
    {
      timersInvokedStatus := false;
    }

    method Size() returns (n: nat)
      requires Valid()
      ensures n == |Contents|
    {
      n := |timers|;
    }
  }

  // ---------------------------------------------------------------- loops against functions

  // `s` holds distinct timer objects with the values of the entries of `t`.
  ghost predicate Extracted(s: seq<Timer>, t: Table)
    reads set timer | timer in s
  {
    && |s| == |t|
    && (forall i | 0 <= i < |s| :: s[i].Value() == t[i].timer)
    && (forall i, j | 0 <= i < j < |s| :: s[i] != s[j])
  }

  lemma ExtractedSnoc(s: seq<Timer>, t: Table, timer: Timer, e: Entry)
    requires Extracted(s, t) && timer !in s && timer.Value() == e.timer
    ensures Extracted(s + [timer], t + [e])
  {
  }

  // The ID search has passed over `tried` taken IDs and looks at `timerID`.
  ghost predicate Tried(t: Table, tried: nat, timerID: nat) {
    && tried <= MAX_UINT32
    && timerID == (if tried == MAX_UINT32 then 0 else SMALLEST_TIMER_ID + tried)
    && Search(Ids(t), 1) == Search(Ids(t), 1 + tried)
    && forall j: nat | 1 <= j < 1 + tried :: j in Ids(t)
  }

  lemma TriedNext(t: Table, tried: nat, timerID: nat)
    requires |t| <= MAX_UINT32
    requires Tried(t, tried, timerID) && timerID in Ids(t)
    ensures tried < MAX_UINT32 && Tried(t, tried + 1, Increment(timerID))
  {
    if tried == MAX_UINT32 {
      FreshIdIsLeast(t);
      FreshIdIsFree(t);
    }
  }

  lemma TriedFound(t: Table, tried: nat, timerID: nat)
    requires Tried(t, tried, timerID) && timerID !in Ids(t)
    ensures FreshId(t) == timerID
  {
  }

  lemma {:induction false} InsertAt(t: Table, i: nat, e: Entry)
    requires i <= |t| && Sorted(t)
    requires forall k | 0 <= k < i :: t[k].key <= e.key
    requires i < |t| ==> e.key < t[i].key
    ensures Insert(t, e) == t[..i] + [e] + t[i..]
  {
    if i == 0 {
    } else {
      forall k | 0 <= k < i - 1 ensures t[1..][k].key <= e.key {
        assert t[1..][k] == t[k + 1];
      }
      assert i < |t| ==> t[1..][i - 1] == t[i];
      InsertAt(t[1..], i - 1, e);
      ConsInsert(t, i, e);
    }
  }

  lemma ConsInsert(t: Table, i: nat, e: Entry)
    requires 0 < i <= |t|
    ensures t[..i] + [e] + t[i..] == [t[0]] + (t[1..][..i - 1] + [e] + t[1..][i - 1..])
  {
  }

  lemma {:induction false} FoundAt(t: Table, i: nat, id: nat)
    requires i <= |t| && forall k | 0 <= k < i :: t[k].timer.id != id
    requires i < |t| ==> t[i].timer.id == id
    ensures Lookup(t, id) == if i < |t| then Some(t[i].timer) else None
    ensures RemoveId(t, id) == if i < |t| then t[..i] + t[i + 1..] else t
    decreases i
  {
    if i > 0 {
      var rest := t[1..];
      forall k | 0 <= k < i - 1 ensures rest[k].timer.id != id {
        assert rest[k] == t[k + 1];
      }
      FoundAt(rest, i - 1, id);
      if i < |t| {
        ConsErase(t, i);
      } else {
        assert t == [t[0]] + rest;
      }
    } else if t != [] {
      assert t[..0] + t[1..] == t[1..];
    }
  }

  lemma StillIn<T>(s: seq<T>, i: nat, x: T)
    requires i <= |s|
    ensures forall y | y in s :: y in s[..i] + [x] + s[i..]
  {
    assert s == s[..i] + s[i..];
  }

  lemma ConsErase(t: Table, i: nat)
    requires 0 < i < |t|
    ensures t[..i] + t[i + 1..] == [t[0]] + (t[1..][..i - 1] + t[1..][i..])
  {
  }

  lemma SplitAt(kept: Table, rest: Table)
    requires rest != []
    ensures (kept + rest)[|kept|] == rest[0]
    ensures (kept + rest)[..|kept|] + (kept + rest)[|kept| + 1..] == kept + rest[1..]
    ensures kept + rest == (kept + [rest[0]]) + rest[1..]
  {
  }

  lemma KeepStep(kept: Table, rest: Table, p: TimerValue -> bool)
    requires rest != []
    ensures kept + Keep(rest, p) == (if p(rest[0].timer) then kept + [rest[0]] else kept) + Keep(rest[1..], p)
  {
  }

  lemma {:induction false} FiredSnoc(t: Table, i: nat, timePoint: int)
    requires i < |t|
    ensures Fired(t[..i + 1], timePoint) ==
      Fired(t[..i], timePoint) + if t[i].timer.Due(timePoint) then [t[i].timer] else []
  {
    if i == 0 {
      assert t[..1] == [t[0]] && t[..0] == [];
    } else {
      FiredSnoc(t[1..], i - 1, timePoint);
      assert t[..i + 1][1..] == t[1..][..i] && t[..i][1..] == t[1..][..i - 1];
    }
  }

  lemma ReinsertStep(t: Table, again: Table, readings: seq<int>, i: nat)
    requires i < |again| == |readings|
    ensures Reinsert(t, again[i..], readings[i..])
      == Reinsert(InsertTimer(t, Renewed(again[i].timer, readings[i])), again[i + 1..], readings[i + 1..])
  {
  }

  lemma {:induction false} InsertSorted(t: Table, e: Entry)
    requires Sorted(t)
    ensures Sorted(Insert(t, e))
  {
    if t != [] && t[0].key <= e.key {
      InsertMembers(t[1..], e);
      InsertSorted(t[1..], e);
      assert Insert(t, e)[1..] == Insert(t[1..], e);
    } else {
      assert ([e] + t)[1..] == t;
      if t != [] {
        Unfold(t);
      }
    }
  }
}
