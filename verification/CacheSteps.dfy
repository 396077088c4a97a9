// The methods of the class `TimersCache` are steps of the scheduler machine: on a cache
// whose contents and flag are those of a state they give the contents and flag of the next.

module CacheSteps {
  import opened Messages
  import opened Timers
  import opened TimerTable
  import opened TimerIds
  import opened TimersCaches
  import P = ServerProtocol
  import S = Scheduler

  ghost predicate Agrees(timers: TimersCache, s: S.State)
    reads timers, timers.Owned
  {
    timers.Valid() && timers.Contents == s.table && timers.timersInvokedStatus == s.flag
  }

  // A new cache and a thread about to enter its loop.
  method Start(ghost clock: int) returns (timers: TimersCache, ghost s: S.State)
    ensures fresh(timers) && S.Init(s) && s.clock == clock && Agrees(timers, s) && timers.notified == s.notifies
  {
    timers := new TimersCache();
    s := S.State([], false, 0, clock, S.AtRead, map[], 0, []);
  }

  // Registration under the lock, then the notification.
  method Register(timers: TimersCache, timer: Timer, ghost s: S.State) returns (timerID: nat, ghost s': S.State)
    requires Agrees(timers, s) && timer !in timers.Owned && timer.actionStatus == Waiting
    requires |timers.timers| <= MAX_UINT32
    modifies timers, timer
    ensures S.Enabled(s, S.Register(old(timer.Value())))
    ensures S.Enabled(S.Next(s, S.Register(old(timer.Value()))), S.Notify)
    ensures s' == S.Next(S.Next(s, S.Register(old(timer.Value()))), S.Notify)
    ensures Agrees(timers, s') && timers.notified == old(timers.notified) + 1
  {
    s' := S.Next(S.Next(s, S.Register(timer.Value())), S.Notify);
    timerID := timers.RegisterTimer(timer);
  }

  // A removal owes a notification exactly if it found the timer.
  method Remove(timers: TimersCache, timerID: nat, ghost s: S.State) returns (ghost removed: S.State, ghost s': S.State)
    requires Agrees(timers, s)
    modifies timers
    ensures S.Enabled(s, S.Remove(timerID)) && removed == S.Next(s, S.Remove(timerID))
    ensures s' == if removed.notifies > s.notifies then S.Next(removed, S.Notify) else removed
    ensures Agrees(timers, s') && timers.notified == old(timers.notified) + removed.notifies - s.notifies
  {
    removed := S.Next(s, S.Remove(timerID));
    s' := if removed.notifies > s.notifies then S.Next(removed, S.Notify) else removed;
    timers.RemoveTimer(timerID);
    AbsentStays(s.table, timerID);
  }

  lemma {:induction false} AbsentStays(t: Table, id: nat)
    ensures Lookup(t, id).None? ==> RemoveId(t, id) == t
  {
    if t == [] {
    } else {
      AbsentStays(t[1..], id);
    }
  }

  // `now` is what the clock shows.
  method RestartTimer(timers: TimersCache, timerID: nat, now: int, ghost s: S.State)
    returns (restarted: bool, ghost s': S.State)
    requires Agrees(timers, s) && now == s.clock
    modifies timers`timers, timers`Contents, timers`Owned, timers.Owned
    ensures S.Enabled(s, S.RestartTimer(timerID)) && s' == S.Next(s, S.RestartTimer(timerID))
    ensures Agrees(timers, s') && timers.notified == old(timers.notified)
  {
    s' := S.Next(s, S.RestartTimer(timerID));
    restarted := timers.RestartTimer(timerID, now);
  }

  // ---------------------------------------------------------------- the timers thread

  method ReadNext(timers: TimersCache, ghost s: S.State) returns (next: Option<int>, ghost s': S.State)
    requires Agrees(timers, s) && S.Enabled(s, S.ReadNext)
    ensures s' == S.Next(s, S.ReadNext) && s'.pc == S.AtWait(next) && Agrees(timers, s')
    ensures next.None? <==> s.table == []
    ensures next.Some? ==> forall e | e in s.table :: next.value <= e.timer.Expiry()
  {
    s' := S.Next(s, S.ReadNext);
    next := timers.NextExpirationTimestamp();
  }

  // The end of a wait whose condition holds, at once or on waking up.
  method LeaveWait(timers: TimersCache, ghost s: S.State) returns (ghost s': S.State)
    requires Agrees(timers, s) && (s.pc.AtWait? || s.pc.Blocked?)
    requires s.flag || (s.pc.Blocked? && s.pc.deadline.Some? && s.pc.deadline.value <= s.clock)
    modifies timers`timersInvokedStatus
    ensures
      var step := if s.pc.AtWait? then S.CheckWait else S.Wake;
      S.Enabled(s, step) && s' == S.Next(s, step) && s'.pc == S.AtClock
    ensures Agrees(timers, s')
  {
    s' := S.Next(s, if s.pc.AtWait? then S.CheckWait else S.Wake);
    timers.LeaveWait();
  }

  // The trigger pass runs as many callbacks as the machine records.
  method TriggerPass(timers: TimersCache, timePoint: int, ghost s: S.State)
    returns (fired: seq<TimerValue>, ghost s': S.State)
    requires Agrees(timers, s) && s.pc == S.AtTrigger(timePoint)
    modifies timers.Owned, timers`Contents
    ensures S.Enabled(s, S.TriggerPass) && s' == S.Next(s, S.TriggerPass) && Agrees(timers, s')
    ensures |s'.log| == |s.log| + |fired|
    ensures forall i | 0 <= i < |fired| :: s'.log[|s.log| + i] == S.Record(s.owner, fired[i], timePoint)
  {
    s' := S.Next(s, S.TriggerPass);
    fired := timers.TriggerExpiredTimers(timePoint);
  }

  method RestartPass(timers: TimersCache, readings: seq<int>, ghost s: S.State) returns (ghost s': S.State)
    requires Agrees(timers, s) && S.Enabled(s, S.RestartPass(readings))
    modifies timers`timers, timers`Contents, timers`Owned, timers.Owned
    ensures s' == S.Next(s, S.RestartPass(readings)) && Agrees(timers, s')
  {
    s' := S.Next(s, S.RestartPass(readings));
    timers.RestartRepeatableTimers(readings);
  }

  method RemovePass(timers: TimersCache, ghost s: S.State) returns (ghost s': S.State)
    requires Agrees(timers, s) && S.Enabled(s, S.RemovePass)
    modifies timers`timers, timers`Contents, timers`Owned
    ensures s' == S.Next(s, S.RemovePass) && Agrees(timers, s')
  {
    s' := S.Next(s, S.RemovePass);
    timers.RemoveEndedTimers();
  }

  // ---------------------------------------------------------------- the server's view of the cache

  // The steps that the protocol of the server has for the cache are those of the scheduler.
  lemma ProtocolSteps(s: P.State, t: S.State, step: P.Step)
    requires s.timers == t.table && P.Enabled(s, step)
    ensures step.RestartPass? && S.Enabled(t, S.RestartPass(step.readings)) ==>
      P.Next(s, step).timers == S.Next(t, S.RestartPass(step.readings)).table
    ensures step.RemovePass? && S.Enabled(t, S.RemovePass) ==> P.Next(s, step).timers == S.Next(t, S.RemovePass).table
    ensures step.UserRegister? ==>
      S.Enabled(t, S.Register(step.timer)) && P.Next(s, step).timers == S.Next(t, S.Register(step.timer)).table
    ensures step.UserRemove? ==> P.Next(s, step).timers == S.Next(t, S.Remove(step.id)).table
    ensures step.UserRestart? && step.now == t.clock ==>
      P.Next(s, step).timers == S.Next(t, S.RestartTimer(step.id)).table
  {
    if step.UserRemove? {
      AbsentStays(s.timers, step.id);
    }
  }
}
