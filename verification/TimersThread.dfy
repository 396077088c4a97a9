// The part of the timers thread's loop that follows a wait.

module TimersThreads {
  import opened Timers
  import opened TimerTable
  import opened TimerPass
  import opened TimersCaches

  // `now` is read first; `readings` are the clock readings at which repeatable timers
  // are put back.
  method RunPasses(timers: TimersCache, now: int, readings: seq<int>) returns (fired: seq<TimerValue>)
    requires timers.Valid() && |readings| == |Keep(Trigger(timers.Contents, now), EndedRepeatable)|
    modifies timers, timers.Owned
    ensures timers.Valid() && timers.timersInvokedStatus == old(timers.timersInvokedStatus)
    ensures timers.Contents == Pass(old(timers.Contents), now, readings)
    ensures fired == Fired(old(timers.Contents), now)
  {
    fired := timers.TriggerExpiredTimers(now);
    timers.RestartRepeatableTimers(readings);
    timers.RemoveEndedTimers();
  }
}
