// One timer: the fields of `TimerInterface` and the status changes of
// `Timer<T>::runCallbackFunction`. Times are points and lengths on one clock.

module Timers {
  import opened Messages

  datatype ActionStatus = Waiting | Running | Ended

  // What the callback of a timer does when it is run: resend a parked message,
  // or something chosen by the user of the library.
  datatype Callback = Resend(parked: ParkedMessage) | UserCallback(tag: int)

  // The value of a timer object at one moment.
  datatype TimerValue = TimerValue(
    id: nat, start: int, duration: int, repeatable: bool, status: ActionStatus, callback: Callback)
  {
    function Expiry(): int { start + duration }

    // The condition under which a trigger pass runs the callback.
    predicate Due(timePoint: int) { status == Waiting && Expiry() < timePoint }
  }

  // The timer after a trigger pass at `timePoint` has looked at it.
  function Triggered(t: TimerValue, timePoint: int): TimerValue {
    if t.Due(timePoint) then t.(status := Ended) else t
  }

  predicate EndedRepeatable(t: TimerValue) { t.status == Ended && t.repeatable }
  predicate NotEndedRepeatable(t: TimerValue) { !EndedRepeatable(t) }
  predicate EndedOneShot(t: TimerValue) { t.status == Ended && !t.repeatable }
  predicate NotEndedOneShot(t: TimerValue) { !EndedOneShot(t) }

  class Timer {
    var repeatable: bool
    var actionStatus: ActionStatus
    var timerID: nat
    var startTimestamp: int
    var duration: int
    const callback: Callback

    function Value(): TimerValue
      reads this
    {
      TimerValue(timerID, startTimestamp, duration, repeatable, actionStatus, callback)
    }

    constructor (callback: Callback, now: int)
      ensures Value() == TimerValue(0, now, 0, false, Waiting, callback)
    {
      this.callback := callback;
      repeatable, actionStatus, timerID := false, Waiting, 0;
      startTimestamp, duration := now, 0;
    }

    method SetTimerID(timerID: nat)
      modifies this
      ensures Value() == old(Value()).(id := timerID)
    {
      this.timerID := timerID;
    }

    method SetStartTimestamp(startTimestamp: int)
      modifies this
      ensures Value() == old(Value()).(start := startTimestamp)
    {
      this.startTimestamp := startTimestamp;
    }

    method SetDuration(duration: int)
      modifies this
      ensures Value() == old(Value()).(duration := duration)
    {
      this.duration := duration;
    }

    // Moves the start to `now` and picks the duration that makes the timer
    // expire at the requested time.
    method SetExpirationTimestamp(expirationTime: int, now: int)
      modifies this
      ensures Value().Expiry() == expirationTime
      ensures Value() == old(Value()).(start := now, duration := expirationTime - now)
    {
      startTimestamp := now;
      duration := expirationTime - startTimestamp;
    }

    method GetExpirationTimestamp() returns (expiration: int)
      ensures expiration == Value().Expiry()
    {
      expiration := startTimestamp + duration;
    }

    method SetActionStatus(actionStatus: ActionStatus)
      modifies this
      ensures Value() == old(Value()).(status := actionStatus)
    {
      this.actionStatus := actionStatus;
    }

    method RestartTimer(now: int)
      modifies this
      ensures Value() == old(Value()).(start := now)
    {
      startTimestamp := now;
    }

    // The callback itself is handed back to the caller, who models its effect.
    method RunCallbackFunction() returns (ran: Callback)
      modifies this
      ensures ran == old(Value()).callback
      ensures Value() == old(Value()).(status := Ended)
    {
      actionStatus := Running;
      ran := callback;
      actionStatus := Ended;
    }
  }
}
