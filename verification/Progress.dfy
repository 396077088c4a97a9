// Bounded progress: an overdue waiting timer that nobody removes or restarts is fired
// after a bounded number of steps of the timers thread, whatever the others do.

module Progress {
  import opened Messages
  import opened Timers
  import opened TimerTable
  import opened TimerPass
  import opened TimerIds
  import opened Scheduler
  import opened Wakeup
  import F = Firings

  // What every state of a run without an undercutting restart satisfies, see `WakeRunIff`.
  ghost predicate Inv(s: State) { TableInv(s) && WakeInv(s) }

  ghost predicate Overdue(s: State, timer: TimerValue) {
    Lookup(s.table, timer.id) == Some(timer) && timer.status == Waiting && timer.Expiry() < s.clock
  }

  predicate Touches(step: Step, id: nat) { step == Remove(id) || step == RestartTimer(id) }

  // Steps of the timers thread still to come before the timer fires. Firing needs a pass
  // time strictly after the expiry; a pass time read too early costs one more turn.
  function Rank(pc: PC, expiry: int): nat {
    match pc
    case AtTrigger(timePoint) => if expiry < timePoint then 1 else 8
    case AtClock => 2
    case Blocked(_, _) => 3
    case AtWait(_) => 4
    case AtRead => 5
    case AtRemove => 6
    case AtRestart => 7
  }

  // Trigger passes still to come.
  function PassesLeft(pc: PC, expiry: int): nat {
    if pc.AtTrigger? && pc.timePoint <= expiry then 2 else 1
  }

  ghost predicate FiresNow(s: State, step: Step, timer: TimerValue) {
    step.TriggerPass? && s.pc.AtTrigger? && timer in Fired(s.table, s.pc.timePoint)
  }

  lemma InsertKeepsTimer(t: Table, added: TimerValue, timer: TimerValue)
    requires added.id !in Ids(t) && Lookup(t, timer.id) == Some(timer)
    ensures Lookup(InsertTimer(t, added), timer.id) == Some(timer)
  {
    LookupFound(t, timer.id);
    LookupInsert(t, Entry(added.Expiry(), added), timer.id);
  }

  lemma RegistrationKeepsTimer(s: State, added: TimerValue, timer: TimerValue)
    requires |s.table| <= MAX_UINT32 && Lookup(s.table, timer.id) == Some(timer)
    ensures Lookup(AddTimer(s, added).table, timer.id) == Some(timer)
  {
    FreshIdIsFree(s.table);
    InsertKeepsTimer(s.table, added.(id := FreshId(s.table)), timer);
  }

  lemma PassKeepsTimer(s: State, step: Step, timer: TimerValue)
    requires TableInv(s) && Overdue(s, timer) && Enabled(s, step)
    requires step.TriggerPass? || step.RestartPass? || step.RemovePass?
    requires !FiresNow(s, step, timer)
    ensures Lookup(Next(s, step).table, timer.id) == Some(timer)
  {
    match step
    case TriggerPass =>
      LookupTrigger(s.table, s.pc.timePoint, timer.id);
      FiredLookup(s.table, s.pc.timePoint, timer);
    case RestartPass(readings) => LookupRestartRepeatable(s.table, readings, timer.id);
    case RemovePass => LookupKeep(s.table, NotEndedOneShot, timer.id);
  }

  lemma OthersKeepTimer(s: State, step: Step, timer: TimerValue)
    requires TableInv(s) && Overdue(s, timer) && Enabled(s, step) && !Touches(step, timer.id)
    requires !FiresNow(s, step, timer)
    ensures TableInv(Next(s, step)) && Overdue(Next(s, step), timer)
  {
    TableStep(s, step);
    match step
    case Register(t) => RegistrationKeepsTimer(s, t, timer);
    case RegisterNoLock(t) => RegistrationKeepsTimer(s, t, timer);
    case Remove(other) => LookupRemove(s.table, other, timer.id);
    case RestartTimer(other) => LookupRestart(s.table, other, s.clock, timer.id);
    case TriggerPass => PassKeepsTimer(s, step, timer);
    case RestartPass(_) => PassKeepsTimer(s, step, timer);
    case RemovePass => PassKeepsTimer(s, step, timer);
    case _ =>
  }

  // A held deadline is not later than the expiry, or the flag is up: the thread that
  // checks or wakes up goes on.
  lemma OverdueWakes(s: State, timer: TimerValue)
    requires Inv(s) && Overdue(s, timer)
    ensures Holding(s.pc) ==> s.flag || TimedOut(s.pc.deadline, s.clock)
  {
    LookupFound(s.table, timer.id);
    var e :| e in s.table && e.timer == timer;
  }

  lemma ProgressStep(s: State, step: Step, timer: TimerValue)
    requires Inv(s) && Overdue(s, timer) && Enabled(s, step) && !Touches(step, timer.id)
    requires !FiresNow(s, step, timer)
    ensures
      var pc, pc', expiry := s.pc, Next(s, step).pc, timer.Expiry();
      && Overdue(Next(s, step), timer)
      && Rank(pc', expiry) + (if ThreadStep(step) then 1 else 0) <= Rank(pc, expiry)
      && PassesLeft(pc', expiry) + (if step.TriggerPass? then 1 else 0) <= PassesLeft(pc, expiry)
  {
    OthersKeepTimer(s, step, timer);
    OverdueWakes(s, timer);
    if step.TriggerPass? {
      FiredLookup(s.table, s.pc.timePoint, timer);
    }
  }

  // The timers thread always has a step to take, and asleep it has a reason to wake up:
  // its deadline has passed, or the flag is up and the notification was given or is due.
  lemma NeverStuck(s: State, timer: TimerValue)
    requires Inv(s) && Overdue(s, timer)
    ensures s.pc.Blocked? ==>
      TimedOut(s.pc.deadline, s.clock) || (s.flag && (s.pc.woken || s.notifies > 0))
    ensures exists step :: ThreadStep(step) && Enabled(s, step)
  {
    OverdueWakes(s, timer);
    var readings := seq(|Keep(s.table, EndedRepeatable)|, _ => s.clock);
    var step :=
      match s.pc
      case AtRead => ReadNext
      case AtWait(_) => CheckWait
      case Blocked(_, _) => Wake
      case AtClock => ReadClock
      case AtTrigger(_) => TriggerPass
      case AtRestart => RestartPass(readings)
      case AtRemove => RemovePass;
    assert ThreadStep(step) && Enabled(s, step);
  }

  // ---------------------------------------------------------------- whole runs

  ghost predicate FiresIn(s: State, steps: seq<Step>, timer: TimerValue)
    requires ValidRun(s, steps)
    decreases |steps|
  {
    steps != [] && (FiresNow(s, steps[0], timer) || FiresIn(Next(s, steps[0]), steps[1..], timer))
  }

  function ThreadSteps(steps: seq<Step>): nat {
    if steps == [] then 0 else (if ThreadStep(steps[0]) then 1 else 0) + ThreadSteps(steps[1..])
  }

  function TriggerPasses(steps: seq<Step>): nat {
    if steps == [] then 0 else (if steps[0].TriggerPass? then 1 else 0) + TriggerPasses(steps[1..])
  }

  lemma {:induction false} RankBoundsRun(s: State, steps: seq<Step>, timer: TimerValue)
    requires Inv(s) && Overdue(s, timer)
    requires ValidRun(s, steps) && NeverUndercuts(s, steps)
    requires forall step | step in steps :: !Touches(step, timer.id)
    ensures FiresIn(s, steps, timer) ||
      (ThreadSteps(steps) < Rank(s.pc, timer.Expiry()) && TriggerPasses(steps) < PassesLeft(s.pc, timer.Expiry()))
    decreases |steps|
  {
    if steps == [] {
    } else {
      var step := steps[0];
      assert step in steps && forall other | other in steps[1..] :: other in steps;
      if !FiresNow(s, step, timer) {
        ProgressStep(s, step, timer);
        WakeStep(s, step);
        TableStep(s, step);
        RankBoundsRun(Next(s, step), steps[1..], timer);
      }
    }
  }

  // The timer keeps the number of its registration.
  lemma OwnerStays(s: State, step: Step, timer: TimerValue)
    requires TableInv(s) && Overdue(s, timer) && Enabled(s, step) && !Touches(step, timer.id)
    requires !FiresNow(s, step, timer)
    ensures timer.id in s.owner && timer.id in Next(s, step).owner
    ensures Next(s, step).owner[timer.id] == s.owner[timer.id]
  {
    OthersKeepTimer(s, step, timer);
    F.OwnedIds(s, timer.id);
    F.OwnedIds(Next(s, step), timer.id);
    if |s.table| <= MAX_UINT32 {
      FreshIdIsFree(s.table);
      LookupFound(s.table, timer.id);
    }
  }

  // A record in the log, from position `from` on, of a run of this timer's callback.
  predicate Logged(log: seq<Firing>, from: nat, timer: TimerValue, registration: nat) {
    exists i :: from <= i < |log| && F.IsRecord(log[i], timer, registration, log[i].at)
      && timer.start + timer.duration < log[i].at
  }

  // Firing shows: the log has the run of the callback, under the timer's registration.
  lemma {:induction false} FiringIsLogged(s: State, steps: seq<Step>, timer: TimerValue)
    requires TableInv(s) && Overdue(s, timer) && ValidRun(s, steps) && FiresIn(s, steps, timer)
    requires forall step | step in steps :: !Touches(step, timer.id)
    ensures timer.id in s.owner
    ensures Logged(Exec(s, steps).log, |s.log|, timer, s.owner[timer.id])
    decreases |steps|
  {
    var s' := Next(s, steps[0]);
    F.OwnedIds(s, timer.id);
    assert steps[0] in steps && forall other | other in steps[1..] :: other in steps;
    if FiresNow(s, steps[0], timer) {
      FiredLookup(s.table, s.pc.timePoint, timer);
      var i := F.OverdueRecorded(s, timer.id);
      F.LogGrows(s', steps[1..]);
      assert Exec(s, steps).log[i] == s'.log[i];
    } else {
      OthersKeepTimer(s, steps[0], timer);
      OwnerStays(s, steps[0], timer);
      if !steps[0].TriggerPass? {
        F.OnlyPassesRecord(s, steps[0]);
      }
      FiringIsLogged(s', steps[1..], timer);
    }
  }

  // From any program point, in every run without an undercutting restart (so whenever timers
  // are registered with a start in the past, see `PastStartsNeverUndercut`), an overdue timer
  // fires within eight steps of the timers thread and within two trigger passes, and the log
  // shows it.
  lemma BoundedProgress(s: State, before: seq<Step>, steps: seq<Step>, timer: TimerValue)
    requires Init(s) && ValidRun(s, before) && NeverUndercuts(s, before)
    requires Overdue(Exec(s, before), timer)
    requires ValidRun(Exec(s, before), steps) && NeverUndercuts(Exec(s, before), steps)
    requires forall step | step in steps :: !Touches(step, timer.id)
    requires ThreadSteps(steps) >= 8 || TriggerPasses(steps) >= 2
    ensures FiresIn(Exec(s, before), steps, timer)
    ensures
      var mid, end := Exec(s, before), Exec(Exec(s, before), steps);
      timer.id in mid.owner && Logged(end.log, |mid.log|, timer, mid.owner[timer.id])
  {
    WakeRunIff(s, before);
    RankBoundsRun(Exec(s, before), steps, timer);
    FiringIsLogged(Exec(s, before), steps, timer);
  }
}
