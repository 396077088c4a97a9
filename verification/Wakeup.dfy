// No lost wakeup: the timers thread never sleeps past the next expiry without the
// flag being up and a notification on its way.

module Wakeup {
  import opened Messages
  import opened Timers
  import opened TimerTable
  import opened TimerIds
  import opened Scheduler

  // Every live timer expires at or after the deadline; no deadline means no timer.
  ghost predicate Covered(t: Table, deadline: Option<int>) {
    forall e | e in t :: deadline.Some? && deadline.value <= e.timer.Expiry()
  }

  predicate Holding(pc: PC) { pc.AtWait? || pc.Blocked? }

  ghost predicate WakeInv(s: State) {
    && (Holding(s.pc) && !s.flag ==> Covered(s.table, s.pc.deadline))
    && (s.pc.Blocked? && s.flag ==> s.pc.woken || s.notifies > 0)
  }

  // A restart of a live timer while the thread holds a deadline and nothing tells it
  // to look again: the one step that can undercut the deadline.
  ghost predicate Undercuts(s: State, step: Step) {
    && step.RestartTimer? && Holding(s.pc) && !s.flag
    && Lookup(s.table, step.id).Some?
    && (s.pc.deadline.Some? ==> s.clock + Lookup(s.table, step.id).value.duration < s.pc.deadline.value)
  }

  lemma CoveredInserted(t: Table, timer: TimerValue, deadline: Option<int>)
    ensures Covered(InsertTimer(t, timer), deadline) <==>
      Covered(t, deadline) && deadline.Some? && deadline.value <= timer.Expiry()
  {
    var e := Entry(timer.Expiry(), timer);
    InsertMembers(t, e);
    assert e in InsertTimer(t, timer);
  }

  lemma CoveredByNext(t: Table)
    requires WellFormed(t)
    ensures Covered(t, NextExpiration(t))
  {
  }

  lemma RestartCoverage(s: State, id: nat)
    requires TableInv(s) && Holding(s.pc) && Covered(s.table, s.pc.deadline)
    ensures Covered(Restart(s.table, id, s.clock), s.pc.deadline) <==>
      (Lookup(s.table, id).Some? && s.pc.deadline.Some? ==>
        s.pc.deadline.value <= s.clock + Lookup(s.table, id).value.duration)
  {
    LookupFound(s.table, id);
    if Lookup(s.table, id).Some? {
      var timer := Lookup(s.table, id).value.(start := s.clock);
      RemoveMembers(s.table, id);
      CoveredInserted(RemoveId(s.table, id), timer, s.pc.deadline);
    }
  }

  // The invariant survives a step exactly when the step does not undercut.
  lemma WakeStep(s: State, step: Step)
    requires TableInv(s) && WakeInv(s) && Enabled(s, step)
    ensures WakeInv(Next(s, step)) <==> !Undercuts(s, step)
  {
    match step
    case Remove(id) => RemoveMembers(s.table, id);
    case RestartTimer(id) =>
      LookupFound(s.table, id);
      if Holding(s.pc) && !s.flag {
        RestartCoverage(s, id);
      }
    case ReadNext => CoveredByNext(s.table);
    case _ =>
  }

  // A timer whose start lies in the past can only move to a later expiry.
  lemma PastStartNeverUndercuts(s: State, step: Step)
    requires TableInv(s) && WakeInv(s)
    requires step.RestartTimer? && Lookup(s.table, step.id).Some? ==> Lookup(s.table, step.id).value.start <= s.clock
    ensures !Undercuts(s, step)
  {
    if step.RestartTimer? {
      LookupFound(s.table, step.id);
    }
  }

  // ---------------------------------------------------------------- whole runs

  ghost predicate NeverUndercuts(s: State, steps: seq<Step>)
    requires ValidRun(s, steps)
    decreases |steps|
  {
    steps != [] ==> !Undercuts(s, steps[0]) && NeverUndercuts(Next(s, steps[0]), steps[1..])
  }

  // The wakeup invariant holds in every state on the way.
  ghost predicate AlwaysWakes(s: State, steps: seq<Step>)
    requires ValidRun(s, steps)
    decreases |steps|
  {
    WakeInv(s) && (steps != [] ==> AlwaysWakes(Next(s, steps[0]), steps[1..]))
  }

  // A run keeps the wakeup invariant throughout if and only if none of its steps undercuts.
  lemma {:induction false} WakeRunIff(s: State, steps: seq<Step>)
    requires TableInv(s) && WakeInv(s) && ValidRun(s, steps)
    ensures AlwaysWakes(s, steps) <==> NeverUndercuts(s, steps)
    ensures TableInv(Exec(s, steps))
    ensures NeverUndercuts(s, steps) ==> WakeInv(Exec(s, steps))
    decreases |steps|
  {
    if steps == [] {
    } else {
      var s' := Next(s, steps[0]);
      TableStep(s, steps[0]);
      WakeStep(s, steps[0]);
      if WakeInv(s') {
        WakeRunIff(s', steps[1..]);
      } else {
        SortedIndexAgreement(s', steps[1..]);
      }
    }
  }

  // In every state of a run without an undercutting restart: a thread that holds a deadline
  // with the flag down sleeps no longer than any live timer, forever only on an empty cache;
  // and when the flag is up while it sleeps, it has been woken or a notification is to come.
  lemma NoLostWakeup(s: State, steps: seq<Step>)
    requires Init(s) && ValidRun(s, steps) && NeverUndercuts(s, steps)
    ensures
      var r := Exec(s, steps);
      && (Holding(r.pc) && !r.flag && r.pc.deadline.None? ==> r.table == [])
      && (Holding(r.pc) && !r.flag && r.pc.deadline.Some? ==>
            forall e | e in r.table :: r.pc.deadline.value <= e.timer.Expiry())
      && (r.pc.Blocked? && r.flag ==> r.pc.woken || r.notifies > 0)
  {
    WakeRunIff(s, steps);
    var r := Exec(s, steps);
    assert r.table != [] ==> r.table[0] in r.table;
  }

  // ---------------------------------------------------------------- starts in the past

  ghost predicate StartsPast(s: State) {
    forall e | e in s.table :: e.timer.start <= s.clock
  }

  // Timers are registered with a start that is not in the future.
  predicate RegistersPast(s: State, step: Step) {
    (step.Register? || step.RegisterNoLock?) ==> step.timer.start <= s.clock
  }

  ghost predicate RunRegistersPast(s: State, steps: seq<Step>)
    requires ValidRun(s, steps)
    decreases |steps|
  {
    steps != [] ==> RegistersPast(s, steps[0]) && RunRegistersPast(Next(s, steps[0]), steps[1..])
  }

  lemma StartsStep(s: State, step: Step)
    requires TableInv(s) && StartsPast(s) && Enabled(s, step) && RegistersPast(s, step)
    ensures StartsPast(Next(s, step))
  {
    var s' := Next(s, step);
    match step
    case Register(timer) =>
      var registered := timer.(id := FreshId(s.table));
      InsertMembers(s.table, Entry(registered.Expiry(), registered));
    case RegisterNoLock(timer) =>
      var registered := timer.(id := FreshId(s.table));
      InsertMembers(s.table, Entry(registered.Expiry(), registered));
    case Remove(id) => RemoveMembers(s.table, id);
    case RestartTimer(id) => RestartMembers(s.table, id, s.clock);
    case TriggerPass =>
      forall e | e in s'.table ensures e.timer.start <= s'.clock {
        TriggerMembers(s.table, s.pc.timePoint, e);
      }
    case RestartPass(readings) =>
      forall e | e in s'.table ensures e.timer.start <= s'.clock {
        RestartPassStart(s.table, readings, s.clock, e);
      }
    case RemovePass => KeepMembers(s.table, NotEndedOneShot);
    case _ =>
  }

  // A restarted timer starts at one of the readings, so no later than the last.
  lemma RestartPassStart(t: Table, readings: seq<int>, now: int, e: Entry)
    requires |readings| == |Keep(t, EndedRepeatable)| && ReadingsFrom(now, readings)
    requires e in RestartRepeatable(t, readings) && forall o | o in t :: o.timer.start <= now
    ensures e.timer.start <= if readings == [] then now else readings[|readings| - 1]
  {
    KeepMembers(t, NotEndedRepeatable);
    ReinsertMembers(Keep(t, NotEndedRepeatable), Keep(t, EndedRepeatable), readings, e);
  }

  // Past starts are enough for a whole run.
  lemma {:induction false} PastStartsNeverUndercut(s: State, steps: seq<Step>)
    requires TableInv(s) && WakeInv(s) && StartsPast(s)
    requires ValidRun(s, steps) && RunRegistersPast(s, steps)
    ensures NeverUndercuts(s, steps)
    decreases |steps|
  {
    if steps == [] {
    } else {
      var step := steps[0];
      if step.RestartTimer? {
        LookupFound(s.table, step.id);
      }
      PastStartNeverUndercuts(s, step);
      WakeStep(s, step);
      TableStep(s, step);
      StartsStep(s, step);
      PastStartsNeverUndercut(Next(s, step), steps[1..]);
    }
  }

  // ---------------------------------------------------------------- why the start must be past

  const FUTURE := TimerValue(0, 100, 10, false, Waiting, UserCallback(0))
  const REGISTRATION: seq<Step> := [Register(FUTURE), Notify]
  const FIRST_TURN: seq<Step> := [ReadNext, CheckWait, ReadClock, TriggerPass]
  const END_OF_TURN: seq<Step> := [RestartPass([]), RemovePass]
  const SECOND_TURN: seq<Step> := [ReadNext, CheckWait, RestartTimer(1)]

  // With a start in the future the promise fails: the thread sleeps until 110 although
  // the restarted timer expires at 10, the flag is down and no notification is due.
  lemma FutureStartLosesWakeup(s: State)
    requires Init(s) && s.clock == 0
    ensures
      var steps := REGISTRATION + FIRST_TURN + END_OF_TURN + SECOND_TURN;
      ValidRun(s, steps) &&
      var r := Exec(s, steps);
      && r.pc == Blocked(Some(110), false) && !r.flag && r.notifies == 0
      && |r.table| == 1 && r.table[0].timer.Expiry() == 10
  {
    var t := [Entry(110, FUTURE.(id := 1))];
    var s1 := s.(table := t, owner := map[1 := 0], registrations := 1);
    Registration(s, s1);
    FirstTurn(s1, t);
    EndOfTurn(s1, t);
    SecondTurn(s1, t);
    var end := s1.(table := [Entry(10, FUTURE.(id := 1, start := 0))], pc := Blocked(Some(110), false));
    FourParts(s, REGISTRATION, s1.(flag := true), FIRST_TURN, s1.(pc := AtRestart), END_OF_TURN, s1, SECOND_TURN, end);
  }

  lemma FourParts(s: State, a: seq<Step>, s1: State, b: seq<Step>, s2: State, c: seq<Step>, s3: State,
                  d: seq<Step>, s4: State)
    requires ValidRun(s, a) && s1 == Exec(s, a)
    requires ValidRun(s1, b) && s2 == Exec(s1, b)
    requires ValidRun(s2, c) && s3 == Exec(s2, c)
    requires ValidRun(s3, d) && s4 == Exec(s3, d)
    ensures ValidRun(s, a + b + c + d) && Exec(s, a + b + c + d) == s4
  {
    RunAppend(s, a, b);
    RunAppend(s, a + b, c);
    RunAppend(s, a + b + c, d);
  }

  lemma Registration(s: State, s1: State)
    requires Init(s)
    requires s1 == s.(table := [Entry(110, FUTURE.(id := 1))], owner := map[1 := 0], registrations := 1)
    ensures ValidRun(s, REGISTRATION) && Exec(s, REGISTRATION) == s1.(flag := true)
  {
    FreshIdIsLeast([]);
    assert InsertTimer([], FUTURE.(id := 1)) == s1.table;
    assert Next(s, Register(FUTURE)) == s1.(flag := true, notifies := 1);
    RunPrepend(s1.(flag := true, notifies := 1), Notify, []);
    RunPrepend(s, Register(FUTURE), [Notify]);
    assert [Notify] == [Notify] + [] && REGISTRATION == [Register(FUTURE)] + [Notify];
  }

  lemma FirstTurn(s: State, t: Table)
    requires s.table == t == [Entry(110, FUTURE.(id := 1))] && s.clock == 0 && s.pc == AtRead && !s.flag
    ensures ValidRun(s.(flag := true), FIRST_TURN)
    ensures Exec(s.(flag := true), FIRST_TURN) == s.(pc := AtRestart)
  {
    var s1 := s.(flag := true);
    NothingFires(s, t);
    RunPrepend(s.(pc := AtTrigger(0)), TriggerPass, []);
    RunPrepend(s.(pc := AtClock), ReadClock, [TriggerPass] + []);
    RunPrepend(s1.(pc := AtWait(Some(110))), CheckWait, [ReadClock] + ([TriggerPass] + []));
    RunPrepend(s1, ReadNext, [CheckWait] + ([ReadClock] + ([TriggerPass] + [])));
    assert FIRST_TURN == [ReadNext] + ([CheckWait] + ([ReadClock] + ([TriggerPass] + [])));
  }

  lemma NothingFires(s: State, t: Table)
    requires s.table == t == [Entry(110, FUTURE.(id := 1))]
    ensures Next(s.(pc := AtTrigger(0)), TriggerPass) == s.(pc := AtRestart)
  {
    assert Trigger(t, 0) == t && Fired(t, 0) == [] && s.log + [] == s.log;
  }

  lemma EndOfTurn(s: State, t: Table)
    requires s.table == t == [Entry(110, FUTURE.(id := 1))] && s.owner == map[1 := 0] && s.pc == AtRead
    ensures ValidRun(s.(pc := AtRestart), END_OF_TURN)
    ensures Exec(s.(pc := AtRestart), END_OF_TURN) == s
  {
    KeepSingle(t[0], EndedRepeatable);
    KeepSingle(t[0], NotEndedRepeatable);
    KeepSingle(t[0], NotEndedOneShot);
    assert t[0] in t && Ids(t) == {1};
    assert Next(s.(pc := AtRemove), RemovePass) == s;
    RunPrepend(s.(pc := AtRemove), RemovePass, []);
    RunPrepend(s.(pc := AtRestart), RestartPass([]), [RemovePass] + []);
    assert END_OF_TURN == [RestartPass([])] + ([RemovePass] + []);
  }

  lemma SecondTurn(s: State, t: Table)
    requires s.table == t == [Entry(110, FUTURE.(id := 1))] && s.clock == 0 && s.pc == AtRead && !s.flag
    ensures ValidRun(s, SECOND_TURN)
    ensures Exec(s, SECOND_TURN) ==
      s.(table := [Entry(10, FUTURE.(id := 1, start := 0))], pc := Blocked(Some(110), false))
  {
  }
}
