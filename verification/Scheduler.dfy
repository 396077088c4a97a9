// The timers thread and everyone who uses the cache, as one state machine. Each
// step is one region of code under `timersLock`, one notification, one reading of
// the clock, or the passing of time; steps of different threads interleave freely.

module Scheduler {
  import opened Messages
  import opened Timers
  import opened TimerTable
  import opened TimerPass
  import opened TimerIds

  // Where the timers thread stands in its loop.
  datatype PC =
    | AtRead                                            // before nextExpirationTimestamp
    | AtWait(deadline: Option<int>)                     // before taking the lock of a wait
    | Blocked(deadline: Option<int>, woken: bool)       // asleep on the condition variable
    | AtClock                                           // before reading `now`
    | AtTrigger(timePoint: int)
    | AtRestart
    | AtRemove

  // One run of a callback. Registrations are numbered, because IDs are used again.
  datatype Firing = Firing(registration: nat, at: int, expiry: int, duration: int, repeatable: bool)

  datatype State = State(
    table: Table,
    flag: bool,                     // timersInvokedStatus
    notifies: nat,                  // notify_one calls still to be made
    clock: int,
    pc: PC,
    owner: map<nat, nat>,           // live ID -> number of its registration
    registrations: nat,
    log: seq<Firing>)

  datatype Step =
    | Tick(now: int)
    | Register(timer: TimerValue)
    | RegisterNoLock(timer: TimerValue)   // by a callback of the running pass
    | Remove(id: nat)
    | RestartTimer(id: nat)
    | Notify
    // the timers thread
    | ReadNext
    | CheckWait
    | Wake                                // notified, timed out, or for no reason
    | ReadClock
    | TriggerPass
    | RestartPass(readings: seq<int>)
    | RemovePass

  predicate ThreadStep(step: Step) {
    step.ReadNext? || step.CheckWait? || step.Wake? || step.ReadClock? ||
    step.TriggerPass? || step.RestartPass? || step.RemovePass?
  }

  ghost predicate Init(s: State) {
    s.table == [] && !s.flag && s.notifies == 0 && s.pc == AtRead
    && s.owner == map[] && s.registrations == 0 && s.log == []
  }

  ghost predicate Enabled(s: State, step: Step) {
    match step
    case Tick(now) => s.clock <= now
    case Register(timer) => timer.status == Waiting && |s.table| <= MAX_UINT32
    case RegisterNoLock(timer) =>
      timer.status == Waiting && |s.table| <= MAX_UINT32 && (s.pc.AtTrigger? || s.pc.AtRestart?)
    case Remove(_) => true
    case RestartTimer(_) => true
    case Notify => s.notifies > 0
    case ReadNext => s.pc.AtRead?
    case CheckWait => s.pc.AtWait?
    case Wake => s.pc.Blocked?
    case ReadClock => s.pc.AtClock?
    case TriggerPass => s.pc.AtTrigger?
    case RestartPass(readings) =>
      s.pc.AtRestart? && |readings| == |Keep(s.table, EndedRepeatable)| && ReadingsFrom(s.clock, readings)
    case RemovePass => s.pc.AtRemove?
  }

  // Successive readings of a clock that shows `now`.
  ghost predicate ReadingsFrom(now: int, readings: seq<int>) {
    (forall i | 0 <= i < |readings| :: now <= readings[i])
    && forall i, j | 0 <= i < j < |readings| :: readings[i] <= readings[j]
  }

  predicate TimedOut(deadline: Option<int>, clock: int) {
    deadline.Some? && deadline.value <= clock
  }

  ghost function AddTimer(s: State, timer: TimerValue): State {
    var id := FreshId(s.table);
    s.(table := InsertTimer(s.table, timer.(id := id)),
       owner := s.owner[id := s.registrations], registrations := s.registrations + 1)
  }

  function Record(owner: map<nat, nat>, timer: TimerValue, at: int): Firing {
    Firing(if timer.id in owner then owner[timer.id] else 0, at, timer.Expiry(), timer.duration, timer.repeatable)
  }

  function Records(owner: map<nat, nat>, fired: seq<TimerValue>, at: int): (r: seq<Firing>) {
    seq(|fired|, i requires 0 <= i < |fired| => Record(owner, fired[i], at))
  }

  ghost function Next(s: State, step: Step): State
    requires Enabled(s, step)
  {
    match step
    case Tick(now) => s.(clock := now)
    case Register(timer) => AddTimer(s, timer).(flag := true, notifies := s.notifies + 1)
    case RegisterNoLock(timer) => AddTimer(s, timer)
    case Remove(id) =>
      if Lookup(s.table, id).None? then s
      else s.(table := RemoveId(s.table, id), owner := s.owner - {id}, flag := true, notifies := s.notifies + 1)
    case RestartTimer(id) => s.(table := Restart(s.table, id, s.clock))
    case Notify =>
      s.(notifies := s.notifies - 1, pc := if s.pc.Blocked? then s.pc.(woken := true) else s.pc)
    case ReadNext => s.(pc := AtWait(NextExpiration(s.table)))
    case CheckWait =>
      if s.flag then s.(flag := false, pc := AtClock) else s.(pc := Blocked(s.pc.deadline, false))
    case Wake =>
      if s.flag || TimedOut(s.pc.deadline, s.clock) then s.(flag := false, pc := AtClock)
      else s.(pc := Blocked(s.pc.deadline, false))
    case ReadClock => s.(pc := AtTrigger(s.clock))
    case TriggerPass =>
      s.(table := Trigger(s.table, s.pc.timePoint), pc := AtRestart,
         log := s.log + Records(s.owner, Fired(s.table, s.pc.timePoint), s.pc.timePoint))
    case RestartPass(readings) =>
      s.(table := RestartRepeatable(s.table, readings), pc := AtRemove,
         clock := if readings == [] then s.clock else readings[|readings| - 1])
    case RemovePass =>
      s.(table := RemoveEnded(s.table), pc := AtRead,
         owner := s.owner - (s.owner.Keys - Ids(RemoveEnded(s.table))))
  }

  ghost predicate ValidRun(s: State, steps: seq<Step>)
    decreases |steps|
  {
    steps != [] ==> Enabled(s, steps[0]) && ValidRun(Next(s, steps[0]), steps[1..])
  }

  // The state after a run.
  ghost function Exec(s: State, steps: seq<Step>): State
    requires ValidRun(s, steps)
    decreases |steps|
  {
    if steps == [] then s else Exec(Next(s, steps[0]), steps[1..])
  }

  lemma {:induction false} RunAppend(s: State, steps: seq<Step>, more: seq<Step>)
    requires ValidRun(s, steps)
    ensures ValidRun(s, steps + more) <==> ValidRun(Exec(s, steps), more)
    ensures ValidRun(s, steps + more) ==> Exec(s, steps + more) == Exec(Exec(s, steps), more)
    decreases |steps|
  {
    if steps == [] {
      assert steps + more == more;
    } else {
      RunAppend(Next(s, steps[0]), steps[1..], more);
      assert (steps + more)[1..] == steps[1..] + more;
    }
  }

  lemma RunPrepend(s: State, step: Step, rest: seq<Step>)
    requires Enabled(s, step) && ValidRun(Next(s, step), rest)
    ensures ValidRun(s, [step] + rest) && Exec(s, [step] + rest) == Exec(Next(s, step), rest)
  {
    assert ([step] + rest)[1..] == rest;
  }

  // ---------------------------------------------------------------- the table and its owners

  // Registrations are numbered apart.
  ghost predicate Numbered(owner: map<nat, nat>, registrations: nat) {
    && (forall id | id in owner :: owner[id] < registrations)
    && (forall a, b | a in owner && b in owner && a != b :: owner[a] != owner[b])
  }

  ghost predicate TableInv(s: State) {
    && WellFormed(s.table)
    && s.owner.Keys == Ids(s.table)
    && Numbered(s.owner, s.registrations)
    && (forall e | e in s.table :: e.timer.status != Running)
    && (s.pc.AtTrigger? ==> s.pc.timePoint <= s.clock)
  }

  lemma AddTimerKeepsTable(s: State, timer: TimerValue)
    requires TableInv(s) && timer.status == Waiting && |s.table| <= MAX_UINT32
    ensures TableInv(AddTimer(s, timer))
  {
    RegisterKeepsIds(s.table, timer);
    FreshIdIsFree(s.table);
    AddedEntries(s, timer);
    NewOwner(s.owner, FreshId(s.table), s.registrations);
  }

  lemma AddedEntries(s: State, timer: TimerValue)
    ensures Ids(AddTimer(s, timer).table) == Ids(s.table) + {FreshId(s.table)}
    ensures forall e | e in AddTimer(s, timer).table :: e in s.table || e.timer == timer.(id := FreshId(s.table))
  {
    var registered := timer.(id := FreshId(s.table));
    InsertMembers(s.table, Entry(registered.Expiry(), registered));
  }

  lemma NewOwner(owner: map<nat, nat>, id: nat, registrations: nat)
    requires Numbered(owner, registrations)
    ensures Numbered(owner[id := registrations], registrations + 1)
  {
  }

  lemma RestartMembers(t: Table, id: nat, now: int)
    requires WellFormed(t)
    ensures forall e | e in Restart(t, id, now) ::
      e in t || (Lookup(t, id).Some? && e.timer == Lookup(t, id).value.(start := now))
  {
    if Lookup(t, id).Some? {
      var timer := Lookup(t, id).value.(start := now);
      RemoveMembers(t, id);
      InsertMembers(RemoveId(t, id), Entry(timer.Expiry(), timer));
    }
  }

  lemma {:induction false} ReinsertMembers(t: Table, again: Table, readings: seq<int>, e: Entry)
    requires |again| == |readings|
    requires e in Reinsert(t, again, readings)
    ensures e in t || exists i :: 0 <= i < |again| && e.timer == Renewed(again[i].timer, readings[i])
    decreases |again|
  {
    if again == [] {
    } else {
      var timer := Renewed(again[0].timer, readings[0]);
      InsertMembers(t, Entry(timer.Expiry(), timer));
      ReinsertMembers(InsertTimer(t, timer), again[1..], readings[1..], e);
      if e !in t && e.timer != timer {
        var i :| 0 <= i < |again[1..]| && e.timer == Renewed(again[1..][i].timer, readings[1..][i]);
        assert e.timer == Renewed(again[i + 1].timer, readings[i + 1]);
      }
    }
  }

  // After restarting, an entry is an old one that was not to be restarted, or a
  // restarted one with a start no earlier than `now`.
  lemma RestartPassMembers(t: Table, readings: seq<int>, now: int, e: Entry)
    requires |readings| == |Keep(t, EndedRepeatable)| && ReadingsFrom(now, readings)
    requires e in RestartRepeatable(t, readings)
    ensures (e in t && !EndedRepeatable(e.timer)) ||
      (e.timer.status == Waiting && now <= e.timer.start
        && exists o :: o in t && EndedRepeatable(o.timer) && e.timer == Renewed(o.timer, e.timer.start))
  {
    var again := Keep(t, EndedRepeatable);
    KeepMembers(t, NotEndedRepeatable);
    KeepMembers(t, EndedRepeatable);
    ReinsertMembers(Keep(t, NotEndedRepeatable), again, readings, e);
    if e !in Keep(t, NotEndedRepeatable) {
      var i :| 0 <= i < |again| && e.timer == Renewed(again[i].timer, readings[i]);
      assert again[i] in again;
    }
  }

  lemma TriggerMembers(t: Table, timePoint: int, e: Entry)
    requires e in Trigger(t, timePoint)
    ensures exists o :: o in t && e == Entry(o.key, Triggered(o.timer, timePoint))
  {
  }

  lemma TableStep(s: State, step: Step)
    requires TableInv(s) && Enabled(s, step)
    ensures TableInv(Next(s, step)) && s.clock <= Next(s, step).clock
  {
    var s' := Next(s, step);
    match step
    case Register(timer) => AddTimerKeepsTable(s, timer);
    case RegisterNoLock(timer) => AddTimerKeepsTable(s, timer);
    case Remove(id) =>
      RemoveKeeps(s.table, id);
      RemoveMembers(s.table, id);
      LookupFound(s.table, id);
    case RestartTimer(id) =>
      RestartKeeps(s.table, id, s.clock);
      RestartMembers(s.table, id, s.clock);
      LookupFound(s.table, id);
    case TriggerPass =>
      TriggerKeeps(s.table, s.pc.timePoint);
      TriggerIds(s.table, s.pc.timePoint);
      forall e | e in s'.table ensures e.timer.status != Running {
        TriggerMembers(s.table, s.pc.timePoint, e);
      }
    case RestartPass(readings) =>
      RestartRepeatableKeeps(s.table, readings);
      forall e | e in s'.table ensures e.timer.status != Running {
        RestartPassMembers(s.table, readings, s.clock, e);
      }
    case RemovePass =>
      KeepKeeps(s.table, NotEndedOneShot);
      KeepMembers(s.table, NotEndedOneShot);
    case _ =>
  }

  // In every reachable state the index of the multimap agrees with its contents: each key
  // is its timer's expiry, the order is sorted, IDs differ, and the deadline the timers
  // thread would read is the least expiry of all timers.
  lemma {:induction false} SortedIndexAgreement(s: State, steps: seq<Step>)
    requires TableInv(s) && ValidRun(s, steps)
    ensures
      var r := Exec(s, steps);
      && TableInv(r) && s.clock <= r.clock
      && (r.table != [] ==>
            NextExpiration(r.table).Some?
            && exists e :: e in r.table && e.timer.Expiry() == NextExpiration(r.table).value)
      && (forall e | e in r.table :: NextExpiration(r.table).Some? && NextExpiration(r.table).value <= e.timer.Expiry())
    decreases |steps|
  {
    if steps == [] {
      NextExpirationIsMinimum(s.table);
    } else {
      TableStep(s, steps[0]);
      SortedIndexAgreement(Next(s, steps[0]), steps[1..]);
    }
  }

  // ---------------------------------------------------------------- what each step changes

  // The flag and its notifications: a registration and a removal that finds its timer raise the
  // flag and owe one notification each; the flag is lowered only by a thread that goes on from
  // its wait, and one that wakes for no reason goes back to sleep with the deadline it had.
  lemma FlagStep(s: State, step: Step)
    requires Enabled(s, step)
    ensures
      var s' := Next(s, step);
      var raises := step.Register? || (step.Remove? && Lookup(s.table, step.id).Some?);
      var waits := step.CheckWait? || step.Wake?;
      var inTime := step.Wake? && s.pc.deadline.Some? && s.pc.deadline.value <= s.clock;
      && (s'.flag <==> raises || (s.flag && !waits))
      && s'.notifies == s.notifies + (if raises then 1 else 0) - (if step.Notify? then 1 else 0)
      && (waits && (s.flag || inTime) ==> s'.pc == AtClock)
      && (waits && !s.flag && !inTime ==> s'.pc == Blocked(s.pc.deadline, false))
      && (!waits && s.pc.Blocked? ==> s'.pc == Blocked(s.pc.deadline, s.pc.woken || step.Notify?))
  {
  }

  // How a step changes the timer found under an ID, if one is.
  ghost predicate Changed(s: State, step: Step, id: nat, before: Option<TimerValue>, after: Option<TimerValue>) {
    match step
    case Register(timer) => after == if id == FreshId(s.table) then Some(timer.(id := id)) else before
    case RegisterNoLock(timer) => after == if id == FreshId(s.table) then Some(timer.(id := id)) else before
    case Remove(other) => after == if id == other then None else before
    case RestartTimer(other) =>
      after == if id == other && before.Some? then Some(before.value.(start := s.clock)) else before
    case TriggerPass =>
      s.pc.AtTrigger? &&
      after == if before.Some? && before.value.status == Waiting
                  && before.value.start + before.value.duration < s.pc.timePoint
               then Some(before.value.(status := Ended)) else before
    case RestartPass(readings) =>
      if before.Some? && before.value.status == Ended && before.value.repeatable
      then exists now :: now in readings && after == Some(before.value.(status := Waiting, start := now))
      else after == before
    case RemovePass =>
      after == if before.Some? && before.value.status == Ended && !before.value.repeatable then None else before
    case _ => after == before
  }

  lemma TimerStep(s: State, step: Step, id: nat)
    requires TableInv(s) && Enabled(s, step)
    ensures Changed(s, step, id, Lookup(s.table, id), Lookup(Next(s, step).table, id))
  {
    match step
    case Register(timer) => RegisteredLookup(s.table, timer, id);
    case RegisterNoLock(timer) => RegisteredLookup(s.table, timer, id);
    case Remove(other) => LookupRemove(s.table, other, id);
    case RestartTimer(other) => LookupRestart(s.table, other, s.clock, id);
    case TriggerPass => LookupTrigger(s.table, s.pc.timePoint, id);
    case RestartPass(readings) => LookupRestartRepeatable(s.table, readings, id);
    case RemovePass => LookupKeep(s.table, NotEndedOneShot, id);
    case _ =>
  }

  lemma RegisteredLookup(t: Table, timer: TimerValue, id: nat)
    requires |t| <= MAX_UINT32
    ensures Lookup(InsertTimer(t, timer.(id := FreshId(t))), id)
      == if id == FreshId(t) then Some(timer.(id := id)) else Lookup(t, id)
  {
    var registered := timer.(id := FreshId(t));
    FreshIdIsFree(t);
    LookupInsert(t, Entry(registered.Expiry(), registered), id);
  }

  // ---------------------------------------------------------------- statuses between the passes

  // Only between trigger and removal are there ended timers, and only between trigger and
  // restart repeatable ones among them. No pass ever leaves a timer running.
  predicate StatusOk(pc: PC, timer: TimerValue) {
    match pc
    case AtRestart => timer.status != Running
    case AtRemove => timer.status != Running && !EndedRepeatable(timer)
    case _ => timer.status == Waiting
  }

  ghost predicate StatusInv(s: State) {
    forall e | e in s.table :: StatusOk(s.pc, e.timer)
  }

  lemma StatusStep(s: State, step: Step)
    requires StatusInv(s) && TableInv(s) && Enabled(s, step)
    ensures StatusInv(Next(s, step))
  {
    var s' := Next(s, step);
    match step
    case Register(timer) => AddedEntries(s, timer);
    case RegisterNoLock(timer) => AddedEntries(s, timer);
    case Remove(id) => RemoveMembers(s.table, id);
    case RestartTimer(id) =>
      RestartMembers(s.table, id, s.clock);
      LookupFound(s.table, id);
    case TriggerPass =>
      forall e | e in s'.table ensures e.timer.status != Running {
        TriggerMembers(s.table, s.pc.timePoint, e);
      }
    case RestartPass(readings) =>
      forall e | e in s'.table ensures StatusOk(AtRemove, e.timer) {
        RestartPassMembers(s.table, readings, s.clock, e);
      }
    case RemovePass => KeepMembers(s.table, NotEndedOneShot);
    case _ =>
  }

  // In every reachable state of every interleaving, registrations and restarts between the
  // three passes included: outside the passes every timer is waiting; before the removal no
  // repeatable timer is ended; so what a turn leaves behind is waiting.
  lemma {:induction false} WaitingOutsidePasses(s: State, steps: seq<Step>)
    requires TableInv(s) && StatusInv(s) && ValidRun(s, steps)
    ensures
      var r := Exec(s, steps);
      && StatusInv(r)
      && (!r.pc.AtRestart? && !r.pc.AtRemove? ==> forall e | e in r.table :: e.timer.status == Waiting)
    decreases |steps|
  {
    if steps == [] {
    } else {
      StatusStep(s, steps[0]);
      TableStep(s, steps[0]);
      WaitingOutsidePasses(Next(s, steps[0]), steps[1..]);
    }
  }

  // ---------------------------------------------------------------- live IDs

  predicate Registers(step: Step) { step.Register? || step.RegisterNoLock? }

  ghost predicate IdsInv(s: State) { TableInv(s) && InRange(Ids(s.table), MAX_UINT32) }

  // A step brings in the ID 0 exactly when it registers a timer with all other IDs taken.
  lemma IdsStep(s: State, step: Step)
    requires IdsInv(s) && Enabled(s, step)
    ensures IdsInv(Next(s, step)) <==> !(Registers(step) && |s.table| == MAX_UINT32)
  {
    TableStep(s, step);
    match step
    case Register(timer) => RegisteredIds(s, timer);
    case RegisterNoLock(timer) => RegisteredIds(s, timer);
    case Remove(id) => RemoveMembers(s.table, id);
    case RestartTimer(id) => RestartKeeps(s.table, id, s.clock);
    case TriggerPass => TriggerIds(s.table, s.pc.timePoint);
    case RestartPass(readings) => RestartRepeatableKeeps(s.table, readings);
    case RemovePass => KeepMembers(s.table, NotEndedOneShot);
    case _ =>
  }

  lemma RegisteredIds(s: State, timer: TimerValue)
    requires IdsInv(s) && |s.table| <= MAX_UINT32
    ensures Ids(AddTimer(s, timer).table) == Ids(s.table) + {FreshId(s.table)}
    ensures InRange(Ids(AddTimer(s, timer).table), MAX_UINT32) <==> |s.table| < MAX_UINT32
  {
    var registered := timer.(id := FreshId(s.table));
    InsertMembers(s.table, Entry(registered.Expiry(), registered));
    ZeroIdIff(s.table);
    FreshIdIsLeast(s.table);
    IdsUnion(Ids(s.table), FreshId(s.table));
  }

  lemma IdsUnion(ids: set<nat>, id: nat)
    requires InRange(ids, MAX_UINT32)
    ensures InRange(ids + {id}, MAX_UINT32) <==> 1 <= id <= MAX_UINT32
  {
  }

  // Over any run that never registers a timer beyond 2^32 - 2 live ones, live IDs are never
  // 0 and pairwise different.
  lemma {:induction false} LiveIds(s: State, steps: seq<Step>)
    requires IdsInv(s) && ValidRun(s, steps) && RunHasRoom(s, steps)
    ensures IdsInv(Exec(s, steps)) && 0 !in Ids(Exec(s, steps).table) && DistinctIds(Exec(s, steps).table)
    decreases |steps|
  {
    if steps == [] {
    } else {
      IdsStep(s, steps[0]);
      LiveIds(Next(s, steps[0]), steps[1..]);
    }
  }

  ghost predicate RunHasRoom(s: State, steps: seq<Step>)
    requires ValidRun(s, steps)
    decreases |steps|
  {
    steps != [] ==>
      (Registers(steps[0]) ==> |s.table| < MAX_UINT32) && RunHasRoom(Next(s, steps[0]), steps[1..])
  }
}
