// Firing discipline over whole runs: never early, a one-shot at most once, the
// firings of a repeatable timer more than its duration apart.

module Firings {
  import opened Timers
  import opened TimerTable
  import opened TimerPass
  import opened TimerIds
  import opened Scheduler

  // Two runs of the callback of one registration.
  predicate Spaced(first: Firing, second: Firing) {
    first.registration == second.registration ==>
      first.repeatable && second.repeatable && first.at + second.duration < second.at
  }

  ghost predicate Disciplined(log: seq<Firing>) {
    && (forall i | 0 <= i < |log| :: log[i].expiry < log[i].at)
    && (forall i, j | 0 <= i < j < |log| :: Spaced(log[i], log[j]))
  }

  // What the log says about a live timer with this registration number: it may fire
  // again only if it repeats and was started after its last firing.
  ghost predicate Accounted(timer: TimerValue, registration: nat, log: seq<Firing>) {
    forall i | 0 <= i < |log| && log[i].registration == registration ::
      && log[i].repeatable == timer.repeatable
      && (timer.status == Ended || (timer.repeatable && log[i].at <= timer.start))
  }

  ghost predicate FiringInv(s: State) {
    && TableInv(s)
    && Disciplined(s.log)
    && (forall i | 0 <= i < |s.log| :: s.log[i].at <= s.clock && s.log[i].registration < s.registrations)
    && (forall e | e in s.table :: Accounted(e.timer, s.owner[e.timer.id], s.log))
  }

  lemma AddTimerKeepsFiring(s: State, timer: TimerValue)
    requires FiringInv(s) && timer.status == Waiting && |s.table| <= MAX_UINT32
    ensures FiringInv(AddTimer(s, timer))
  {
    var id := FreshId(s.table);
    var registered := timer.(id := id);
    AddTimerKeepsTable(s, timer);
    FreshIdIsFree(s.table);
    InsertMembers(s.table, Entry(registered.Expiry(), registered));
    var s' := AddTimer(s, timer);
    forall e | e in s'.table ensures Accounted(e.timer, s'.owner[e.timer.id], s'.log) {
      if e in s.table {
        assert e.timer.id in Ids(s.table);
      }
    }
  }

  lemma FiredAccounted(s: State, timer: TimerValue)
    requires FiringInv(s) && s.pc.AtTrigger? && timer in Fired(s.table, s.pc.timePoint)
    ensures timer.Due(s.pc.timePoint) && timer.id in s.owner && Accounted(timer, s.owner[timer.id], s.log)
  {
    FiredLookup(s.table, s.pc.timePoint, timer);
    LookupFound(s.table, timer.id);
  }

  // ---------------------------------------------------------------- what is recorded

  // A run of the callback of this timer, as it was when a pass at `at` looked at it.
  predicate IsRecord(f: Firing, timer: TimerValue, registration: nat, at: int) {
    && f.registration == registration && f.at == at
    && f.expiry == timer.start + timer.duration
    && f.duration == timer.duration && f.repeatable == timer.repeatable
  }

  // Waiting, and started so long before `at` that its duration is over.
  predicate Overdue(t: Table, id: nat, at: int) {
    && Lookup(t, id).Some? && Lookup(t, id).value.status == Waiting
    && Lookup(t, id).value.start + Lookup(t, id).value.duration < at
  }

  ghost predicate Recorded(s: State, log: seq<Firing>, id: nat, i: nat)
    requires s.pc.AtTrigger? && i < |log| && Lookup(s.table, id).Some? && id in s.owner
  {
    IsRecord(log[i], Lookup(s.table, id).value, s.owner[id], s.pc.timePoint)
  }

  ghost predicate RecordsOverdue(s: State, log: seq<Firing>, i: nat)
    requires s.pc.AtTrigger? && i < |log|
  {
    exists id :: Overdue(s.table, id, s.pc.timePoint) && id in s.owner && Recorded(s, log, id, i)
  }

  // No step but a trigger pass touches the log.
  lemma OnlyPassesRecord(s: State, step: Step)
    requires Enabled(s, step) && !step.TriggerPass?
    ensures Next(s, step).log == s.log
  {
  }

  lemma OwnedIds(s: State, id: nat)
    requires TableInv(s)
    ensures Lookup(s.table, id).Some? <==> id in s.owner
  {
    LookupFound(s.table, id);
  }

  // Every overdue timer gets a record in the pass.
  lemma OverdueRecorded(s: State, id: nat) returns (i: nat)
    requires TableInv(s) && s.pc.AtTrigger? && Overdue(s.table, id, s.pc.timePoint)
    ensures
      var log := Next(s, TriggerPass).log;
      |s.log| <= i < |log| && id in s.owner && Recorded(s, log, id, i)
  {
    var fired := Fired(s.table, s.pc.timePoint);
    OwnedIds(s, id);
    LookupFound(s.table, id);
    FiredLookup(s.table, s.pc.timePoint, Lookup(s.table, id).value);
    var k :| 0 <= k < |fired| && fired[k] == Lookup(s.table, id).value;
    i := |s.log| + k;
    assert Next(s, TriggerPass).log[i] == Record(s.owner, fired[k], s.pc.timePoint);
  }

  // Every new record is that of an overdue timer.
  lemma RecordedOverdue(s: State, i: nat) returns (id: nat)
    requires TableInv(s) && s.pc.AtTrigger? && |s.log| <= i < |Next(s, TriggerPass).log|
    ensures Overdue(s.table, id, s.pc.timePoint) && id in s.owner && Recorded(s, Next(s, TriggerPass).log, id, i)
    ensures id == Fired(s.table, s.pc.timePoint)[i - |s.log|].id
  {
    var timer := Fired(s.table, s.pc.timePoint)[i - |s.log|];
    FiredLookup(s.table, s.pc.timePoint, timer);
    id := timer.id;
    OwnedIds(s, id);
    assert Next(s, TriggerPass).log[i] == Record(s.owner, timer, s.pc.timePoint);
  }

  // A trigger pass adds to the log one record for each overdue timer, under the number of its
  // registration, and none besides.
  lemma TriggerRecords(s: State)
    requires TableInv(s) && s.pc.AtTrigger?
    ensures forall id | Lookup(s.table, id).Some? :: id in s.owner
    ensures
      var log := Next(s, TriggerPass).log;
      && s.log <= log
      && (forall id | Overdue(s.table, id, s.pc.timePoint) ::
            exists i :: |s.log| <= i < |log| && Recorded(s, log, id, i))
      && (forall i: nat | |s.log| <= i < |log| :: RecordsOverdue(s, log, i))
      && (forall i, j | |s.log| <= i < j < |log| :: log[i].registration != log[j].registration)
  {
    var log := Next(s, TriggerPass).log;
    forall id | Lookup(s.table, id).Some? ensures id in s.owner {
      OwnedIds(s, id);
    }
    forall id | Overdue(s.table, id, s.pc.timePoint)
      ensures exists i :: |s.log| <= i < |log| && Recorded(s, log, id, i)
    {
      var i := OverdueRecorded(s, id);
    }
    forall i: nat | |s.log| <= i < |log| ensures RecordsOverdue(s, log, i) {
      var id := RecordedOverdue(s, i);
    }
    FiredDistinct(s.table, s.pc.timePoint);
    forall i, j | |s.log| <= i < j < |log| ensures log[i].registration != log[j].registration {
      var a := RecordedOverdue(s, i);
      var b := RecordedOverdue(s, j);
    }
  }

  lemma {:induction false} LogGrows(s: State, steps: seq<Step>)
    requires ValidRun(s, steps)
    ensures s.log <= Exec(s, steps).log
    decreases |steps|
  {
    if steps == [] {
    } else {
      if !steps[0].TriggerPass? {
        OnlyPassesRecord(s, steps[0]);
      }
      LogGrows(Next(s, steps[0]), steps[1..]);
    }
  }

  // ---------------------------------------------------------------- every step keeps the account

  // A new record is late enough, and spaced from what the log has of its registration.
  lemma NewRecord(s: State, j: nat)
    requires FiringInv(s) && s.pc.AtTrigger? && |s.log| <= j < |Next(s, TriggerPass).log|
    ensures
      var log := Next(s, TriggerPass).log;
      && log[j].expiry < log[j].at == s.pc.timePoint && log[j].registration < s.registrations
      && forall i | 0 <= i < |s.log| :: Spaced(s.log[i], log[j])
  {
    var timer := Fired(s.table, s.pc.timePoint)[j - |s.log|];
    FiredAccounted(s, timer);
    assert Next(s, TriggerPass).log[j] == Record(s.owner, timer, s.pc.timePoint);
  }

  // The new records are in order among themselves and against the log.
  lemma TriggerLog(s: State)
    requires FiringInv(s) && s.pc.AtTrigger?
    ensures Disciplined(Next(s, TriggerPass).log)
    ensures forall i | |s.log| <= i < |Next(s, TriggerPass).log| ::
      Next(s, TriggerPass).log[i].at == s.pc.timePoint && Next(s, TriggerPass).log[i].registration < s.registrations
  {
    var log := Next(s, TriggerPass).log;
    TriggerRecords(s);
    forall j | |s.log| <= j < |log|
      ensures log[j].expiry < log[j].at == s.pc.timePoint && log[j].registration < s.registrations
    {
      NewRecord(s, j);
    }
    forall i, j | 0 <= i < j < |log| ensures Spaced(log[i], log[j]) {
      if |s.log| <= j && i < |s.log| {
        NewRecord(s, j);
      }
    }
  }

  lemma TriggerAccounts(s: State, o: Entry)
    requires FiringInv(s) && s.pc.AtTrigger? && o in s.table
    ensures o.timer.id in s.owner
    ensures Accounted(Triggered(o.timer, s.pc.timePoint), s.owner[o.timer.id], Next(s, TriggerPass).log)
  {
    var at := s.pc.timePoint;
    var fired := Fired(s.table, at);
    var log := Next(s, TriggerPass).log;
    assert o.timer.id in Ids(s.table);
    MemberLookup(s.table, o);
    forall i | |s.log| <= i < |log| && log[i].registration == s.owner[o.timer.id]
      ensures o.timer.Due(at) && log[i].repeatable == o.timer.repeatable
    {
      var timer := fired[i - |s.log|];
      assert log[i] == Record(s.owner, timer, at);
      FiredLookup(s.table, at, timer);
      LookupFound(s.table, timer.id);
    }
  }

  lemma TriggerKeepsFiring(s: State)
    requires FiringInv(s) && s.pc.AtTrigger?
    ensures FiringInv(Next(s, TriggerPass))
  {
    TableStep(s, TriggerPass);
    TriggerLog(s);
    var s' := Next(s, TriggerPass);
    forall e | e in s'.table ensures Accounted(e.timer, s'.owner[e.timer.id], s'.log) {
      TriggeredAccounts(s, e);
    }
  }

  lemma TriggeredAccounts(s: State, e: Entry)
    requires FiringInv(s) && s.pc.AtTrigger? && e in Trigger(s.table, s.pc.timePoint)
    ensures e.timer.id in s.owner
    ensures Accounted(e.timer, s.owner[e.timer.id], Next(s, TriggerPass).log)
  {
    TriggerMembers(s.table, s.pc.timePoint, e);
    var o :| o in s.table && e == Entry(o.key, Triggered(o.timer, s.pc.timePoint));
    TriggerAccounts(s, o);
  }

  // Starting a timer again at or after every firing so far keeps its account.
  lemma RenewalAccounts(s: State, o: Entry, now: int)
    requires FiringInv(s) && o in s.table && s.clock <= now
    ensures o.timer.id in s.owner
    ensures Accounted(o.timer.(start := now), s.owner[o.timer.id], s.log)
    ensures o.timer.repeatable ==> Accounted(Renewed(o.timer, now), s.owner[o.timer.id], s.log)
  {
  }

  lemma RestartKeepsFiring(s: State, id: nat)
    requires FiringInv(s)
    ensures FiringInv(Next(s, RestartTimer(id)))
  {
    TableStep(s, RestartTimer(id));
    RestartMembers(s.table, id, s.clock);
    LookupFound(s.table, id);
    if Lookup(s.table, id).Some? {
      var o :| o in s.table && o.timer == Lookup(s.table, id).value;
      RenewalAccounts(s, o, s.clock);
    }
  }

  lemma RestartPassKeepsFiring(s: State, readings: seq<int>)
    requires FiringInv(s) && Enabled(s, RestartPass(readings))
    ensures FiringInv(Next(s, RestartPass(readings)))
  {
    TableStep(s, RestartPass(readings));
    var s' := Next(s, RestartPass(readings));
    forall e | e in s'.table ensures Accounted(e.timer, s'.owner[e.timer.id], s'.log) {
      RestartPassMembers(s.table, readings, s.clock, e);
      if e !in s.table {
        var o :| o in s.table && EndedRepeatable(o.timer) && e.timer == Renewed(o.timer, e.timer.start);
        RenewalAccounts(s, o, e.timer.start);
      }
    }
  }

  lemma FiringStep(s: State, step: Step)
    requires FiringInv(s) && Enabled(s, step)
    ensures FiringInv(Next(s, step))
  {
    TableStep(s, step);
    match step
    case Register(timer) => AddTimerKeepsFiring(s, timer);
    case RegisterNoLock(timer) => AddTimerKeepsFiring(s, timer);
    case Remove(id) => RemoveMembers(s.table, id);
    case RestartTimer(id) => RestartKeepsFiring(s, id);
    case TriggerPass => TriggerKeepsFiring(s);
    case RestartPass(readings) => RestartPassKeepsFiring(s, readings);
    case RemovePass => KeepMembers(s.table, NotEndedOneShot);
    case _ =>
  }

  lemma {:induction false} FiringRun(s: State, steps: seq<Step>)
    requires FiringInv(s) && ValidRun(s, steps)
    ensures FiringInv(Exec(s, steps))
    decreases |steps|
  {
    if steps == [] {
    } else {
      FiringStep(s, steps[0]);
      FiringRun(Next(s, steps[0]), steps[1..]);
    }
  }

  // Over any run, whatever registrations, removals and restarts are interleaved with the
  // passes: a callback runs only at a pass time strictly after the expiry its timer then
  // had; a one-shot registration runs at most once; two runs of a repeatable registration
  // are more than its duration apart.
  lemma FiringDiscipline(s: State, steps: seq<Step>)
    requires Init(s) && ValidRun(s, steps)
    ensures
      var log := Exec(s, steps).log;
      && (forall i | 0 <= i < |log| :: log[i].expiry < log[i].at <= Exec(s, steps).clock)
      && (forall i, j | 0 <= i < j < |log| && log[i].registration == log[j].registration ::
            log[i].repeatable && log[j].repeatable && log[i].at + log[j].duration < log[j].at)
  {
    FiringRun(s, steps);
  }
}
