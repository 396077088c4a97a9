// `timersLock` as the code takes it: not re-entrant, and held by a trigger pass while it
// waits for each callback. Meanwhile the other threads of the server go on as far as they
// get without the lock. When a pass comes to its end, and what happens otherwise.

module CacheLock {
  import opened Messages
  import opened Timers
  import opened TimerTable
  import opened TimerPass
  import opened TimerIds
  import P = ServerProtocol
  import C = ServerConservation

  // The callback that the pass is waiting for.
  datatype Current =
    | Idle
    | InCallback(timer: TimerValue)
    | WaitingForLock(timer: TimerValue)
    | Returned(timer: TimerValue)

  datatype State = State(
    server: P.State,
    held: bool,                 // the pass holds the lock
    due: seq<TimerValue>,       // the timers whose callbacks the pass has still to run
    current: Current,
    arming: bool,               // another thread waits for the lock to arm the timer of the front
    services: map<nat, nat>,    // what lookups find while the pass runs
    reentrant: set<int>)        // the callbacks of other users that call back into the cache

  // A pass that has just taken the lock.
  function PassStart(server: P.State, timePoint: int, arming: bool, services: map<nat, nat>,
                     reentrant: set<int>): State {
    State(server, true, Fired(server.timers, timePoint), Idle, arming, services, reentrant)
  }

  datatype Step =
    // the timers thread and the thread that runs the callback for it
    | StartCallback | RunCallback | CallbackTakesLock(now: int) | JoinCallback | EndPass
    // the other threads: a submission and a completion as far as the registration of the
    // resend timer, that registration, and the steps that begin by taking the lock
    | Submission(request: P.Request, endpoint: nat)
    | Completion(ok: bool)
    | Arm(now: int)
    | Locked(step: P.Step)

  predicate PassStep(step: Step) {
    step.StartCallback? || step.RunCallback? || step.CallbackTakesLock? || step.JoinCallback? || step.EndPass?
  }

  ghost predicate Enabled(s: State, step: Step) {
    match step
    case StartCallback => s.held && s.current.Idle? && s.due != []
    case RunCallback => s.current.InCallback?
    case CallbackTakesLock(_) => s.current.WaitingForLock? && !s.held
    case JoinCallback => s.current.Returned?
    case EndPass => s.held && s.current.Idle? && s.due == []
    case Submission(_, _) => true
    case Completion(_) => s.server.inFlight > 0 && s.server.queue != []
    case Arm(_) => s.arming && !s.held && s.server.queue != []
    case Locked(step) => !s.held && P.Enabled(s.server, step)
  }

  function EndpointOf(s: State, parked: ParkedMessage): Option<nat> {
    var identifier := parked.destination.serviceIdentifier;
    if identifier in s.services then Some(s.services[identifier]) else None
  }

  function OutgoingFor(request: P.Request, endpoint: nat): P.Outgoing {
    P.Outgoing(Destination(request.serviceIdentifier, endpoint), request.message)
  }

  // Whether the callback comes to take the lock if it runs now: a resend that finds an
  // endpoint and no other message queued, or a callback known to call back.
  predicate TakesLock(s: State, timer: TimerValue) {
    match timer.callback
    case Resend(parked) => P.StartsNow(s.server, EndpointOf(s, parked))
    case UserCallback(tag) => tag in s.reentrant
  }

  // The callback of a resend timer, as far as the registration of the new one.
  function BeginResend(s: State, parked: ParkedMessage): P.State {
    var s1 := s.server.(index := s.server.index - {parked.transactionCode});
    match EndpointOf(s, parked)
    case None => s1.(dropped := s1.dropped + [P.ParkedRequest(parked)])
    case Some(endpoint) => P.Enqueue(s1, OutgoingFor(P.ParkedRequest(parked), endpoint))
  }

  function WithStatus(s: State, timer: TimerValue, status: ActionStatus): P.State {
    s.server.(timers := SetStatus(s.server.timers, timer.id, status))
  }

  function RunCurrent(s: State): State
    requires s.current.InCallback?
  {
    var timer := s.current.timer;
    var s1 := if timer.callback.Resend? then s.(server := BeginResend(s, timer.callback.parked)) else s;
    s1.(current := if TakesLock(s, timer) then WaitingForLock(timer) else Returned(timer))
  }

  ghost function Next(s: State, step: Step): State
    requires Enabled(s, step)
  {
    match step
    case StartCallback =>
      s.(server := WithStatus(s, s.due[0], Running), current := InCallback(s.due[0]), due := s.due[1..])
    case RunCallback => RunCurrent(s)
    case CallbackTakesLock(now) =>
      var resend := s.current.timer.callback.Resend? && s.server.queue != [];
      s.(server := if resend then P.Send(s.server, now) else s.server, current := Returned(s.current.timer))
    case JoinCallback => s.(server := WithStatus(s, s.current.timer, Ended), current := Idle)
    case EndPass => s.(held := false)
    case Submission(request, endpoint) =>
      s.(server := P.Enqueue(s.server, OutgoingFor(request, endpoint)), arming := s.arming || s.server.queue == [])
    case Completion(ok) =>
      s.(server := P.EndSend(s.server, ok), arming := s.arming || (ok && |s.server.queue| > 1))
    case Arm(now) => s.(server := P.Send(s.server, now), arming := false)
    case Locked(step) => s.(server := P.Next(s.server, step))
  }

  ghost predicate ValidRun(s: State, steps: seq<Step>)
    decreases |steps|
  {
    steps != [] ==> Enabled(s, steps[0]) && ValidRun(Next(s, steps[0]), steps[1..])
  }

  ghost function Exec(s: State, steps: seq<Step>): State
    requires ValidRun(s, steps)
    decreases |steps|
  {
    if steps == [] then s else Exec(Next(s, steps[0]), steps[1..])
  }

  lemma RunPrepend(s: State, step: Step, rest: seq<Step>)
    requires Enabled(s, step) && ValidRun(Next(s, step), rest)
    ensures ValidRun(s, [step] + rest) && Exec(s, [step] + rest) == Exec(Next(s, step), rest)
  {
    assert ([step] + rest)[1..] == rest;
  }

  // ---------------------------------------------------------------- the steps of the server, taken apart

  // What is left of a submission or a completion once the lock is free.
  ghost predicate Finishes(s1: State, now: int, whole: P.State)
    requires s1.arming ==> s1.server.queue != []
  {
    if !s1.arming then s1.server == whole
    else !s1.held ==> Enabled(s1, Arm(now)) && Next(s1, Arm(now)).server == whole
  }

  // A submission, and the registration it may have to wait for, are the step of the server.
  lemma SubmissionIsSubmit(s: State, request: P.Request, endpoint: nat, now: int)
    requires !s.arming
    ensures
      var s1 := Next(s, Submission(request, endpoint));
      && (s1.arming <==> s.server.queue == [])
      && Finishes(s1, now, P.SendRequest(s.server, request, Some(endpoint), now))
  {
  }

  lemma CompletionIsCompleted(s: State, ok: bool, now: int)
    requires !s.arming && Enabled(s, Completion(ok))
    ensures
      var s1 := Next(s, Completion(ok));
      && (s1.arming <==> ok && |s.server.queue| > 1)
      && Finishes(s1, now, P.SendCompleted(s.server, ok, now))
  {
  }

  // A callback that does not take the lock, with nothing in between, is the firing step, with
  // the endpoint that a lookup of its service finds.
  lemma CallbackIsFire(s: State, now: int)
    requires Enabled(s, StartCallback) && !TakesLock(s, s.due[0])
    ensures
      var s1 := Next(s, StartCallback);
      var s2 := Next(s1, RunCallback);
      s2.current == Returned(s.due[0]) && Next(s2, JoinCallback).server == P.Fire(s.server, s.due[0],
        if s.due[0].callback.UserCallback? then None
        else if s.due[0].callback.parked.destination.serviceIdentifier !in s.services then None
        else Some(s.services[s.due[0].callback.parked.destination.serviceIdentifier]), now)
  {
  }

  // With the lock free, a resend callback that needs it would do what the protocol's does.
  lemma WithTheLockItResends(s: State, now: int)
    requires s.current.InCallback? && s.current.timer.callback.Resend? && TakesLock(s, s.current.timer)
    ensures
      var free := Next(s, RunCallback).(held := false);
      var parked := s.current.timer.callback.parked;
      Enabled(free, CallbackTakesLock(now)) &&
      Next(free, CallbackTakesLock(now)).server == P.ResendCallback(s.server, parked,
        Some(s.services[parked.destination.serviceIdentifier]), now)
  {
  }

  function Lifted(steps: seq<P.Step>): seq<Step> {
    if steps == [] then [] else [Locked(steps[0])] + Lifted(steps[1..])
  }

  // When the pass has released the lock, every run of the protocol goes on from there.
  lemma {:induction false} ReleasedRun(s: State, steps: seq<P.Step>)
    requires !s.held && P.ValidRun(s.server, steps)
    ensures ValidRun(s, Lifted(steps)) && Exec(s, Lifted(steps)).server == P.Exec(s.server, steps)
    decreases |steps|
  {
    if steps == [] {
    } else {
      ReleasedRun(Next(s, Locked(steps[0])), steps[1..]);
      RunPrepend(s, Locked(steps[0]), Lifted(steps[1..]));
    }
  }

  // The resend callback registers a timer, under the lock, exactly when its lookup succeeds
  // and nothing else is queued.
  lemma ResendRegistersIff(s: P.State, parked: ParkedMessage, endpoint: Option<nat>, now: int)
    ensures P.ResendCallback(s, parked, endpoint, now).timers != s.timers <==> endpoint.Some? && s.queue == []
  {
    if endpoint.Some? && s.queue == [] {
      var o := P.Outgoing(Destination(parked.destination.serviceIdentifier, endpoint.value), parked.message);
      var timer := P.ResendTimer(s, o, FreshId(s.timers), now);
      InsertMembers(s.timers, Entry(timer.Expiry(), timer));
      assert |InsertTimer(s.timers, timer)| == |s.timers| + 1;
    }
  }

  // ---------------------------------------------------------------- what is still to be run

  lemma {:induction false} FiredRest(t: Table, timePoint: int, status: ActionStatus)
    requires DistinctIds(t) && Fired(t, timePoint) != [] && status != Waiting
    ensures Fired(SetStatus(t, Fired(t, timePoint)[0].id, status), timePoint) == Fired(t, timePoint)[1..]
  {
    if t[0].timer.Due(timePoint) {
    } else {
      FiredRest(t[1..], timePoint, status);
      FiredMembers(t[1..], timePoint, Fired(t, timePoint)[0]);
      assert Fired(t, timePoint)[0].id in Ids(t[1..]);
    }
  }

  lemma {:induction false} FiredSame(t: Table, timePoint: int, id: nat, status: ActionStatus)
    requires Lookup(t, id).Some? && Lookup(t, id).value.status != Waiting && status != Waiting
    ensures Fired(SetStatus(t, id, status), timePoint) == Fired(t, timePoint)
  {
    if t[0].timer.id == id {
    } else {
      FiredSame(t[1..], timePoint, id, status);
    }
  }

  // The callbacks the pass has still to run, against the table.
  ghost predicate DueInv(s: State, timePoint: int) {
    s.held ==>
      && WellFormed(s.server.timers) && s.due == Fired(s.server.timers, timePoint)
      && (!s.current.Idle? ==>
            Lookup(s.server.timers, s.current.timer.id).Some?
            && Lookup(s.server.timers, s.current.timer.id).value.status == Running)
  }

  lemma DueStep(s: State, step: Step, timePoint: int)
    requires DueInv(s, timePoint) && Enabled(s, step)
    ensures DueInv(Next(s, step), timePoint)
  {
    if s.held {
      match step
      case StartCallback =>
        var timer := s.due[0];
        FiredRest(s.server.timers, timePoint, Running);
        SetStatusKeeps(s.server.timers, timer.id, Running);
        FiredLookup(s.server.timers, timePoint, timer);
        LookupSetStatus(s.server.timers, timer.id, Running, timer.id);
      case JoinCallback =>
        FiredSame(s.server.timers, timePoint, s.current.timer.id, Ended);
        SetStatusKeeps(s.server.timers, s.current.timer.id, Ended);
      case _ =>
    }
  }

  // Whatever the other threads do meanwhile: until the pass ends, the callbacks it has still
  // to run are exactly those of the timers that are waiting and due in the cache.
  lemma {:induction false} DueIsFired(s: State, steps: seq<Step>, timePoint: int)
    requires DueInv(s, timePoint) && ValidRun(s, steps)
    ensures DueInv(Exec(s, steps), timePoint)
    decreases |steps|
  {
    if steps == [] {
    } else {
      DueStep(s, steps[0], timePoint);
      DueIsFired(Next(s, steps[0]), steps[1..], timePoint);
    }
  }

  // ---------------------------------------------------------------- a pass that waits for itself

  predicate Stuck(s: State) { s.held && s.current.WaitingForLock? }

  // Once a callback waits for the lock of its own pass, the pass has no step left, whatever
  // the other threads do; no timer changes and no message is ever sent again.
  lemma {:induction false} StuckForever(s: State, steps: seq<Step>)
    requires Stuck(s) && ValidRun(s, steps)
    ensures
      var r := Exec(s, steps);
      && Stuck(r) && r.server.timers == s.server.timers && r.server.started == s.server.started
      && forall step | PassStep(step) :: !Enabled(r, step)
    decreases |steps|
  {
    if steps == [] {
    } else {
      StuckForever(Next(s, steps[0]), steps[1..]);
    }
  }

  predicate Reenters(s: State, timer: TimerValue) {
    timer.callback.UserCallback? && timer.callback.tag in s.reentrant
  }

  // A callback that is known to call back is still to come, or has come to wait.
  predicate Doomed(s: State) {
    s.held && (s.current.WaitingForLock? || (s.current.InCallback? && Reenters(s, s.current.timer))
               || exists timer | timer in s.due :: Reenters(s, timer))
  }

  lemma DoomedStep(s: State, step: Step)
    requires Doomed(s) && Enabled(s, step)
    ensures Doomed(Next(s, step))
  {
    if step.StartCallback? {
      assert s.due == [s.due[0]] + s.due[1..];
    }
  }

  lemma {:induction false} DoomedRun(s: State, steps: seq<Step>)
    requires Doomed(s) && ValidRun(s, steps)
    ensures Doomed(Exec(s, steps))
    decreases |steps|
  {
    if steps == [] {
    } else {
      DoomedStep(s, steps[0]);
      DoomedRun(Next(s, steps[0]), steps[1..]);
    }
  }

  // ---------------------------------------------------------------- how many steps a pass takes

  function Remaining(s: State): nat {
    if !s.held then 0
    else 3 * |s.due| + 1 + (if s.current.Idle? then 0 else if s.current.InCallback? then 2 else 1)
  }

  function PassSteps(steps: seq<Step>): nat {
    if steps == [] then 0 else (if PassStep(steps[0]) then 1 else 0) + PassSteps(steps[1..])
  }

  predicate WellPlaced(s: State) { !s.held ==> s.current.Idle? }

  lemma RemainingStep(s: State, step: Step)
    requires WellPlaced(s) && Enabled(s, step)
    ensures WellPlaced(Next(s, step))
    ensures Remaining(Next(s, step)) + (if PassStep(step) then 1 else 0) <= Remaining(s)
  {
  }

  // No other thread adds to what a pass has to do: it takes at most three steps for each
  // callback and one more.
  lemma {:induction false} PassIsBounded(s: State, steps: seq<Step>)
    requires WellPlaced(s) && ValidRun(s, steps)
    ensures WellPlaced(Exec(s, steps)) && PassSteps(steps) + Remaining(Exec(s, steps)) <= Remaining(s)
    decreases |steps|
  {
    if steps == [] {
    } else {
      RemainingStep(s, steps[0]);
      PassIsBounded(Next(s, steps[0]), steps[1..]);
    }
  }

  // ---------------------------------------------------------------- a pass that ends in every interleaving

  // The queue cannot run empty while the pass holds the lock: a send that completes is
  // followed by another only after its timer is armed.
  predicate CannotDrain(server: P.State) { |server.queue| >= 2 || (server.queue != [] && server.inFlight == 0) }

  predicate Harmless(s: State, timer: TimerValue) {
    match timer.callback
    case Resend(parked) => EndpointOf(s, parked).None? || CannotDrain(s.server)
    case UserCallback(tag) => tag !in s.reentrant
  }

  // What a caller can check when the pass begins.
  predicate SafeToTrigger(s: State) { forall timer | timer in s.due :: Harmless(s, timer) }

  predicate SafeInv(s: State) {
    s.held ==>
      && s.server.inFlight <= 1 && SafeToTrigger(s)
      && !s.current.WaitingForLock? && (s.current.InCallback? ==> Harmless(s, s.current.timer))
  }

  // Nothing the pass or another thread does makes a harmless callback take the lock.
  lemma SafeStep(s: State, step: Step)
    requires SafeInv(s) && Enabled(s, step)
    ensures SafeInv(Next(s, step))
  {
    if s.held {
      var s' := Next(s, step);
      assert CannotDrain(s.server) ==> CannotDrain(s'.server);
      assert step.StartCallback? ==> s.due[0] in s.due;
      forall timer | timer in s'.due ensures Harmless(s', timer) {
        assert timer in s.due;
      }
    }
  }

  lemma {:induction false} SafeRun(s: State, steps: seq<Step>)
    requires SafeInv(s) && ValidRun(s, steps)
    ensures SafeInv(Exec(s, steps))
    decreases |steps|
  {
    if steps == [] {
    } else {
      SafeStep(s, steps[0]);
      SafeRun(Next(s, steps[0]), steps[1..]);
    }
  }

  ghost predicate CanGoOn(s: State) {
    !s.held || exists step :: PassStep(step) && Enabled(s, step)
  }

  lemma GoesOnUnlessStuck(s: State)
    ensures CanGoOn(s) <==> !Stuck(s)
  {
    var step :=
      match s.current
      case Idle => if s.due == [] then EndPass else StartCallback
      case InCallback(_) => RunCallback
      case WaitingForLock(_) => CallbackTakesLock(0)
      case Returned(_) => JoinCallback;
    if s.held && !s.current.WaitingForLock? {
      assert PassStep(step) && Enabled(s, step);
    }
  }

  // In no interleaving does the pass come to a point before its end where it has no step to
  // take; since its steps are bounded, it ends.
  ghost predicate AlwaysEnds(s: State) {
    forall steps | ValidRun(s, steps) :: CanGoOn(Exec(s, steps))
  }

  // One harmless callback from its start to its end.
  lemma HarmlessCallback(s: State) returns (s': State)
    requires s.held && s.current.Idle? && s.due != [] && !TakesLock(s, s.due[0])
    ensures s'.held && s'.current.Idle? && s'.due == s.due[1..]
    ensures s'.services == s.services && s'.reentrant == s.reentrant && s'.server.inFlight == s.server.inFlight
    ensures s.server.queue <= s'.server.queue
    ensures s.due[0].callback.UserCallback? || EndpointOf(s, s.due[0].callback.parked).None?
      ==> s'.server.queue == s.server.queue
    ensures s.server.queue == [] ==> s'.server.queue == []
    ensures forall rest | ValidRun(s', rest) ::
      var steps := [StartCallback] + ([RunCallback] + ([JoinCallback] + rest));
      ValidRun(s, steps) && Exec(s, steps) == Exec(s', rest)
  {
    var s1 := Next(s, StartCallback);
    var s2 := Next(s1, RunCallback);
    s' := Next(s2, JoinCallback);
    forall rest | ValidRun(s', rest)
      ensures
        var steps := [StartCallback] + ([RunCallback] + ([JoinCallback] + rest));
        ValidRun(s, steps) && Exec(s, steps) == Exec(s', rest)
    {
      RunPrepend(s2, JoinCallback, rest);
      RunPrepend(s1, RunCallback, [JoinCallback] + rest);
      RunPrepend(s, StartCallback, [RunCallback] + ([JoinCallback] + rest));
    }
  }

  lemma LockingCallback(s: State)
    requires s.held && s.current.Idle? && s.due != [] && TakesLock(s, s.due[0])
    ensures ValidRun(s, [StartCallback, RunCallback]) && Stuck(Exec(s, [StartCallback, RunCallback]))
  {
    var s1 := Next(s, StartCallback);
    RunPrepend(s1, RunCallback, []);
    RunPrepend(s, StartCallback, [RunCallback] + []);
    assert [StartCallback, RunCallback] == [StartCallback] + ([RunCallback] + []);
  }

  // With a callback that is not harmless ahead there is an interleaving in which the pass
  // waits for itself: if need be, the last queued message is sent just before the callback.
  lemma {:induction false} StuckRun(s: State) returns (steps: seq<Step>)
    requires s.held && s.current.Idle? && !SafeToTrigger(s)
    ensures ValidRun(s, steps) && Stuck(Exec(s, steps))
    decreases |s.due|
  {
    var bad :| bad in s.due && !Harmless(s, bad);
    if TakesLock(s, s.due[0]) {
      LockingCallback(s);
      steps := [StartCallback, RunCallback];
    } else if !Harmless(s, s.due[0]) {
      var s1 := Next(s, Completion(true));
      LockingCallback(s1);
      RunPrepend(s, Completion(true), [StartCallback, RunCallback]);
      steps := [Completion(true)] + [StartCallback, RunCallback];
    } else {
      var s1 := HarmlessCallback(s);
      assert bad in s1.due && !Harmless(s1, bad);
      var rest := StuckRun(s1);
      steps := [StartCallback] + ([RunCallback] + ([JoinCallback] + rest));
    }
  }

  // A trigger pass ends in every interleaving with the other threads if and only if no due
  // callback calls back into the cache and, unless no due resend finds an endpoint, the
  // outgoing queue cannot run empty.
  lemma AlwaysEndsIff(s: State)
    requires s.held && s.current.Idle? && s.server.inFlight <= 1
    ensures AlwaysEnds(s) <==> SafeToTrigger(s)
  {
    if SafeToTrigger(s) {
      forall steps | ValidRun(s, steps) ensures CanGoOn(Exec(s, steps)) {
        SafeRun(s, steps);
        GoesOnUnlessStuck(Exec(s, steps));
      }
    } else {
      var steps := StuckRun(s);
      GoesOnUnlessStuck(Exec(s, steps));
    }
  }

  // The same for a pass over any reachable state of the server.
  lemma TriggerAlwaysEndsIff(s: P.State, steps: seq<P.Step>, timePoint: int, services: map<nat, nat>,
                             reentrant: set<int>)
    requires P.Init(s) && P.ValidRun(s, steps)
    ensures
      var server := P.Exec(s, steps);
      var start := PassStart(server, timePoint, false, services, reentrant);
      AlwaysEnds(start) <==>
        && (forall timer | timer in Fired(server.timers, timePoint) && timer.callback.UserCallback? ::
              timer.callback.tag !in reentrant)
        && ((forall timer | timer in Fired(server.timers, timePoint) && timer.callback.Resend? ::
               timer.callback.parked.destination.serviceIdentifier !in services)
            || |server.queue| >= 2 || server.failed == 1)
  {
    C.PumpRun(s, steps);
    var server := P.Exec(s, steps);
    AlwaysEndsIff(PassStart(server, timePoint, false, services, reentrant));
    assert CannotDrain(server) <==> |server.queue| >= 2 || server.failed == 1;
  }

  // ---------------------------------------------------------------- a pass that ends in some interleaving

  ghost predicate CanEnd(s: State) {
    exists steps :: ValidRun(s, steps) && !Exec(s, steps).held
  }

  // Left alone, a pass whose callbacks do not take the lock ends.
  lemma {:induction false} FinishingRun(s: State) returns (steps: seq<Step>)
    requires s.held && s.current.Idle? && forall timer | timer in s.due :: !TakesLock(s, timer)
    ensures ValidRun(s, steps) && !Exec(s, steps).held && forall step | step in steps :: PassStep(step)
    decreases |s.due|
  {
    if s.due == [] {
      steps := [EndPass] + [];
      RunPrepend(s, EndPass, []);
    } else {
      var s1 := HarmlessCallback(s);
      forall timer | timer in s1.due ensures !TakesLock(s1, timer) {
        assert timer in s.due;
      }
      var rest := FinishingRun(s1);
      steps := [StartCallback] + ([RunCallback] + ([JoinCallback] + rest));
    }
  }

  // In some interleaving a pass ends if and only if no due callback calls back into the cache:
  // a submission in time keeps the resends from the lock.
  lemma CanEndIff(s: State)
    requires s.held && s.current.Idle?
    ensures CanEnd(s) <==> forall timer | timer in s.due :: !Reenters(s, timer)
  {
    if exists timer | timer in s.due :: Reenters(s, timer) {
      forall steps | ValidRun(s, steps) ensures Exec(s, steps).held {
        DoomedRun(s, steps);
      }
    } else {
      var submission := Submission(P.Request(0, Message(0, "")), 0);
      var s1 := Next(s, submission);
      forall timer | timer in s1.due ensures !TakesLock(s1, timer) {
        assert !Reenters(s, timer);
      }
      var rest := FinishingRun(s1);
      RunPrepend(s, submission, rest);
    }
  }

  // Without the other threads: the callback that would take the lock stays, or has come.
  predicate BlocksAlone(s: State) {
    s.held && (s.current.WaitingForLock? || (s.current.InCallback? && TakesLock(s, s.current.timer))
               || exists timer | timer in s.due :: TakesLock(s, timer))
  }

  lemma {:induction false} BlockedAlone(s: State, steps: seq<Step>)
    requires BlocksAlone(s) && ValidRun(s, steps) && forall step | step in steps :: PassStep(step)
    ensures BlocksAlone(Exec(s, steps))
    decreases |steps|
  {
    if steps == [] {
    } else {
      assert steps[0] in steps && forall step | step in steps[1..] :: step in steps;
      BlockedAloneStep(s, steps[0]);
      BlockedAlone(Next(s, steps[0]), steps[1..]);
    }
  }

  lemma BlockedAloneStep(s: State, step: Step)
    requires BlocksAlone(s) && Enabled(s, step) && PassStep(step)
    ensures BlocksAlone(Next(s, step))
  {
    var s' := Next(s, step);
    match step
    case StartCallback =>
      assert s.due == [s.due[0]] + s.due[1..];
      SameLocks(s, s');
    case RunCallback =>
      if !TakesLock(s, s.current.timer) {
        SameLocks(s, s');
      }
    case _ => SameLocks(s, s');
  }

  lemma SameLocks(s: State, s': State)
    requires s'.services == s.services && s'.reentrant == s.reentrant
    requires s'.server.queue == [] <==> s.server.queue == []
    ensures forall timer :: TakesLock(s', timer) <==> TakesLock(s, timer)
  {
  }

  // If no other thread acts meanwhile, a pass can end if and only if, when it begins, no due
  // callback would take the lock.
  lemma TriggerFinishesIff(s: State)
    requires s.held && s.current.Idle?
    ensures
      (exists steps :: ValidRun(s, steps) && !Exec(s, steps).held && forall step | step in steps :: PassStep(step))
        <==> forall timer | timer in s.due :: !TakesLock(s, timer)
  {
    if exists timer | timer in s.due :: TakesLock(s, timer) {
      forall steps | ValidRun(s, steps) && forall step | step in steps :: PassStep(step) ensures Exec(s, steps).held {
        BlockedAlone(s, steps);
      }
    } else {
      var steps := FinishingRun(s);
    }
  }

  // ---------------------------------------------------------------- it comes to that

  // One message submitted and sent but not answered, and no other traffic: its resend finds
  // the endpoint and an empty queue, and the pass waits for itself.
  lemma ResendDeadlocks(s: P.State, r: P.Request, endpoint: nat, timePoint: int)
    requires P.Init(s) && s.delay < timePoint
    ensures
      var steps := [P.Submit(r, Some(endpoint), 0), P.Completed(true, 0)];
      P.ValidRun(s, steps) &&
      var start := PassStart(P.Exec(s, steps), timePoint, false, map[r.serviceIdentifier := endpoint], {});
      ValidRun(start, [StartCallback, RunCallback]) && Stuck(Exec(start, [StartCallback, RunCallback]))
  {
    FreshIdIsLeast([]);
    var timer := P.ResendTimer(s, OutgoingFor(r, endpoint), 1, 0);
    var s1 := P.Next(s, P.Submit(r, Some(endpoint), 0));
    assert s1.queue == [OutgoingFor(r, endpoint)] && s1.timers == [Entry(s.delay, timer)];
    var s2 := P.Next(s1, P.Completed(true, 0));
    assert s2.queue == [] && s2.timers == s1.timers;
    P.TwoSteps(s, [P.Submit(r, Some(endpoint), 0), P.Completed(true, 0)], s1, s2);
    assert Fired(s2.timers, timePoint) == [timer] + Fired(s2.timers[1..], timePoint);
    LockingCallback(PassStart(s2, timePoint, false, map[r.serviceIdentifier := endpoint], {}));
  }
}
