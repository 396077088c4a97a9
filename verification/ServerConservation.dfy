// The outgoing pump and what stalls it, and conservation of messages over every run.

module ServerConservation {
  import opened Messages
  import opened Timers
  import opened TimerTable
  import opened TimerIds
  import opened ServerProtocol
  import opened ServerIndex

  // ---------------------------------------------------------------- the outgoing pump

  // One send at most is with the socket; the queue holds messages exactly while one is,
  // or for good after an error; sends start in the order of pushing.
  ghost predicate PumpInv(s: State) {
    && s.inFlight + s.failed <= 1
    && (s.queue != [] <==> s.inFlight + s.failed == 1)
    && s.pushed == s.started + Behind(s.queue)
  }

  lemma CompletedKeepsPump(s: State, ok: bool, now: int)
    requires PumpInv(s) && s.inFlight > 0 && s.queue != []
    ensures PumpInv(SendCompleted(s, ok, now))
  {
  }

  lemma PushKeepsPump(s: State, o: Outgoing, now: int)
    requires PumpInv(s)
    ensures PumpInv(Push(s, o, now))
  {
  }

  lemma FireKeepsPump(s: State, timer: TimerValue, endpoint: Option<nat>, now: int)
    requires PumpInv(s)
    ensures PumpInv(Fire(s, timer, endpoint, now))
  {
    if timer.callback.Resend? && endpoint.Some? {
      var parked := timer.callback.parked;
      var s1 := s.(timers := SetStatus(s.timers, timer.id, Running), index := s.index - {parked.transactionCode});
      var destination := Destination(parked.destination.serviceIdentifier, endpoint.value);
      PushKeepsPump(s1, Outgoing(destination, parked.message), now);
    }
  }

  lemma PumpStep(s: State, step: Step)
    requires PumpInv(s) && Enabled(s, step)
    ensures PumpInv(Next(s, step))
  {
    match step
    case Submit(request, endpoint, now) =>
      if endpoint.Some? {
        PushKeepsPump(s, Outgoing(Destination(request.serviceIdentifier, endpoint.value), request.message), now);
      }
    case Completed(ok, now) => CompletedKeepsPump(s, ok, now);
    case FireTimer(id, _, endpoint, now) => FireKeepsPump(s, Lookup(s.timers, id).value, endpoint, now);
    case _ =>
  }

  // Over every run: at most one send in flight; a completion never finds the queue empty;
  // the log of sends is a prefix of the log of pushes, short of it by what is queued.
  lemma {:induction false} PumpRun(s: State, steps: seq<Step>)
    requires PumpInv(s) && ValidRun(s, steps)
    ensures PumpInv(Exec(s, steps))
    ensures Exec(s, steps).inFlight <= 1
    ensures Exec(s, steps).inFlight > 0 ==> Exec(s, steps).queue != []
    ensures Exec(s, steps).started <= Exec(s, steps).pushed
    decreases |steps|
  {
    if steps == [] {
    } else {
      PumpStep(s, steps[0]);
      PumpRun(Next(s, steps[0]), steps[1..]);
    }
  }

  // Completions without errors and without new pushes empty the queue, in as many steps
  // as it is long, and start everything that was pushed.
  lemma {:induction false} Drains(s: State, nows: seq<int>)
    requires PumpInv(s) && IndexInv(s) && s.failed == 0 && |nows| == |s.queue|
    requires |s.timers| + |s.queue| <= MAX_UINT32
    ensures
      var steps := Completions(nows);
      ValidRun(s, steps) && Exec(s, steps).queue == [] && Exec(s, steps).inFlight == 0
      && Exec(s, steps).started == s.pushed
    decreases |nows|
  {
    var steps := Completions(nows);
    if nows == [] {
    } else {
      assert steps[0] == Completed(true, nows[0]) && steps[1..] == Completions(nows[1..]);
      var s1 := Next(s, steps[0]);
      CompletedKeepsPump(s, true, nows[0]);
      IndexStep(s, steps[0]);
      if |s.queue| > 1 {
        var s2 := s.(inFlight := s.inFlight - 1, queue := s.queue[1..]);
        var timer := ResendTimer(s2, s2.queue[0], FreshId(s.timers), nows[0]);
        InsertMembers(s.timers, Entry(timer.Expiry(), timer));
      }
      Drains(s1, nows[1..]);
    }
  }

  function Completions(nows: seq<int>): seq<Step> {
    seq(|nows|, i requires 0 <= i < |nows| => Completed(true, nows[i]))
  }

  // After a send error nothing is ever sent again.
  lemma {:induction false} StalledForever(s: State, steps: seq<Step>)
    requires PumpInv(s) && s.failed == 1 && ValidRun(s, steps)
    ensures Exec(s, steps).started == s.started && Exec(s, steps).failed == 1 && s.queue <= Exec(s, steps).queue
    decreases |steps|
  {
    if steps == [] {
    } else {
      PumpStep(s, steps[0]);
      StalledForever(Next(s, steps[0]), steps[1..]);
    }
  }

  predicate SendError(step: Step) { step.Completed? && !step.ok }

  // The pump is stalled if and only if some send so far was completed with an error.
  lemma {:induction false} StalledIff(s: State, steps: seq<Step>)
    requires PumpInv(s) && ValidRun(s, steps)
    ensures Exec(s, steps).failed == 1 <==> s.failed == 1 || exists step | step in steps :: SendError(step)
    decreases |steps|
  {
    if steps == [] {
    } else {
      PumpStep(s, steps[0]);
      FailsIff(s, steps[0]);
      StalledIff(Next(s, steps[0]), steps[1..]);
      assert forall step :: step in steps <==> step == steps[0] || step in steps[1..];
    }
  }

  lemma FailsIff(s: State, step: Step)
    requires PumpInv(s) && Enabled(s, step)
    ensures Next(s, step).failed == 1 <==> s.failed == 1 || SendError(step)
  {
  }

  // It comes to that: one submission and an error, and whatever follows, the message stays at
  // the front of the queue and nothing else is ever sent.
  lemma SendErrorStalls(s: State, r: Request, endpoint: nat, now: int, after: seq<Step>)
    requires Init(s)
    ensures
      var o := Outgoing(Destination(r.serviceIdentifier, endpoint), r.message);
      var steps := [Submit(r, Some(endpoint), now), Completed(false, now)];
      ValidRun(s, steps) &&
      var stalled := Exec(s, steps);
      && PumpInv(stalled) && stalled.failed == 1
      && (ValidRun(stalled, after) ==>
            [o] <= Exec(stalled, after).queue && Exec(stalled, after).started == [o])
  {
    var o := Outgoing(Destination(r.serviceIdentifier, endpoint), r.message);
    var s1 := Next(s, Submit(r, Some(endpoint), now));
    assert s1.queue == [o] && s1.started == [o] && s1.inFlight == 1;
    PumpStep(s, Submit(r, Some(endpoint), now));
    InsertMembers(s.timers, Entry(now + s.delay, ResendTimer(s, o, FreshId(s.timers), now)));
    var stalled := Next(s1, Completed(false, now));
    PumpStep(s1, Completed(false, now));
    TwoSteps(s, [Submit(r, Some(endpoint), now), Completed(false, now)], s1, stalled);
    if ValidRun(stalled, after) {
      StalledForever(stalled, after);
    }
  }

  // ---------------------------------------------------------------- conservation

  ghost predicate Conserved(s: State) {
    Pending(s) + multiset(s.acked) + multiset(s.dropped) == multiset(s.submitted)
  }

  lemma ArmPending(s: State, o: Outgoing, now: int)
    ensures multiset(Armed(StartTimerToResend(s, o, now).timers)) == multiset(Armed(s.timers)) + multiset{RequestOf(o)}
  {
    var timer := ResendTimer(s, o, FreshId(s.timers), now);
    ArmedInsert(s.timers, Entry(timer.Expiry(), timer));
    assert ArmedBy(timer) == [RequestOf(o)];
  }

  lemma PushPending(s: State, o: Outgoing, now: int)
    ensures Pending(Push(s, o, now)) == Pending(s) + multiset{RequestOf(o)}
  {
    if s.queue == [] {
      assert s.queue + [o] == [o] && Requests(Behind([o])) == [];
      ArmPending(s, o, now);
    } else {
      assert Requests(Behind(s.queue + [o])) == Requests(Behind(s.queue)) + [RequestOf(o)];
    }
  }

  // A completed send of the only message, or a failed one, leaves what is pending alone.
  lemma CompletedLastPending(s: State, ok: bool, now: int)
    requires s.inFlight > 0 && s.queue != [] && (ok ==> |s.queue| == 1)
    ensures Pending(SendCompleted(s, ok, now)) == Pending(s)
  {
    if ok {
      assert s.queue[1..] == [] && Behind(s.queue) == Behind([]);
    }
  }

  // The next message moves from the queue into its timer.
  lemma CompletedNextPending(s: State, now: int)
    requires s.inFlight > 0 && |s.queue| > 1
    ensures Pending(SendCompleted(s, true, now)) == Pending(s)
  {
    var rest := s.queue[1..];
    var s1 := s.(inFlight := s.inFlight - 1, queue := rest);
    ArmPending(s1, rest[0], now);
    FrontRequest(rest);
    assert SendCompleted(s, true, now).queue == rest && Behind(s.queue) == rest;
    assert SendCompleted(s, true, now).timers == StartTimerToResend(s1, rest[0], now).timers;
  }

  lemma FrontRequest(queue: seq<Outgoing>)
    requires queue != []
    ensures multiset(Requests(queue)) == multiset{RequestOf(queue[0])} + multiset(Requests(Behind(queue)))
  {
    assert Requests(queue) == [RequestOf(queue[0])] + Requests(Behind(queue));
  }

  lemma CompletedPending(s: State, ok: bool, now: int)
    requires s.inFlight > 0 && s.queue != []
    ensures Pending(SendCompleted(s, ok, now)) == Pending(s)
  {
    if ok && |s.queue| > 1 {
      CompletedNextPending(s, now);
    } else {
      CompletedLastPending(s, ok, now);
    }
  }

  lemma FireUserPending(s: State, timer: TimerValue)
    requires Lookup(s.timers, timer.id) == Some(timer) && timer.callback.UserCallback?
    ensures multiset(Armed(SetStatus(SetStatus(s.timers, timer.id, Running), timer.id, Ended)))
      == multiset(Armed(s.timers))
  {
    ArmedSetStatus(s.timers, timer.id, Running);
    LookupSetStatus(s.timers, timer.id, Running, timer.id);
    ArmedSetStatus(SetStatus(s.timers, timer.id, Running), timer.id, Ended);
  }

  // Setting the timer to running takes its copy out; the callback pushes it or drops it.
  lemma FireResendPending(s: State, timer: TimerValue, endpoint: Option<nat>, now: int)
    requires IndexInv(s) && HasFreeId(s)
    requires Lookup(s.timers, timer.id) == Some(timer) && timer.status == Waiting && timer.callback.Resend?
    ensures
      var request := ParkedRequest(timer.callback.parked);
      Pending(Fire(s, timer, endpoint, now)) + (if endpoint.Some? then multiset{} else multiset{request}) == Pending(s)
  {
    var parked := timer.callback.parked;
    var request := ParkedRequest(parked);
    var s1 := s.(timers := SetStatus(s.timers, timer.id, Running), index := s.index - {parked.transactionCode});
    ArmedSetStatus(s.timers, timer.id, Running);
    assert ArmedBy(timer) == [request];
    assert Pending(s) == Pending(s1) + multiset{request};
    FireKeepsLookup(s, s1, timer, endpoint, now);
    var s2 := SendRequest(s1, request, endpoint, now);
    if endpoint.Some? {
      var o := Outgoing(Destination(parked.destination.serviceIdentifier, endpoint.value), parked.message);
      PushPending(s1, o, now);
      assert Pending(s2) == Pending(s1) + multiset{request};
    }
    ArmedSetStatus(s2.timers, timer.id, Ended);
    assert ArmedBy(timer.(status := Running)) == [];
    assert multiset(Armed(SetStatus(s2.timers, timer.id, Ended))) == multiset(Armed(s2.timers));
  }

  lemma FireKeepsLookup(s: State, s1: State, timer: TimerValue, endpoint: Option<nat>, now: int)
    requires IndexInv(s) && HasFreeId(s) && Lookup(s.timers, timer.id) == Some(timer) && timer.callback.Resend?
    requires s1 == s.(timers := SetStatus(s.timers, timer.id, Running),
                      index := s.index - {timer.callback.parked.transactionCode})
    ensures Lookup(SendRequest(s1, ParkedRequest(timer.callback.parked), endpoint, now).timers, timer.id)
      == Some(timer.(status := Running))
  {
    UnnamedWithoutCode(s, timer);
    StatusKeepsIndex(s.(index := s1.index), timer.id, Running);
    LookupSetStatus(s.timers, timer.id, Running, timer.id);
    SetStatusKeeps(s.timers, timer.id, Running);
    RunningKeepsLookup(s1, ParkedRequest(timer.callback.parked), endpoint, now, timer.id);
  }

  lemma CacheStepPending(s: State, step: Step)
    requires IndexInv(s) && Enabled(s, step)
    requires step.RestartPass? || step.RemovePass? || step.UserRegister? || step.UserRemove? || step.UserRestart?
    ensures multiset(Armed(Next(s, step).timers)) == multiset(Armed(s.timers))
  {
    match step
    case RestartPass(readings) => RestartPassArmed(s.timers, readings);
    case RemovePass => ArmedKeep(s.timers, NotEndedOneShot);
    case UserRegister(timer) =>
      var registered := timer.(id := FreshId(s.timers));
      ArmedInsert(s.timers, Entry(registered.Expiry(), registered));
    case UserRemove(id) => ArmedRemove(s.timers, id);
    case UserRestart(id, now) => UserRestartArmed(s.timers, id, now);
  }

  lemma RestartPassArmed(t: Table, readings: seq<int>)
    requires TimersInv(t) && |readings| == |Keep(t, EndedRepeatable)|
    ensures multiset(Armed(RestartRepeatable(t, readings))) == multiset(Armed(t))
  {
    var again := Keep(t, EndedRepeatable);
    KeepMembers(t, EndedRepeatable);
    forall e | e in again ensures e.timer.callback.UserCallback? {
      assert e in t;
    }
    ArmedReinsert(Keep(t, NotEndedRepeatable), again, readings);
    ArmedKeep(t, NotEndedRepeatable);
  }

  lemma UserRestartArmed(t: Table, id: nat, now: int)
    requires UserOwned(t, id)
    ensures multiset(Armed(Restart(t, id, now))) == multiset(Armed(t))
  {
    ArmedRemove(t, id);
    if Lookup(t, id).Some? {
      var timer := Lookup(t, id).value.(start := now);
      ArmedInsert(RemoveId(t, id), Entry(timer.Expiry(), timer));
    }
  }

  lemma ResponsePending(s: State, success: bool, code: nat)
    requires IndexInv(s)
    ensures
      var s' := HandleResponse(s, success, code);
      Pending(s') + multiset(s'.acked) == Pending(s) + multiset(s.acked) && Pending(s') <= Pending(s)
  {
    if success && code in s.index {
      ArmedRemove(s.timers, s.index[code]);
    }
  }

  lemma SubmitConserves(s: State, request: Request, endpoint: Option<nat>, now: int)
    requires Conserved(s) && HasFreeId(s)
    ensures Conserved(Next(s, Submit(request, endpoint, now)))
  {
    if endpoint.Some? {
      var o := Outgoing(Destination(request.serviceIdentifier, endpoint.value), request.message);
      PushPending(s, o, now);
      assert RequestOf(o) == request;
    }
  }

  lemma FireLogs(s: State, timer: TimerValue, endpoint: Option<nat>, now: int)
    ensures
      var s' := Fire(s, timer, endpoint, now);
      && s'.submitted == s.submitted && s'.acked == s.acked
      && s'.dropped == s.dropped +
          if timer.callback.Resend? && endpoint.None? then [ParkedRequest(timer.callback.parked)] else []
  {
  }

  lemma FireConserves(s: State, step: Step)
    requires IndexInv(s) && Conserved(s) && step.FireTimer? && Enabled(s, step)
    ensures Conserved(Next(s, step))
  {
    LookupFound(s.timers, step.id);
    var timer := Lookup(s.timers, step.id).value;
    FireLogs(s, timer, step.endpoint, step.now);
    if timer.callback.Resend? {
      FireResendPending(s, timer, step.endpoint, step.now);
      FireResendConserves(s, Next(s, step), timer, step.endpoint);
    } else {
      FireUserPending(s, timer);
    }
  }

  // What a fired resend took from the pending messages is in the log of dropped ones.
  lemma FireResendConserves(s: State, s': State, timer: TimerValue, endpoint: Option<nat>)
    requires Conserved(s) && timer.callback.Resend? && s'.submitted == s.submitted && s'.acked == s.acked
    requires
      var request := ParkedRequest(timer.callback.parked);
      && Pending(s') + (if endpoint.Some? then multiset{} else multiset{request}) == Pending(s)
      && s'.dropped == s.dropped + if endpoint.None? then [request] else []
    ensures Conserved(s')
  {
    var request := ParkedRequest(timer.callback.parked);
    assert multiset(s'.dropped) == multiset(s.dropped) + if endpoint.Some? then multiset{} else multiset{request};
  }

  lemma ResponseConserves(s: State, success: bool, code: nat)
    requires IndexInv(s) && Conserved(s)
    ensures Conserved(HandleResponse(s, success, code))
  {
    ResponsePending(s, success, code);
  }

  lemma ConservationStep(s: State, step: Step)
    requires IndexInv(s) && Conserved(s) && Enabled(s, step)
    ensures Conserved(Next(s, step))
  {
    match step
    case Submit(request, endpoint, now) => SubmitConserves(s, request, endpoint, now);
    case Completed(ok, now) => CompletedPending(s, ok, now);
    case Response(success, code) => ResponseConserves(s, success, code);
    case FireTimer(_, _, _, _) => FireConserves(s, step);
    case _ => CacheStepPending(s, step);
  }

  lemma {:induction false} ConservationRun(s: State, steps: seq<Step>)
    requires IndexInv(s) && Conserved(s) && ValidRun(s, steps)
    ensures IndexInv(Exec(s, steps)) && Conserved(Exec(s, steps))
    decreases |steps|
  {
    if steps == [] {
    } else {
      ConservationStep(s, steps[0]);
      IndexStep(s, steps[0]);
      ConservationRun(Next(s, steps[0]), steps[1..]);
    }
  }

  // In every reachable state, whatever codes collide: the messages queued behind the front
  // and those parked in waiting resend timers are together exactly the submitted ones less
  // the acknowledged ones and those dropped for want of an endpoint.
  lemma Conservation(s: State, steps: seq<Step>)
    requires Init(s) && ValidRun(s, steps)
    ensures
      var r := Exec(s, steps);
      multiset(Requests(Behind(r.queue))) + multiset(Armed(r.timers))
        == multiset(r.submitted) - multiset(r.acked) - multiset(r.dropped)
    ensures
      var r := Exec(s, steps);
      multiset(r.acked) + multiset(r.dropped) <= multiset(r.submitted)
  {
    ConservationRun(s, steps);
  }
}
