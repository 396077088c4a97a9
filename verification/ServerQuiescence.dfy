// What transaction codes guarantee: nothing is sent again after an acknowledgement of a
// code used once; and exactly when every armed timer can be cancelled.

module ServerQuiescence {
  import opened Messages
  import opened Timers
  import opened TimerTable
  import opened TimerPass
  import opened TimerIds
  import opened ServerProtocol
  import opened ServerIndex
  import opened ServerConservation

  function Code(r: Request): nat { r.message.transactionCode }

  // ---------------------------------------------------------------- every send arms a timer

  lemma SendArms(s: State, o: Outgoing, now: int)
    ensures RequestOf(o) in multiset(Armed(StartTimerToResend(s, o, now).timers))
  {
    ArmPending(s, o, now);
  }

  // The logs only grow, and a send that starts in a step leaves its request armed.
  lemma StartedStep(s: State, step: Step)
    requires IndexInv(s) && Enabled(s, step)
    ensures
      var s' := Next(s, step);
      && s.submitted <= s'.submitted && s.acked <= s'.acked
      && (s'.started == s.started || exists o :: s'.started == s.started + [o] && RequestOf(o) in Pending(s'))
  {
    match step
    case Submit(request, endpoint, now) =>
      if endpoint.Some? && s.queue == [] {
        var o := Outgoing(Destination(request.serviceIdentifier, endpoint.value), request.message);
        SendArms(s, o, now);
        assert Next(s, step).started == s.started + [o];
      }
    case Completed(ok, now) =>
      if ok && |s.queue| > 1 {
        SendArms(s, s.queue[1], now);
        assert Next(s, step).started == s.started + [s.queue[1]];
      }
    case FireTimer(id, _, endpoint, now) => FireStarts(s, step);
    case _ =>
  }

  lemma FireStarts(s: State, step: Step)
    requires IndexInv(s) && step.FireTimer? && Enabled(s, step)
    ensures
      var s' := Next(s, step);
      s'.started == s.started || exists o :: s'.started == s.started + [o] && RequestOf(o) in Pending(s')
  {
    LookupFound(s.timers, step.id);
    var timer := Lookup(s.timers, step.id).value;
    if timer.callback.Resend? && step.endpoint.Some? && s.queue == [] {
      var parked := timer.callback.parked;
      var o := Outgoing(Destination(parked.destination.serviceIdentifier, step.endpoint.value), parked.message);
      var s1 := s.(timers := SetStatus(s.timers, timer.id, Running), index := s.index - {parked.transactionCode});
      var s2 := Push(s1, o, step.now);
      SendArms(s1, o, step.now);
      FireKeepsLookup(s, s1, timer, step.endpoint, step.now);
      ArmedSetStatus(s2.timers, timer.id, Ended);
      assert Next(s, step).started == s.started + [o];
    }
  }

  // Everything ever sent is a submitted message for the submitted service.
  lemma {:induction false} SendsAreSubmitted(s: State, steps: seq<Step>)
    requires IndexInv(s) && Conserved(s) && ValidRun(s, steps)
    requires forall o | o in s.started :: RequestOf(o) in s.submitted
    ensures forall o | o in Exec(s, steps).started :: RequestOf(o) in Exec(s, steps).submitted
    decreases |steps|
  {
    if steps == [] {
    } else {
      var s' := Next(s, steps[0]);
      StartedStep(s, steps[0]);
      ConservationStep(s, steps[0]);
      IndexStep(s, steps[0]);
      forall o | o in s'.started ensures RequestOf(o) in s'.submitted {
        if o in s.started {
          assert RequestOf(o) in s.submitted;
        } else {
          PendingWasSubmitted(s', RequestOf(o));
        }
      }
      SendsAreSubmitted(s', steps[1..]);
    }
  }

  lemma PendingWasSubmitted(s: State, r: Request)
    requires Conserved(s) && r in Pending(s)
    ensures r in s.submitted
  {
    assert r in multiset(s.submitted);
  }

  // ---------------------------------------------------------------- quiescence

  // `r` was submitted at most once and no other request had its code.
  predicate OnlyUse(submitted: seq<Request>, r: Request) {
    multiset(submitted)[r] <= 1 && forall x | x in submitted :: Code(x) == Code(r) ==> x == r
  }

  lemma OnlyUseEarlier(shorter: seq<Request>, longer: seq<Request>, r: Request)
    requires shorter <= longer && OnlyUse(longer, r)
    ensures OnlyUse(shorter, r)
  {
    assert longer == shorter + longer[|shorter|..];
  }

  // Of a code used once there is at most one pending copy, and none once it is acknowledged.
  lemma OnePendingCopy(s: State, r: Request)
    requires Conserved(s) && OnlyUse(s.submitted, r)
    ensures Pending(s)[r] <= 1
    ensures forall x | x in Pending(s) && Code(x) == Code(r) :: x == r && r !in s.acked
  {
    forall x | x in Pending(s) && Code(x) == Code(r) ensures x == r && r !in s.acked {
      PendingWasSubmitted(s, x);
      assert r in s.acked ==> multiset(s.acked)[r] >= 1;
    }
    assert Pending(s)[r] <= multiset(s.submitted)[r];
  }

  // `after` continues the log `before` without a send of this code.
  predicate Silent(before: seq<Outgoing>, after: seq<Outgoing>, code: nat) {
    before <= after && forall i | |before| <= i < |after| :: after[i].message.transactionCode != code
  }

  lemma SilentTransitive(a: seq<Outgoing>, b: seq<Outgoing>, c: seq<Outgoing>, code: nat)
    requires Silent(a, b, code) && Silent(b, c, code)
    ensures Silent(a, c, code)
  {
  }

  lemma QuietLogs(s: State, s': State, r: Request)
    requires r in s.acked && s.acked <= s'.acked && Conserved(s') && OnlyUse(s'.submitted, r)
    requires s'.started == s.started || exists o :: s'.started == s.started + [o] && RequestOf(o) in Pending(s')
    ensures r in s'.acked && Silent(s.started, s'.started, Code(r))
  {
    var i :| 0 <= i < |s.acked| && s.acked[i] == r;
    assert s'.acked[i] == r;
    OnePendingCopy(s', r);
    if s'.started != s.started {
      var o :| s'.started == s.started + [o] && RequestOf(o) in Pending(s');
      assert Code(RequestOf(o)) != Code(r);
    }
  }

  lemma QuietStep(s: State, step: Step, r: Request)
    requires IndexInv(s) && Conserved(s) && Enabled(s, step)
    requires r in s.acked && OnlyUse(Next(s, step).submitted, r)
    ensures r in Next(s, step).acked && Silent(s.started, Next(s, step).started, Code(r))
  {
    StartedStep(s, step);
    ConservationStep(s, step);
    QuietLogs(s, Next(s, step), r);
  }

  lemma {:induction false} SubmittedGrows(s: State, steps: seq<Step>)
    requires IndexInv(s) && ValidRun(s, steps)
    ensures s.submitted <= Exec(s, steps).submitted
    decreases |steps|
  {
    if steps == [] {
    } else {
      StartedStep(s, steps[0]);
      IndexStep(s, steps[0]);
      SubmittedGrows(Next(s, steps[0]), steps[1..]);
    }
  }

  lemma {:induction false} QuietRun(s: State, steps: seq<Step>, r: Request)
    requires IndexInv(s) && Conserved(s) && ValidRun(s, steps)
    requires r in s.acked && OnlyUse(Exec(s, steps).submitted, r)
    ensures Silent(s.started, Exec(s, steps).started, Code(r))
    decreases |steps|
  {
    if steps == [] {
    } else {
      var s' := Next(s, steps[0]);
      IndexStep(s, steps[0]);
      SubmittedGrows(s', steps[1..]);
      OnlyUseEarlier(s'.submitted, Exec(s, steps).submitted, r);
      QuietStep(s, steps[0], r);
      ConservationStep(s, steps[0]);
      QuietRun(s', steps[1..], r);
      SilentTransitive(s.started, s'.started, Exec(s, steps).started, Code(r));
    }
  }

  // If a code is submitted once in the whole run, then after a Success response for it has
  // been accepted no later step starts another send with that code.
  lemma QuiescenceAfterAcknowledgement(s: State, before: seq<Step>, after: seq<Step>, r: Request)
    requires Init(s) && ValidRun(s, before) && ValidRun(Exec(s, before), after)
    requires OnlyUse(Exec(Exec(s, before), after).submitted, r)
    requires r in Exec(s, before).acked
    ensures
      var mid, end := Exec(s, before), Exec(Exec(s, before), after);
      && (forall x | x in Pending(mid) :: Code(x) != Code(r))
      && Silent(mid.started, end.started, Code(r))
  {
    ConservationRun(s, before);
    QuietRun(Exec(s, before), after, r);
    SubmittedGrows(Exec(s, before), after);
    OnlyUseEarlier(Exec(s, before).submitted, Exec(Exec(s, before), after).submitted, r);
    OnePendingCopy(Exec(s, before), r);
  }

  // ---------------------------------------------------------------- distinct codes

  ghost predicate DistinctCodes(s: State) {
    && (forall x | x in Pending(s) :: Pending(s)[x] == 1)
    && (forall x, y | x in Pending(s) && y in Pending(s) && Code(x) == Code(y) :: x == y)
  }

  // A submission carries a code that no pending message has.
  ghost predicate FreshCode(s: State, step: Step) {
    step.Submit? ==> forall x | x in Pending(s) :: Code(x) != Code(step.request)
  }

  ghost predicate FreshCodes(s: State, steps: seq<Step>)
    requires ValidRun(s, steps)
    decreases |steps|
  {
    steps != [] ==> FreshCode(s, steps[0]) && FreshCodes(Next(s, steps[0]), steps[1..])
  }

  // Every resend timer that has not fired is the one the index names for its code.
  ghost predicate Tracked(s: State) {
    forall id | Lookup(s.timers, id).Some? && ArmedBy(Lookup(s.timers, id).value) != [] ::
      var code := Lookup(s.timers, id).value.callback.parked.transactionCode;
      code in s.index && s.index[code] == id
  }

  lemma FirePendingShrinks(s: State, step: Step)
    requires IndexInv(s) && step.FireTimer? && Enabled(s, step)
    ensures Pending(Next(s, step)) <= Pending(s)
  {
    LookupFound(s.timers, step.id);
    var timer := Lookup(s.timers, step.id).value;
    if timer.callback.Resend? {
      FireResendPending(s, timer, step.endpoint, step.now);
    } else {
      FireUserPending(s, timer);
    }
  }

  lemma SubmitPending(s: State, request: Request, endpoint: Option<nat>, now: int)
    ensures Pending(SendRequest(s, request, endpoint, now))
      == Pending(s) + if endpoint.Some? then multiset{request} else multiset{}
  {
    if endpoint.Some? {
      var o := Outgoing(Destination(request.serviceIdentifier, endpoint.value), request.message);
      PushPending(s, o, now);
      assert RequestOf(o) == request;
    }
  }

  lemma PendingStep(s: State, step: Step)
    requires IndexInv(s) && Enabled(s, step)
    ensures Pending(Next(s, step)) <=
      Pending(s) + if step.Submit? && step.endpoint.Some? then multiset{step.request} else multiset{}
  {
    match step
    case Submit(request, endpoint, now) => SubmitPending(s, request, endpoint, now);
    case Completed(ok, now) => CompletedPending(s, ok, now);
    case Response(success, code) => ResponsePending(s, success, code);
    case FireTimer(_, _, _, _) => FirePendingShrinks(s, step);
    case _ => CacheStepPending(s, step);
  }

  lemma DistinctStep(s: State, step: Step)
    requires IndexInv(s) && DistinctCodes(s) && Enabled(s, step) && FreshCode(s, step)
    ensures DistinctCodes(Next(s, step))
  {
    PendingStep(s, step);
    var m := Pending(s) + if step.Submit? && step.endpoint.Some? then multiset{step.request} else multiset{};
    assert Pending(Next(s, step)) <= m;
    forall x | x in m ensures m[x] == 1 {
    }
  }

  // Two armed timers are two pending copies.
  lemma ArmedTwice(t: Table, a: nat, b: nat)
    requires DistinctIds(t) && a != b
    requires Lookup(t, a).Some? && ArmedBy(Lookup(t, a).value) != []
    requires Lookup(t, b).Some? && ArmedBy(Lookup(t, b).value) != []
    ensures multiset(ArmedBy(Lookup(t, a).value)) + multiset(ArmedBy(Lookup(t, b).value)) <= multiset(Armed(t))
  {
    ArmedRemove(t, a);
    LookupRemove(t, a, b);
    ArmedRemove(RemoveId(t, a), b);
  }

  lemma ArmKeepsTracked(s: State, o: Outgoing, now: int)
    requires IndexInv(s) && HasFreeId(s) && Tracked(s) && o.message.transactionCode !in s.index
    ensures Tracked(StartTimerToResend(s, o, now))
  {
    var id := FreshId(s.timers);
    FreshIdIsFree(s.timers);
    InsertedTimer(s.timers, ResendTimer(s, o, id, now));
  }

  lemma SendRequestKeepsTracked(s: State, request: Request, endpoint: Option<nat>, now: int)
    requires IndexInv(s) && HasFreeId(s) && Tracked(s)
    requires endpoint.Some? && s.queue == [] ==> Code(request) !in s.index
    ensures Tracked(SendRequest(s, request, endpoint, now))
  {
    if endpoint.Some? && s.queue == [] {
      var o := Outgoing(Destination(request.serviceIdentifier, endpoint.value), request.message);
      var s1 := s.(queue := s.queue + [o], pushed := s.pushed + [o]);
      assert s1.queue[0] == o;
      ArmKeepsTracked(s1, o, now);
    }
  }

  lemma SameCodeTwice(s: State, a: nat, b: nat, code: nat)
    requires TimersInv(s.timers) && a != b && NamesTimer(s.timers, code, a) && NamesTimer(s.timers, code, b)
    ensures !DistinctCodes(s)
  {
    LookupFound(s.timers, a);
    LookupFound(s.timers, b);
    ArmedTwice(s.timers, a, b);
    var x := ParkedRequest(Lookup(s.timers, a).value.callback.parked);
    var y := ParkedRequest(Lookup(s.timers, b).value.callback.parked);
    assert ArmedBy(Lookup(s.timers, a).value) == [x] && ArmedBy(Lookup(s.timers, b).value) == [y];
    NotDistinct(s, x, y);
  }

  lemma NotDistinct(s: State, x: Request, y: Request)
    requires multiset([x]) + multiset([y]) <= multiset(Armed(s.timers)) && Code(x) == Code(y)
    ensures !DistinctCodes(s)
  {
  }

  // Under distinct codes a message that is about to be armed has no index entry yet.
  lemma UntrackedBeforeArming(s: State, o: Outgoing, now: int)
    requires IndexInv(s) && HasFreeId(s) && DistinctCodes(StartTimerToResend(s, o, now))
    ensures o.message.transactionCode !in s.index
  {
    var code := o.message.transactionCode;
    if code in s.index {
      ArmKeepsIndex(s, o, now);
      var s' := StartTimerToResend(s, o, now);
      LookupFound(s.timers, s.index[code]);
      InsertedTimer(s.timers, ResendTimer(s, o, FreshId(s.timers), now));
      SameCodeTwice(s', FreshId(s.timers), s.index[code], code);
    }
  }

  // A timer that stops waiting needs no entry any more.
  lemma StatusKeepsTracked(s: State, id: nat, status: ActionStatus, index: map<nat, nat>)
    requires Tracked(s) && status != Waiting
    requires forall code | code in s.index && s.index[code] != id :: code in index && index[code] == s.index[code]
    ensures Tracked(s.(timers := SetStatus(s.timers, id, status), index := index))
  {
    var t := SetStatus(s.timers, id, status);
    forall other | Lookup(t, other).Some? && ArmedBy(Lookup(t, other).value) != []
      ensures other != id && Lookup(t, other) == Lookup(s.timers, other)
    {
      LookupSetStatus(s.timers, id, status, other);
    }
  }

  lemma FireKeepsTracked(s: State, step: Step)
    requires IndexInv(s) && Tracked(s) && step.FireTimer? && Enabled(s, step)
    ensures Tracked(Next(s, step))
  {
    LookupFound(s.timers, step.id);
    var timer := Lookup(s.timers, step.id).value;
    var id := timer.id;
    if timer.callback.Resend? {
      var parked := timer.callback.parked;
      var index := s.index - {parked.transactionCode};
      assert ArmedBy(timer) != [];
      StatusKeepsTracked(s, id, Running, index);
      UnnamedWithoutCode(s, timer);
      StatusKeepsIndex(s.(index := index), id, Running);
      SetStatusKeeps(s.timers, id, Running);
      ResendCodeMatches(s, timer);
      var s1 := s.(timers := SetStatus(s.timers, id, Running), index := index);
      SendRequestKeepsTracked(s1, ParkedRequest(parked), step.endpoint, step.now);
      var s2 := SendRequest(s1, ParkedRequest(parked), step.endpoint, step.now);
      StatusKeepsTracked(s2, id, Ended, s2.index);
    } else {
      StatusKeepsTracked(s, id, Running, s.index);
      StatusKeepsTracked(s.(timers := SetStatus(s.timers, id, Running)), id, Ended, s.index);
    }
  }

  lemma ResendCodeMatches(s: State, timer: TimerValue)
    requires IndexInv(s) && Lookup(s.timers, timer.id) == Some(timer) && timer.callback.Resend?
    ensures timer.callback.parked.transactionCode == timer.callback.parked.message.transactionCode
  {
    LookupFound(s.timers, timer.id);
  }

  lemma ResponseKeepsTracked(s: State, success: bool, code: nat)
    requires IndexInv(s) && Tracked(s)
    ensures Tracked(HandleResponse(s, success, code))
  {
    if success && code in s.index {
      forall id ensures Lookup(RemoveId(s.timers, s.index[code]), id) ==
          if id == s.index[code] then None else Lookup(s.timers, id) {
        LookupRemove(s.timers, s.index[code], id);
      }
    }
  }

  // A send is about to arm a timer for a code that the index still maps to another one.
  ghost predicate Collides(s: State, step: Step) {
    match step
    case Submit(request, endpoint, _) => endpoint.Some? && s.queue == [] && Code(request) in s.index
    case Completed(ok, _) => ok && |s.queue| > 1 && s.queue[1].message.transactionCode in s.index
    case _ => false
  }

  // A new timer is tracked, with all the others, exactly when its code had no entry.
  lemma ArmTrackedIff(s: State, o: Outgoing, now: int)
    requires IndexInv(s) && HasFreeId(s) && Tracked(s)
    ensures Tracked(StartTimerToResend(s, o, now)) <==> o.message.transactionCode !in s.index
  {
    var code, id := o.message.transactionCode, FreshId(s.timers);
    if code in s.index {
      ArmTracks(s, o, now);
      FreshIdIsFree(s.timers);
      InsertedTimer(s.timers, ResendTimer(s, o, id, now));
      assert Lookup(StartTimerToResend(s, o, now).timers, id) == Some(ResendTimer(s, o, id, now));
    } else {
      ArmKeepsTracked(s, o, now);
    }
  }

  // Tracking depends on the timers and the index alone.
  lemma SameTracking(s: State, s': State)
    requires s'.timers == s.timers && s'.index == s.index
    ensures Tracked(s') <==> Tracked(s)
    ensures IndexInv(s) ==> IndexInv(s')
  {
  }

  lemma SubmitTrackedIff(s: State, step: Step)
    requires IndexInv(s) && Tracked(s) && Enabled(s, step) && step.Submit?
    ensures Tracked(Next(s, step)) <==> !Collides(s, step)
  {
    if step.endpoint.Some? {
      var o := Outgoing(Destination(step.request.serviceIdentifier, step.endpoint.value), step.request.message);
      var s1 := s.(queue := s.queue + [o], pushed := s.pushed + [o]);
      SameTracking(s, s1);
      if s.queue == [] {
        assert s1.queue[0] == o;
        ArmTrackedIff(s1, o, step.now);
        SameTracking(StartTimerToResend(s1, o, step.now), Next(s, step));
      }
    }
  }

  lemma CompletedTrackedIff(s: State, step: Step)
    requires IndexInv(s) && Tracked(s) && Enabled(s, step) && step.Completed?
    ensures Tracked(Next(s, step)) <==> !Collides(s, step)
  {
    if step.ok && |s.queue| > 1 {
      var s1 := s.(inFlight := s.inFlight - 1, queue := s.queue[1..]);
      SameTracking(s, s1);
      ArmTrackedIff(s1, s1.queue[0], step.now);
      SameTracking(StartTimerToResend(s1, s1.queue[0], step.now), Next(s, step));
    }
  }

  // A step keeps every armed timer tracked if and only if it does not collide. A resend never
  // does: its callback takes the entry out of the index first.
  lemma TrackedStepIff(s: State, step: Step)
    requires IndexInv(s) && Tracked(s) && Enabled(s, step)
    ensures Tracked(Next(s, step)) <==> !Collides(s, step)
  {
    match step
    case Submit(_, _, _) => SubmitTrackedIff(s, step);
    case Completed(_, _) => CompletedTrackedIff(s, step);
    case Response(success, code) => ResponseKeepsTracked(s, success, code);
    case FireTimer(_, _, _, _) => FireKeepsTracked(s, step);
    case _ => CacheStepKeepsTracked(s, step);
  }

  lemma CacheStepKeepsTracked(s: State, step: Step)
    requires IndexInv(s) && Tracked(s) && Enabled(s, step)
    requires step.RestartPass? || step.RemovePass? || step.UserRegister? || step.UserRemove? || step.UserRestart?
    ensures Tracked(Next(s, step))
  {
    var t := Next(s, step).timers;
    forall id | Lookup(t, id).Some? && ArmedBy(Lookup(t, id).value) != []
      ensures Lookup(s.timers, id) == Lookup(t, id)
    {
      ArmedOrigin(s, step, id);
    }
  }

  // A resend timer found armed after such a step was there before.
  lemma ArmedOrigin(s: State, step: Step, id: nat)
    requires IndexInv(s) && Enabled(s, step)
    requires step.RestartPass? || step.RemovePass? || step.UserRegister? || step.UserRemove? || step.UserRestart?
    requires Lookup(Next(s, step).timers, id).Some? && ArmedBy(Lookup(Next(s, step).timers, id).value) != []
    ensures Lookup(s.timers, id) == Lookup(Next(s, step).timers, id)
  {
    LookupFound(s.timers, id);
    match step
    case RestartPass(readings) => LookupRestartRepeatable(s.timers, readings, id);
    case RemovePass => LookupKeep(s.timers, NotEndedOneShot, id);
    case UserRegister(timer) =>
      FreshIdIsFree(s.timers);
      LookupInsert(s.timers, Entry(timer.Expiry(), timer.(id := FreshId(s.timers))), id);
    case UserRemove(other) => LookupRemove(s.timers, other, id);
    case UserRestart(other, now) => LookupRestart(s.timers, other, now, id);
  }

  ghost predicate NeverCollides(s: State, steps: seq<Step>)
    requires ValidRun(s, steps)
    decreases |steps|
  {
    steps != [] ==> !Collides(s, steps[0]) && NeverCollides(Next(s, steps[0]), steps[1..])
  }

  // Every armed timer is tracked in every state on the way.
  ghost predicate AlwaysTracked(s: State, steps: seq<Step>)
    requires ValidRun(s, steps)
    decreases |steps|
  {
    Tracked(s) && (steps != [] ==> AlwaysTracked(Next(s, steps[0]), steps[1..]))
  }

  // Throughout a run every armed resend timer can be found through the index if and only if
  // no step of the run collides.
  lemma {:induction false} TrackedRunIff(s: State, steps: seq<Step>)
    requires IndexInv(s) && Tracked(s) && ValidRun(s, steps)
    ensures AlwaysTracked(s, steps) <==> NeverCollides(s, steps)
    ensures NeverCollides(s, steps) ==> Tracked(Exec(s, steps))
    decreases |steps|
  {
    if steps == [] {
    } else {
      var s' := Next(s, steps[0]);
      TrackedStepIff(s, steps[0]);
      IndexStep(s, steps[0]);
      if Tracked(s') {
        TrackedRunIff(s', steps[1..]);
      }
    }
  }

  // A code that no pending message has is in no index entry.
  lemma FreshStepDoesNotCollide(s: State, step: Step)
    requires IndexInv(s) && DistinctCodes(s) && Enabled(s, step) && FreshCode(s, step)
    ensures !Collides(s, step)
  {
    DistinctStep(s, step);
    match step
    case Submit(request, endpoint, now) =>
      if endpoint.Some? && s.queue == [] {
        var o := Outgoing(Destination(request.serviceIdentifier, endpoint.value), request.message);
        var s1 := s.(queue := s.queue + [o]);
        assert s1.queue[0] == o && Pending(StartTimerToResend(s1, o, now)) == Pending(Next(s, step));
        UntrackedBeforeArming(s1, o, now);
      }
    case Completed(ok, now) =>
      if ok && |s.queue| > 1 {
        var s1 := s.(inFlight := s.inFlight - 1, queue := s.queue[1..]);
        assert Pending(StartTimerToResend(s1, s1.queue[0], now)) == Pending(Next(s, step));
        UntrackedBeforeArming(s1, s1.queue[0], now);
      }
    case _ =>
  }

  lemma {:induction false} FreshCodesNeverCollide(s: State, steps: seq<Step>)
    requires IndexInv(s) && DistinctCodes(s) && ValidRun(s, steps) && FreshCodes(s, steps)
    ensures NeverCollides(s, steps) && DistinctCodes(Exec(s, steps))
    decreases |steps|
  {
    if steps == [] {
    } else {
      FreshStepDoesNotCollide(s, steps[0]);
      DistinctStep(s, steps[0]);
      IndexStep(s, steps[0]);
      FreshCodesNeverCollide(Next(s, steps[0]), steps[1..]);
    }
  }

  // With codes that differ from those of all pending messages, every armed resend timer can
  // be found through the index, in every reachable state.
  lemma EveryTimerTracked(s: State, steps: seq<Step>)
    requires IndexInv(s) && DistinctCodes(s) && Tracked(s)
    requires ValidRun(s, steps) && FreshCodes(s, steps)
    ensures DistinctCodes(Exec(s, steps)) && Tracked(Exec(s, steps))
  {
    FreshCodesNeverCollide(s, steps);
    TrackedRunIff(s, steps);
  }

  // The invariants of the lemmas above hold at the start, so they hold after every run.
  lemma InitiallyAllHold(s: State)
    requires Init(s)
    ensures IndexInv(s) && Conserved(s) && PumpInv(s)
    ensures DistinctCodes(s) && Tracked(s) && forall o | o in s.started :: RequestOf(o) in s.submitted
  {
  }

  // When two pending messages share a code the second timer is not tracked: after the one
  // answer both could get, its message is still armed and no response can cancel it.
  lemma CollisionLosesTimer(s: State, a: Request, b: Request)
    requires Init(s) && Code(a) == Code(b)
    ensures
      var steps := [Submit(a, Some(1), 0), Submit(b, Some(1), 0)] + [Completed(true, 0), Response(true, Code(a))];
      ValidRun(s, steps) &&
      var r := Exec(s, steps);
      && Pending(r) == multiset{b} && r.acked == [a]
      && HandleResponse(r, true, Code(a)) == r
  {
    var s2 := CollidingSubmissions(s, a, b);
    var s4 := OneAnswer(s2, a, b);
    RunAppend(s, [Submit(a, Some(1), 0), Submit(b, Some(1), 0)], [Completed(true, 0), Response(true, Code(a))]);
  }

  function OutgoingFor(r: Request): Outgoing { Outgoing(Destination(r.serviceIdentifier, 1), r.message) }

  lemma CollidingSubmissions(s: State, a: Request, b: Request) returns (s2: State)
    requires Init(s) && Code(a) == Code(b)
    ensures ValidRun(s, [Submit(a, Some(1), 0), Submit(b, Some(1), 0)])
    ensures s2 == Exec(s, [Submit(a, Some(1), 0), Submit(b, Some(1), 0)])
    ensures s2.timers == [Entry(s.delay, ResendTimer(s, OutgoingFor(a), 1, 0))] && s2.index == map[Code(a) := 1]
    ensures s2.queue == [OutgoingFor(a), OutgoingFor(b)] && s2.inFlight == 1 && s2.acked == [] && s2.delay == s.delay
  {
    FreshIdIsLeast([]);
    var s1 := Next(s, Submit(a, Some(1), 0));
    assert s1.queue == [OutgoingFor(a)];
    assert s1.timers == [Entry(s.delay, ResendTimer(s, OutgoingFor(a), 1, 0))] && s1.index == map[Code(a) := 1];
    s2 := Next(s1, Submit(b, Some(1), 0));
    assert s2.queue == [OutgoingFor(a), OutgoingFor(b)];
    TwoSteps(s, [Submit(a, Some(1), 0), Submit(b, Some(1), 0)], s1, s2);
  }

  lemma OneAnswer(s: State, a: Request, b: Request) returns (s2: State)
    requires Code(a) == Code(b)
    requires s.timers == [Entry(s.delay, ResendTimer(s, OutgoingFor(a), 1, 0))] && s.index == map[Code(a) := 1]
    requires s.queue == [OutgoingFor(a), OutgoingFor(b)] && s.inFlight == 1 && s.acked == []
    ensures ValidRun(s, [Completed(true, 0), Response(true, Code(a))])
    ensures s2 == Exec(s, [Completed(true, 0), Response(true, Code(a))])
    ensures Pending(s2) == multiset{b} && s2.acked == [a] && s2.index == map[]
  {
    var s1 := SecondSend(s, a, b);
    s2 := Next(s1, Response(true, Code(a)));
    var tb := Entry(s.delay, ResendTimer(s, OutgoingFor(b), 2, 0));
    assert s2.timers == [tb] && Armed([tb]) == [b] + Armed([]);
    TwoSteps(s, [Completed(true, 0), Response(true, Code(a))], s1, s2);
  }

  lemma SecondSend(s: State, a: Request, b: Request) returns (s1: State)
    requires Code(a) == Code(b)
    requires s.timers == [Entry(s.delay, ResendTimer(s, OutgoingFor(a), 1, 0))] && s.index == map[Code(a) := 1]
    requires s.queue == [OutgoingFor(a), OutgoingFor(b)] && s.inFlight == 1 && s.acked == []
    ensures Enabled(s, Completed(true, 0)) && s1 == Next(s, Completed(true, 0))
    ensures s1.timers == s.timers + [Entry(s.delay, ResendTimer(s, OutgoingFor(b), 2, 0))]
    ensures s1.index == s.index && s1.queue == [OutgoingFor(b)] && s1.acked == []
  {
    var tb := Entry(s.delay, ResendTimer(s, OutgoingFor(b), 2, 0));
    SecondId(s.timers);
    assert s.queue[1..] == [OutgoingFor(b)];
    assert Insert(s.timers, tb) == [s.timers[0]] + Insert([], tb);
    s1 := Next(s, Completed(true, 0));
  }

  lemma SecondId(t: Table)
    requires |t| == 1 && t[0].timer.id == 1
    ensures FreshId(t) == 2
  {
  }
}
