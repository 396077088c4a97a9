// Agreement of the transaction index with the timer cache, in every reachable state
// and although timer IDs are used again and transaction codes may collide.

module ServerIndex {
  import opened Messages
  import opened Timers
  import opened TimerTable
  import opened TimerPass
  import opened TimerIds
  import opened ServerProtocol

  // A one-shot resend timer that has not fired, for a message with this code.
  predicate AwaitsAnswer(timer: TimerValue, code: nat) {
    && timer.status == Waiting && !timer.repeatable
    && timer.callback.Resend? && timer.callback.parked.transactionCode == code
  }

  predicate NamesTimer(t: Table, code: nat, id: nat) {
    Lookup(t, id).Some? && AwaitsAnswer(Lookup(t, id).value, code)
  }

  ghost predicate IndexAgrees(s: State) {
    forall code | code in s.index :: NamesTimer(s.timers, code, s.index[code])
  }

  predicate ResendIsOneShot(timer: TimerValue) {
    timer.callback.Resend? ==>
      !timer.repeatable && timer.callback.parked.transactionCode == timer.callback.parked.message.transactionCode
  }

  ghost predicate TimersInv(t: Table) {
    WellFormed(t) && forall e | e in t :: ResendIsOneShot(e.timer)
  }

  ghost predicate IndexInv(s: State) { TimersInv(s.timers) && IndexAgrees(s) }

  // ---------------------------------------------------------------- pieces of steps

  lemma InsertedTimer(t: Table, timer: TimerValue)
    requires TimersInv(t) && timer.id !in Ids(t) && ResendIsOneShot(timer)
    ensures TimersInv(InsertTimer(t, timer))
    ensures forall id :: Lookup(InsertTimer(t, timer), id) == if id == timer.id then Some(timer) else Lookup(t, id)
  {
    var e := Entry(timer.Expiry(), timer);
    InsertKeeps(t, timer);
    InsertMembers(t, e);
    forall id ensures Lookup(InsertTimer(t, timer), id) == if id == timer.id then Some(timer) else Lookup(t, id) {
      LookupInsert(t, e, id);
    }
  }

  lemma ArmKeepsIndex(s: State, o: Outgoing, now: int)
    requires IndexInv(s) && HasFreeId(s)
    ensures IndexInv(StartTimerToResend(s, o, now))
    ensures FreshId(s.timers) !in Ids(s.timers)
  {
    FreshIdIsFree(s.timers);
    InsertedTimer(s.timers, ResendTimer(s, o, FreshId(s.timers), now));
    LookupFound(s.timers, FreshId(s.timers));
  }

  // A new resend timer is tracked exactly when no entry for its code was there.
  lemma ArmTracks(s: State, o: Outgoing, now: int)
    requires IndexInv(s) && HasFreeId(s)
    ensures
      var code := o.message.transactionCode;
      StartTimerToResend(s, o, now).index[code] == FreshId(s.timers) <==> code !in s.index
  {
    ArmKeepsIndex(s, o, now);
    var code := o.message.transactionCode;
    if code in s.index {
      LookupFound(s.timers, s.index[code]);
    }
  }

  lemma SendRequestKeepsIndex(s: State, request: Request, endpoint: Option<nat>, now: int)
    requires IndexInv(s) && HasFreeId(s)
    ensures IndexInv(SendRequest(s, request, endpoint, now))
  {
    if endpoint.Some? {
      var o := Outgoing(Destination(request.serviceIdentifier, endpoint.value), request.message);
      var s1 := s.(queue := s.queue + [o], pushed := s.pushed + [o]);
      ArmKeepsIndex(s1, s1.queue[0], now);
    }
  }

  lemma StatusKeepsIndex(s: State, id: nat, status: ActionStatus)
    requires IndexInv(s) && forall code | code in s.index :: s.index[code] != id
    ensures IndexInv(s.(timers := SetStatus(s.timers, id, status)))
  {
    SetStatusKeeps(s.timers, id, status);
    forall code | code in s.index ensures NamesTimer(SetStatus(s.timers, id, status), code, s.index[code]) {
      LookupSetStatus(s.timers, id, status, s.index[code]);
    }
  }

  // Once the entry for its code is gone, nothing in the index names the timer.
  lemma UnnamedWithoutCode(s: State, timer: TimerValue)
    requires IndexInv(s) && Lookup(s.timers, timer.id) == Some(timer)
    ensures
      var s1 := if timer.callback.Resend? then s.(index := s.index - {timer.callback.parked.transactionCode}) else s;
      IndexInv(s1) && forall code | code in s1.index :: s1.index[code] != timer.id
  {
  }

  lemma RunningKeepsLookup(s: State, request: Request, endpoint: Option<nat>, now: int, id: nat)
    requires IndexInv(s) && HasFreeId(s) && Lookup(s.timers, id).Some?
    ensures Lookup(SendRequest(s, request, endpoint, now).timers, id) == Lookup(s.timers, id)
  {
    if endpoint.Some? {
      var o := Outgoing(Destination(request.serviceIdentifier, endpoint.value), request.message);
      var s1 := s.(queue := s.queue + [o], pushed := s.pushed + [o]);
      var timer := ResendTimer(s1, s1.queue[0], FreshId(s.timers), now);
      FreshIdIsFree(s.timers);
      LookupFound(s.timers, id);
      LookupInsert(s.timers, Entry(timer.Expiry(), timer), id);
    }
  }

  lemma FireKeepsIndex(s: State, timer: TimerValue, endpoint: Option<nat>, now: int)
    requires IndexInv(s) && HasFreeId(s) && Lookup(s.timers, timer.id) == Some(timer)
    ensures IndexInv(Fire(s, timer, endpoint, now))
  {
    var id := timer.id;
    UnnamedWithoutCode(s, timer);
    var s0 := if timer.callback.Resend? then s.(index := s.index - {timer.callback.parked.transactionCode}) else s;
    StatusKeepsIndex(s0, id, Running);
    var s1 := s0.(timers := SetStatus(s.timers, id, Running));
    SetStatusKeeps(s.timers, id, Running);
    LookupSetStatus(s.timers, id, Running, id);
    var s2 := s1;
    if timer.callback.Resend? {
      var request := ParkedRequest(timer.callback.parked);
      SendRequestKeepsIndex(s1, request, endpoint, now);
      RunningKeepsLookup(s1, request, endpoint, now, id);
      s2 := SendRequest(s1, request, endpoint, now);
    }
    StatusKeepsIndex(s2, id, Ended);
  }

  lemma ResponseKeepsIndex(s: State, success: bool, code: nat)
    requires IndexInv(s)
    ensures IndexInv(HandleResponse(s, success, code))
  {
    if success && code in s.index {
      var id := s.index[code];
      RemoveKeeps(s.timers, id);
      RemoveMembers(s.timers, id);
      forall c | c in s.index && c != code ensures NamesTimer(RemoveId(s.timers, id), c, s.index[c]) {
        LookupRemove(s.timers, id, s.index[c]);
      }
    }
  }

  // Changes by the timers thread and by other users leave the named timers as they are.
  lemma SameNamedTimers(s: State, t: Table)
    requires IndexInv(s) && TimersInv(t)
    requires forall code | code in s.index :: Lookup(t, s.index[code]) == Lookup(s.timers, s.index[code])
    ensures IndexInv(s.(timers := t))
  {
  }

  lemma CacheStepKeepsIndex(s: State, step: Step)
    requires IndexInv(s) && Enabled(s, step)
    requires step.RestartPass? || step.RemovePass? || step.UserRegister? || step.UserRemove? || step.UserRestart?
    ensures IndexInv(Next(s, step))
  {
    var t := Next(s, step).timers;
    match step {
      case RestartPass(readings) => RestartRepeatableKeeps(s.timers, readings);
      case RemovePass => KeepKeeps(s.timers, NotEndedOneShot);
      case UserRegister(timer) =>
        FreshIdIsFree(s.timers);
        InsertedTimer(s.timers, timer.(id := FreshId(s.timers)));
      case UserRemove(id) => RemoveKeeps(s.timers, id);
      case UserRestart(id, now) => RestartKeeps(s.timers, id, now);
    }
    forall e | e in t ensures ResendIsOneShot(e.timer) {
      MemberLookup(t, e);
      TimerOrigin(s, step, e.timer.id);
    }
    forall code | code in s.index ensures Lookup(t, s.index[code]) == Lookup(s.timers, s.index[code]) {
      TimerOrigin(s, step, s.index[code]);
    }
    SameNamedTimers(s, t);
  }

  // What such a step leaves under an ID: the old timer, or a timer of another user.
  lemma TimerOrigin(s: State, step: Step, id: nat)
    requires IndexInv(s) && Enabled(s, step)
    requires step.RestartPass? || step.RemovePass? || step.UserRegister? || step.UserRemove? || step.UserRestart?
    ensures
      var before, after := Lookup(s.timers, id), Lookup(Next(s, step).timers, id);
      && (after.Some? ==> ResendIsOneShot(after.value))
      && (before.Some? && before.value.callback.Resend? && before.value.status == Waiting ==> after == before)
  {
    LookupFound(s.timers, id);
    match step
    case RestartPass(readings) => LookupRestartRepeatable(s.timers, readings, id);
    case RemovePass => LookupKeep(s.timers, NotEndedOneShot, id);
    case UserRegister(timer) =>
      FreshIdIsFree(s.timers);
      LookupInsert(s.timers, Entry(timer.Expiry(), timer.(id := FreshId(s.timers))), id);
    case UserRemove(other) => LookupRemove(s.timers, other, id);
    case UserRestart(other, now) => LookupRestart(s.timers, other, now, id);
  }

  lemma IndexStep(s: State, step: Step)
    requires IndexInv(s) && Enabled(s, step)
    ensures IndexInv(Next(s, step))
  {
    match step
    case Submit(request, endpoint, now) => SendRequestKeepsIndex(s, request, endpoint, now);
    case Completed(ok, now) =>
      if ok && |s.queue| > 1 {
        var s2 := s.(inFlight := s.inFlight - 1, queue := s.queue[1..]);
        ArmKeepsIndex(s2, s2.queue[0], now);
      }
    case Response(success, code) => ResponseKeepsIndex(s, success, code);
    case FireTimer(id, _, endpoint, now) =>
      LookupFound(s.timers, id);
      FireKeepsIndex(s, Lookup(s.timers, id).value, endpoint, now);
    case _ => CacheStepKeepsIndex(s, step);
  }

  lemma {:induction false} IndexRun(s: State, steps: seq<Step>)
    requires IndexInv(s) && ValidRun(s, steps)
    ensures IndexInv(Exec(s, steps))
    decreases |steps|
  {
    if steps == [] {
    } else {
      IndexStep(s, steps[0]);
      IndexRun(Next(s, steps[0]), steps[1..]);
    }
  }

  // In every reachable state each index entry names a live one-shot resend timer that has
  // not fired and was armed for that very code; so no two codes share a timer, and a Success
  // response removes a timer of its own transaction and no other timer.
  lemma IndexAgreement(s: State, steps: seq<Step>, code: nat)
    requires Init(s) && ValidRun(s, steps)
    ensures
      var r := Exec(s, steps);
      && (forall c | c in r.index :: NamesTimer(r.timers, c, r.index[c]))
      && (forall a, b | a in r.index && b in r.index && r.index[a] == r.index[b] :: a == b)
      && (forall id :: Lookup(r.timers, id).Some? ==>
            Lookup(HandleResponse(r, true, code).timers, id) == Lookup(r.timers, id)
            || (code in r.index && r.index[code] == id && AwaitsAnswer(Lookup(r.timers, id).value, code)))
  {
    IndexRun(s, steps);
    var r := Exec(s, steps);
    if code in r.index {
      forall id ensures Lookup(RemoveId(r.timers, r.index[code]), id) ==
          if id == r.index[code] then None else Lookup(r.timers, id) {
        LookupRemove(r.timers, r.index[code], id);
      }
    }
  }

  // A Success response that is accepted acknowledges one message, of its own code.
  lemma AcceptedResponse(s: State, code: nat)
    requires IndexInv(s) && code in s.index
    ensures
      var r := HandleResponse(s, true, code);
      && code !in r.index && Lookup(r.timers, s.index[code]).None?
      && |r.acked| == |s.acked| + 1 && r.acked[..|s.acked|] == s.acked
      && r.acked[|s.acked|].message.transactionCode == code
  {
    LookupFound(s.timers, s.index[code]);
    LookupRemove(s.timers, s.index[code], s.index[code]);
  }

  // ---------------------------------------------------------------- responses

  // Any response but Success leaves the server as it is: the message will be resent.
  lemma FailureResponseIgnored(s: State, step: Step)
    requires Enabled(s, step) && step.Response? && !step.success
    ensures Next(s, step) == s
  {
  }

  // A message is acknowledged exactly by a Success response whose code has an entry.
  lemma AcknowledgesIff(s: State, step: Step)
    requires IndexInv(s) && Enabled(s, step)
    ensures Next(s, step).acked != s.acked <==> step.Response? && step.success && step.code in s.index
  {
    if step.Response? && step.success && step.code in s.index {
      AcceptedResponse(s, step.code);
    }
  }

  function WithoutFailures(steps: seq<Step>): seq<Step> {
    if steps == [] then []
    else if steps[0].Response? && !steps[0].success then WithoutFailures(steps[1..])
    else [steps[0]] + WithoutFailures(steps[1..])
  }

  // Over whole runs the responses other than Success might as well not have come.
  lemma {:induction false} FailuresInvisible(s: State, steps: seq<Step>)
    requires ValidRun(s, steps)
    ensures ValidRun(s, WithoutFailures(steps)) && Exec(s, WithoutFailures(steps)) == Exec(s, steps)
    decreases |steps|
  {
    if steps == [] {
    } else {
      FailuresInvisible(Next(s, steps[0]), steps[1..]);
      if steps[0].Response? && !steps[0].success {
        FailureResponseIgnored(s, steps[0]);
      } else {
        RunPrepend(s, steps[0], WithoutFailures(steps[1..]));
      }
    }
  }

  // ---------------------------------------------------------------- arming and firing

  // A send at `now` arms, under an ID that was free, a one-shot timer for the front message
  // that expires after the time between resends; no other timer changes.
  lemma SendArmsTimer(s: State, now: int, other: nat)
    requires IndexInv(s) && HasFreeId(s) && s.queue != []
    ensures
      var s', id, front := Send(s, now), FreshId(s.timers), s.queue[0];
      && Lookup(s.timers, id).None? && Lookup(s'.timers, id).Some?
      && (other != id ==> Lookup(s'.timers, other) == Lookup(s.timers, other))
      && var timer := Lookup(s'.timers, id).value;
      && timer.start + timer.duration == now + s.delay && timer.start == now
      && AwaitsAnswer(timer, front.message.transactionCode)
      && timer.callback.parked.message == front.message && timer.callback.parked.destination == front.destination
  {
    ArmKeepsIndex(s, s.queue[0], now);
    InsertedTimer(s.timers, ResendTimer(s, s.queue[0], FreshId(s.timers), now));
    LookupFound(s.timers, FreshId(s.timers));
  }

  // What firing one timer does to the timer found under an ID: the fired one is ended, every
  // other live one is the same, and what is new is a resend timer waiting for an answer.
  lemma FireLookup(s: State, timer: TimerValue, endpoint: Option<nat>, now: int, id: nat)
    requires IndexInv(s) && HasFreeId(s) && Lookup(s.timers, timer.id) == Some(timer)
    ensures
      var before, after := Lookup(s.timers, id), Lookup(Fire(s, timer, endpoint, now).timers, id);
      && (id == timer.id ==> after == Some(timer.(status := Ended)))
      && (id != timer.id && before.Some? ==> after == before)
      && (before.None? && after.Some? ==> exists code :: AwaitsAnswer(after.value, code))
    ensures |Fire(s, timer, endpoint, now).timers| <= |s.timers| + 1
  {
    var s1 := if timer.callback.Resend? then s.(index := s.index - {timer.callback.parked.transactionCode}) else s;
    UnnamedWithoutCode(s, timer);
    StatusKeepsIndex(s1, timer.id, Running);
    SetStatusKeeps(s.timers, timer.id, Running);
    LookupSetStatus(s.timers, timer.id, Running, id);
    LookupSetStatus(s.timers, timer.id, Running, timer.id);
    var s2 := s1.(timers := SetStatus(s.timers, timer.id, Running));
    var s3 := s2;
    if timer.callback.Resend? {
      s3 := SendRequest(s2, ParkedRequest(timer.callback.parked), endpoint, now);
      RequestLookup(s2, ParkedRequest(timer.callback.parked), endpoint, now, id);
      SendRequestKeepsIndex(s2, ParkedRequest(timer.callback.parked), endpoint, now);
    }
    SetStatusKeeps(s3.timers, timer.id, Ended);
    LookupSetStatus(s3.timers, timer.id, Ended, id);
    RequestLookup(s2, Request(0, Message(0, "")), None, now, timer.id);
    if timer.callback.Resend? {
      RequestLookup(s2, ParkedRequest(timer.callback.parked), endpoint, now, timer.id);
    }
  }

  lemma RequestLookup(s: State, request: Request, endpoint: Option<nat>, now: int, id: nat)
    requires IndexInv(s) && HasFreeId(s)
    ensures
      var s' := SendRequest(s, request, endpoint, now);
      && (Lookup(s.timers, id).Some? ==> Lookup(s'.timers, id) == Lookup(s.timers, id))
      && (Lookup(s.timers, id).None? && Lookup(s'.timers, id).Some? ==>
            exists code :: AwaitsAnswer(Lookup(s'.timers, id).value, code))
      && |s'.timers| <= |s.timers| + 1
  {
    if endpoint.Some? {
      var o := Outgoing(Destination(request.serviceIdentifier, endpoint.value), request.message);
      var s1 := Enqueue(s, o);
      if s.queue == [] {
        assert s1.queue[0] == o;
        var timer := ResendTimer(s1, o, FreshId(s.timers), now);
        SendArmsTimer(s1, now, id);
        InsertMembers(s.timers, Entry(timer.Expiry(), timer));
      }
    }
  }

  // The message of a resend timer that is waiting and past its expiry goes out again, behind
  // what is queued, to the endpoint its service now has, and the timer is ended.
  lemma ResendsWhenDue(s: State, id: nat, timePoint: int, endpoint: nat, now: int)
    requires IndexInv(s) && HasFreeId(s) && Lookup(s.timers, id).Some?
    requires
      var timer := Lookup(s.timers, id).value;
      timer.status == Waiting && timer.callback.Resend? && timer.start + timer.duration < timePoint
    ensures
      var step := FireTimer(id, timePoint, Some(endpoint), now);
      Enabled(s, step) &&
      var s', timer := Next(s, step), Lookup(s.timers, id).value;
      var parked := timer.callback.parked;
      var o := Outgoing(Destination(parked.destination.serviceIdentifier, endpoint), parked.message);
      && s'.queue == s.queue + [o]
      && s'.started == s.started + (if s.queue == [] then [o] else [])
      && Lookup(s'.timers, id) == Some(timer.(status := Ended))
      && (parked.transactionCode in s'.index ==> s.queue == [])
  {
    LookupFound(s.timers, id);
    FireLookup(s, Lookup(s.timers, id).value, Some(endpoint), now, id);
  }

  // Firing one timer after the other, each on the state the one before left.
  ghost function FireAll(s: State, due: seq<TimerValue>, endpoints: seq<Option<nat>>, now: int): State
    requires |due| == |endpoints|
    decreases |due|
  {
    if due == [] then s else FireAll(Fire(s, due[0], endpoints[0], now), due[1..], endpoints[1..], now)
  }

  lemma {:induction false} FireAllLookup(s: State, due: seq<TimerValue>, endpoints: seq<Option<nat>>, now: int, id: nat)
    requires IndexInv(s) && |due| == |endpoints| && |s.timers| + |due| <= MAX_UINT32 + 1 && Lookup(s.timers, id).Some?
    requires forall timer | timer in due :: Lookup(s.timers, timer.id) == Some(timer)
    requires forall i, j | 0 <= i < j < |due| :: due[i].id != due[j].id
    ensures
      var before, after := Lookup(s.timers, id).value, Lookup(FireAll(s, due, endpoints, now).timers, id);
      after == Some(if before in due then before.(status := Ended) else before)
    decreases |due|
  {
    if due == [] {
    } else {
      var s1 := Fire(s, due[0], endpoints[0], now);
      assert due[0] in due && due == [due[0]] + due[1..];
      FireKeepsIndex(s, due[0], endpoints[0], now);
      FireLookup(s, due[0], endpoints[0], now, id);
      LookupFound(s.timers, id);
      forall timer | timer in due[1..] ensures Lookup(s1.timers, timer.id) == Some(timer) {
        FireLookup(s, due[0], endpoints[0], now, timer.id);
      }
      FireAllLookup(s1, due[1..], endpoints[1..], now, id);
    }
  }

  // Firing all due timers is the trigger pass, whatever their callbacks register meanwhile.
  lemma FiringsAreTrigger(s: State, timePoint: int, endpoints: seq<Option<nat>>, now: int, id: nat)
    requires IndexInv(s) && |endpoints| == |Fired(s.timers, timePoint)| && Lookup(s.timers, id).Some?
    requires |s.timers| + |Fired(s.timers, timePoint)| <= MAX_UINT32 + 1
    ensures Lookup(FireAll(s, Fired(s.timers, timePoint), endpoints, now).timers, id)
      == Lookup(Trigger(s.timers, timePoint), id)
  {
    var due := Fired(s.timers, timePoint);
    forall timer | timer in due ensures Lookup(s.timers, timer.id) == Some(timer) {
      FiredLookup(s.timers, timePoint, timer);
    }
    FiredDistinct(s.timers, timePoint);
    FireAllLookup(s, due, endpoints, now, id);
    LookupTrigger(s.timers, timePoint, id);
    LookupFound(s.timers, id);
    FiredLookup(s.timers, timePoint, Lookup(s.timers, id).value);
  }
}
