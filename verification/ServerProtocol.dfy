// The reliable-request protocol of `Server` as a state machine over the timer table:
// an outgoing queue with one send in flight, a one-shot resend timer per send, and an
// index from transaction codes to timer IDs. Each step is one call or callback.

module ServerProtocol {
  import opened Messages
  import opened Timers
  import opened TimerTable
  import opened TimerIds

  datatype Outgoing = Outgoing(destination: Destination, message: Message)

  // What a caller asked for: a message for a service, wherever it is reached.
  datatype Request = Request(serviceIdentifier: nat, message: Message)

  function RequestOf(o: Outgoing): Request { Request(o.destination.serviceIdentifier, o.message) }

  function ParkedRequest(p: ParkedMessage): Request { Request(p.destination.serviceIdentifier, p.message) }

  datatype State = State(
    queue: seq<Outgoing>,         // messageQueue
    index: map<nat, nat>,         // transactionAndTimerID
    timers: Table,                // the contents of timersCache
    delay: int,                   // timeBetweenMessageResendsInSeconds
    inFlight: nat,                // sends handed to the socket and not completed
    failed: nat,                  // sends completed with an error
    // what happened so far
    submitted: seq<Request>,      // calls that found an endpoint
    acked: seq<Request>,          // messages whose timer a Success response removed
    dropped: seq<Request>,        // resends that found no endpoint
    pushed: seq<Outgoing>,
    started: seq<Outgoing>)

  ghost predicate Init(s: State) {
    && s.queue == [] && s.index == map[] && s.timers == [] && s.inFlight == 0 && s.failed == 0
    && s.submitted == [] && s.acked == [] && s.dropped == [] && s.pushed == [] && s.started == []
  }

  // ---------------------------------------------------------------- the code of Server

  function ResendTimer(s: State, o: Outgoing, id: nat, now: int): TimerValue {
    TimerValue(id, now, s.delay, false, Waiting,
      Resend(ParkedMessage(o.message.transactionCode, o.destination, o.message)))
  }

  // `emplace` leaves an entry that is already there alone.
  function Emplace(index: map<nat, nat>, code: nat, id: nat): map<nat, nat> {
    if code in index then index else index[code := id]
  }

  ghost function StartTimerToResend(s: State, o: Outgoing, now: int): State {
    var id := FreshId(s.timers);
    s.(timers := InsertTimer(s.timers, ResendTimer(s, o, id, now)),
       index := Emplace(s.index, o.message.transactionCode, id))
  }

  ghost function Send(s: State, now: int): State
    requires s.queue != []
  {
    StartTimerToResend(s, s.queue[0], now).(inFlight := s.inFlight + 1, started := s.started + [s.queue[0]])
  }

  function Enqueue(s: State, o: Outgoing): State { s.(queue := s.queue + [o], pushed := s.pushed + [o]) }

  ghost function Push(s: State, o: Outgoing, now: int): State {
    var s1 := Enqueue(s, o);
    if |s1.queue| > 1 then s1 else Send(s1, now)
  }

  // `sendRequest`: the endpoint comes from the local map or the database, if any.
  ghost function SendRequest(s: State, request: Request, endpoint: Option<nat>, now: int): State {
    match endpoint
    case None => s
    case Some(e) => Push(s, Outgoing(Destination(request.serviceIdentifier, e), request.message), now)
  }

  // What `sendRequest` returns: true only if sending starts at once.
  predicate StartsNow(s: State, endpoint: Option<nat>) { endpoint.Some? && s.queue == [] }

  // The completion handler of `async_send_to`; an error leaves everything as it is.
  ghost function SendCompleted(s: State, ok: bool, now: int): State
    requires s.inFlight > 0 && s.queue != []
  {
    var s1 := EndSend(s, ok);
    if !ok || s1.queue == [] then s1 else Send(s1, now)
  }

  function EndSend(s: State, ok: bool): State
    requires s.inFlight > 0 && s.queue != []
  {
    if ok then s.(inFlight := s.inFlight - 1, queue := s.queue[1..])
    else s.(inFlight := s.inFlight - 1, failed := s.failed + 1)
  }

  ghost function HandleResponse(s: State, success: bool, code: nat): State {
    if success && code in s.index then
      s.(timers := RemoveId(s.timers, s.index[code]), index := s.index - {code},
         acked := s.acked + Acknowledged(Lookup(s.timers, s.index[code])))
    else s
  }

  function Acknowledged(timer: Option<TimerValue>): seq<Request> {
    if timer.Some? && timer.value.callback.Resend? then [ParkedRequest(timer.value.callback.parked)] else []
  }

  // The callback of a resend timer.
  ghost function ResendCallback(s: State, parked: ParkedMessage, endpoint: Option<nat>, now: int): State {
    var s1 := s.(index := s.index - {parked.transactionCode});
    var s2 := SendRequest(s1, ParkedRequest(parked), endpoint, now);
    if endpoint.None? then s2.(dropped := s2.dropped + [ParkedRequest(parked)]) else s2
  }

  // A trigger pass running one callback: running, the callback, ended.
  ghost function Fire(s: State, timer: TimerValue, endpoint: Option<nat>, now: int): State {
    var s1 := s.(timers := SetStatus(s.timers, timer.id, Running));
    var s2 := if timer.callback.Resend? then ResendCallback(s1, timer.callback.parked, endpoint, now) else s1;
    s2.(timers := SetStatus(s2.timers, timer.id, Ended))
  }

  // ---------------------------------------------------------------- steps

  datatype Step =
    | Submit(request: Request, endpoint: Option<nat>, now: int)
    | Completed(ok: bool, now: int)
    | Response(success: bool, code: nat)
    | FireTimer(id: nat, timePoint: int, endpoint: Option<nat>, now: int)
    | RestartPass(readings: seq<int>)
    | RemovePass
    // other users of the same cache, who touch only timers of their own
    | UserRegister(timer: TimerValue)
    | UserRemove(id: nat)
    | UserRestart(id: nat, now: int)

  predicate UserOwned(t: Table, id: nat) {
    var timer := Lookup(t, id);
    timer.Some? ==> timer.value.callback.UserCallback?
  }

  predicate HasFreeId(s: State) { |s.timers| <= MAX_UINT32 }

  ghost predicate Enabled(s: State, step: Step) {
    match step
    case Submit(_, _, _) => HasFreeId(s)
    case Completed(_, _) => s.inFlight > 0 && s.queue != [] && HasFreeId(s)
    case Response(_, _) => true
    case FireTimer(id, timePoint, _, _) =>
      Lookup(s.timers, id).Some? && Lookup(s.timers, id).value.Due(timePoint) && HasFreeId(s)
    case RestartPass(readings) => |readings| == |Keep(s.timers, EndedRepeatable)|
    case RemovePass => true
    case UserRegister(timer) => timer.callback.UserCallback? && timer.status == Waiting && HasFreeId(s)
    case UserRemove(id) => UserOwned(s.timers, id)
    case UserRestart(id, _) => UserOwned(s.timers, id)
  }

  ghost function Next(s: State, step: Step): State
    requires Enabled(s, step)
  {
    match step
    case Submit(request, endpoint, now) =>
      SendRequest(s, request, endpoint, now).(submitted := s.submitted + if endpoint.Some? then [request] else [])
    case Completed(ok, now) => SendCompleted(s, ok, now)
    case Response(success, code) => HandleResponse(s, success, code)
    case FireTimer(id, _, endpoint, now) => Fire(s, Lookup(s.timers, id).value, endpoint, now)
    case RestartPass(readings) => s.(timers := RestartRepeatable(s.timers, readings))
    case RemovePass => s.(timers := RemoveEnded(s.timers))
    case UserRegister(timer) => s.(timers := InsertTimer(s.timers, timer.(id := FreshId(s.timers))))
    case UserRemove(id) => s.(timers := RemoveId(s.timers, id))
    case UserRestart(id, now) => s.(timers := Restart(s.timers, id, now))
  }

  ghost predicate ValidRun(s: State, steps: seq<Step>)
    decreases |steps|
  {
    steps != [] ==> Enabled(s, steps[0]) && ValidRun(Next(s, steps[0]), steps[1..])
  }

  ghost function Exec(s: State, steps: seq<Step>): State
    requires ValidRun(s, steps)
    decreases |steps|
  {
    if steps == [] then s else Exec(Next(s, steps[0]), steps[1..])
  }

  lemma {:induction false} RunAppend(s: State, steps: seq<Step>, more: seq<Step>)
    requires ValidRun(s, steps)
    ensures ValidRun(s, steps + more) <==> ValidRun(Exec(s, steps), more)
    ensures ValidRun(s, steps + more) ==> Exec(s, steps + more) == Exec(Exec(s, steps), more)
    decreases |steps|
  {
    if steps == [] {
      assert steps + more == more;
    } else {
      RunAppend(Next(s, steps[0]), steps[1..], more);
      assert (steps + more)[1..] == steps[1..] + more;
    }
  }

  lemma RunPrepend(s: State, step: Step, rest: seq<Step>)
    requires Enabled(s, step) && ValidRun(Next(s, step), rest)
    ensures ValidRun(s, [step] + rest) && Exec(s, [step] + rest) == Exec(Next(s, step), rest)
  {
    assert ([step] + rest)[1..] == rest;
  }

  lemma TwoSteps(s: State, steps: seq<Step>, s1: State, s2: State)
    requires |steps| == 2 && Enabled(s, steps[0]) && s1 == Next(s, steps[0])
    requires Enabled(s1, steps[1]) && s2 == Next(s1, steps[1])
    ensures ValidRun(s, steps) && Exec(s, steps) == s2
  {
    assert steps[1..][0] == steps[1] && steps[1..][1..] == [];
    assert Exec(s1, steps[1..]) == Exec(s2, []);
  }

  // ---------------------------------------------------------------- pending copies

  // The request waiting in a resend timer that has not fired.
  function ArmedBy(timer: TimerValue): seq<Request> {
    if timer.status == Waiting && timer.callback.Resend? then [ParkedRequest(timer.callback.parked)] else []
  }

  function Armed(t: Table): seq<Request> {
    if t == [] then [] else ArmedBy(t[0].timer) + Armed(t[1..])
  }

  function Requests(q: seq<Outgoing>): seq<Request> {
    seq(|q|, i requires 0 <= i < |q| => RequestOf(q[i]))
  }

  // The messages queued behind the one being sent.
  function Behind(queue: seq<Outgoing>): seq<Outgoing> {
    if queue == [] then [] else queue[1..]
  }

  // The copies that will still be sent: queued behind the front, or armed.
  ghost function Pending(s: State): multiset<Request> {
    multiset(Requests(Behind(s.queue))) + multiset(Armed(s.timers))
  }

  // ---------------------------------------------------------------- armed requests under the operations

  lemma {:induction false} ArmedInsert(t: Table, e: Entry)
    ensures multiset(Armed(Insert(t, e))) == multiset(Armed(t)) + multiset(ArmedBy(e.timer))
  {
    if t != [] && t[0].key <= e.key {
      ArmedInsert(t[1..], e);
      assert Insert(t, e)[1..] == Insert(t[1..], e);
    } else {
      assert ([e] + t)[1..] == t;
    }
  }

  lemma {:induction false} ArmedRemove(t: Table, id: nat)
    ensures multiset(Armed(t)) == multiset(Armed(RemoveId(t, id))) +
      if Lookup(t, id).Some? then multiset(ArmedBy(Lookup(t, id).value)) else multiset{}
  {
    if t == [] || t[0].timer.id == id {
    } else {
      ArmedRemove(t[1..], id);
      assert RemoveId(t, id)[1..] == RemoveId(t[1..], id);
    }
  }

  lemma {:induction false} ArmedSetStatus(t: Table, id: nat, status: ActionStatus)
    requires status != Waiting
    ensures multiset(Armed(t)) == multiset(Armed(SetStatus(t, id, status))) +
      if Lookup(t, id).Some? then multiset(ArmedBy(Lookup(t, id).value)) else multiset{}
  {
    if t == [] {
    } else {
      if t[0].timer.id == id {
        assert SetStatus(t, id, status)[1..] == t[1..];
      } else {
        ArmedSetStatus(t[1..], id, status);
        assert SetStatus(t, id, status)[1..] == SetStatus(t[1..], id, status);
      }
    }
  }

  lemma {:induction false} ArmedKeep(t: Table, p: TimerValue -> bool)
    requires forall timer: TimerValue :: timer.status == Waiting ==> p(timer)
    ensures Armed(Keep(t, p)) == Armed(t)
  {
    if t == [] {
    } else {
      ArmedKeep(t[1..], p);
      if p(t[0].timer) {
        assert Keep(t, p)[1..] == Keep(t[1..], p);
      } else {
        assert Keep(t, p) == Keep(t[1..], p);
      }
    }
  }

  // Resend timers do not repeat, so putting repeatable timers back arms nothing.
  lemma {:induction false} ArmedReinsert(t: Table, again: Table, readings: seq<int>)
    requires |again| == |readings| && forall e | e in again :: e.timer.callback.UserCallback?
    ensures multiset(Armed(Reinsert(t, again, readings))) == multiset(Armed(t))
    decreases |again|
  {
    if again == [] {
    } else {
      Unfold(again);
      var timer := Renewed(again[0].timer, readings[0]);
      assert again[0] in again;
      ArmedInsert(t, Entry(timer.Expiry(), timer));
      ArmedReinsert(InsertTimer(t, timer), again[1..], readings[1..]);
    }
  }
}
