// The watchdog session of a module: connecting, the sequence code, and the ping timer
// with the pings and answers it keeps going.

module Session {
  import opened Messages

  datatype ConnectionState = NotConnected | Connected | Shutdown

  datatype ResponseCode = Success | InvalidConnectionState | NotModuleIdentifier | ModuleNotExists | Other

  // The connection state and sequence code a ping was sent under.
  datatype Ping = Ping(code: nat, under: ConnectionState, entry: nat)

  datatype State = State(
    connection: ConnectionState,
    sequenceCode: nat,             // not initialised: anything before the first entry
    armed: bool,                   // the ping timer is running
    due: nat,                      // its handlers that are to run: expired or cancelled waits
    pings: seq<nat>,               // sequence codes of pings on their way
    answers: seq<nat>,             // sequence codes of ping responses on their way
    // what happened so far
    entries: seq<nat>,             // codes of the responses that led to Connected
    sent: seq<Ping>,
    armings: nat,                  // calls of setTimerExpiration
    initialArmings: nat,           // those of them not caused by a ping response
    discarded: nat)                // pings and answers lost, answers with a wrong code

  ghost predicate Init(s: State) {
    && s.connection == NotConnected && !s.armed && s.due == 0 && s.pings == [] && s.answers == []
    && s.entries == [] && s.sent == [] && s.armings == 0 && s.initialArmings == 0 && s.discarded == 0
  }

  datatype Step =
    | ConnectResponse(responseCode: ResponseCode, sequenceCode: Option<nat>)
    | Disconnected                     // ModuleWatchdogConnection::disconnect
    | ShuttingDown
    | InitialArming                    // setTimerExpiration after a successful connect
    | TimerExpires
    | TimerHandler                     // timerExpired, which does not look at the error code
    | PingResponse(i: nat)             // the answer at position i arrives
    | PeerAnswers(i: nat, code: nat)   // the peer answers a ping, once, with any code
    | PingLost(i: nat)
    | AnswerLost(i: nat)

  predicate Enabled(s: State, step: Step) {
    match step
    case TimerExpires => s.armed
    case TimerHandler => s.due > 0
    case PingResponse(i) => i < |s.answers|
    case PeerAnswers(i, _) => i < |s.pings|
    case PingLost(i) => i < |s.pings|
    case AnswerLost(i) => i < |s.answers|
    case _ => true
  }

  function RemoveAt(s: seq<nat>, i: nat): seq<nat>
    requires i < |s|
  {
    s[..i] + s[i + 1..]
  }

  // `expires_from_now` cancels a wait that is still running: its handler becomes due.
  function SetTimer(s: State): State {
    s.(armed := true, due := s.due + (if s.armed then 1 else 0), armings := s.armings + 1)
  }

  // ResponseConnectHandler: ignored while connected, whatever it says.
  function OnConnectResponse(s: State, responseCode: ResponseCode, sequenceCode: Option<nat>): State {
    if s.connection == Connected then s
    else if responseCode == Success && sequenceCode.Some? then
      s.(sequenceCode := sequenceCode.value, connection := Connected, entries := s.entries + [sequenceCode.value])
    else s.(connection := NotConnected)
  }

  // ResponsePingHandler
  function OnPingResponse(s: State, code: nat): State {
    if code == s.sequenceCode then SetTimer(s) else s.(discarded := s.discarded + 1)
  }

  function SendPing(s: State): State {
    s.(pings := s.pings + [s.sequenceCode],
       sent := s.sent + [Ping(s.sequenceCode, s.connection, |s.entries|)])
  }

  function Next(s: State, step: Step): State
    requires Enabled(s, step)
  {
    match step
    case ConnectResponse(responseCode, sequenceCode) => OnConnectResponse(s, responseCode, sequenceCode)
    case Disconnected => if s.connection == Connected then s.(connection := NotConnected) else s
    case ShuttingDown => s.(connection := Shutdown)
    case InitialArming => SetTimer(s).(initialArmings := s.initialArmings + 1)
    case TimerExpires => s.(armed := false, due := s.due + 1)
    case TimerHandler => SendPing(s.(due := s.due - 1))
    case PingResponse(i) => OnPingResponse(s.(answers := RemoveAt(s.answers, i)), s.answers[i])
    case PeerAnswers(i, code) => s.(pings := RemoveAt(s.pings, i), answers := s.answers + [code])
    case PingLost(i) => s.(pings := RemoveAt(s.pings, i), discarded := s.discarded + 1)
    case AnswerLost(i) => s.(answers := RemoveAt(s.answers, i), discarded := s.discarded + 1)
  }

  predicate ValidRun(s: State, steps: seq<Step>)
    decreases |steps|
  {
    steps != [] ==> Enabled(s, steps[0]) && ValidRun(Next(s, steps[0]), steps[1..])
  }

  function Exec(s: State, steps: seq<Step>): State
    requires ValidRun(s, steps)
    decreases |steps|
  {
    if steps == [] then s else Exec(Next(s, steps[0]), steps[1..])
  }

  // ---------------------------------------------------------------- entering and leaving Connected

  // While not connected, also after a shutdown, a response connects if and only if it says
  // Success and brings a sequence code, which is then the session's; any other leads to
  // NotConnected. While connected a response changes nothing.
  lemma ConnectsIff(s: State, responseCode: ResponseCode, sequenceCode: Option<nat>)
    ensures
      var step := ConnectResponse(responseCode, sequenceCode);
      Enabled(s, step) &&
      var s' := Next(s, step);
      && (s.connection == Connected ==> s' == s)
      && (s.connection != Connected ==>
            && (s'.connection == Connected <==> responseCode == Success && sequenceCode.Some?)
            && (s'.connection == Connected ==> sequenceCode == Some(s'.sequenceCode))
            && (s'.connection != Connected ==> s'.connection == NotConnected && s'.sequenceCode == s.sequenceCode))
  {
  }

  // What other steps do to the connection: a disconnect ends Connected and leaves the other
  // states alone, a shutdown shuts down from anywhere, and nothing else changes it.
  lemma ConnectionChanges(s: State, step: Step)
    requires Enabled(s, step) && !step.ConnectResponse?
    ensures
      var s' := Next(s, step);
      && s'.sequenceCode == s.sequenceCode && s'.entries == s.entries
      && (step.Disconnected? ==> s'.connection != Connected)
      && (step.ShuttingDown? ==> s'.connection == Shutdown)
      && (s'.connection != s.connection ==>
            step.ShuttingDown? || (step.Disconnected? && s.connection == Connected && s'.connection == NotConnected))
  {
  }

  // ---------------------------------------------------------------- the sequence code

  ghost predicate CodeInv(s: State) {
    && (s.connection == Connected ==> s.entries != [])
    && (s.entries != [] ==> s.sequenceCode == s.entries[|s.entries| - 1])
    && forall i | 0 <= i < |s.sent| :: PingOk(s.sent[i], s.entries)
  }

  // A ping sent under Connected carries the code of the entry then last.
  ghost predicate PingOk(p: Ping, entries: seq<nat>) {
    p.entry <= |entries| && (p.under == Connected ==> p.entry > 0 && p.code == entries[p.entry - 1])
  }

  lemma CodeStep(s: State, step: Step)
    requires CodeInv(s) && Enabled(s, step)
    ensures CodeInv(Next(s, step))
    ensures Next(s, step).sequenceCode != s.sequenceCode ==>
      s.connection != Connected && Next(s, step).connection == Connected && step.ConnectResponse?
    ensures s.entries <= Next(s, step).entries
    ensures step.TimerHandler? ==> Next(s, step).pings == s.pings + [s.sequenceCode]
  {
  }

  lemma {:induction false} CodeRun(s: State, steps: seq<Step>)
    requires CodeInv(s) && ValidRun(s, steps)
    ensures CodeInv(Exec(s, steps))
    decreases |steps|
  {
    if steps == [] {
    } else {
      CodeStep(s, steps[0]);
      CodeRun(Next(s, steps[0]), steps[1..]);
    }
  }

  // Over every run: while connected the sequence code is that of the response which caused
  // the last entry; every ping ever sent while connected carried the code of the entry then
  // last; and an answer arms the timer again if and only if it carries the current code.
  lemma SessionInvariant(s: State, steps: seq<Step>, i: nat)
    requires Init(s) && ValidRun(s, steps)
    ensures
      var r := Exec(s, steps);
      && (r.connection == Connected ==> r.entries != [] && r.sequenceCode == r.entries[|r.entries| - 1])
      && (forall p | p in r.sent && p.under == Connected ::
            0 < p.entry <= |r.entries| && p.code == r.entries[p.entry - 1])
      && (i < |r.answers| && r.connection == Connected ==>
            (Next(r, PingResponse(i)).armings > r.armings <==> r.answers[i] == r.entries[|r.entries| - 1]))
  {
    CodeRun(s, steps);
    var r := Exec(s, steps);
    forall p | p in r.sent && p.under == Connected
      ensures 0 < p.entry <= |r.entries| && p.code == r.entries[p.entry - 1]
    {
      var k :| 0 <= k < |r.sent| && r.sent[k] == p;
      assert PingOk(r.sent[k], r.entries);
    }
  }

  // ---------------------------------------------------------------- the ping token

  function One(b: bool): nat { if b then 1 else 0 }

  // Every arming is a ping sent, a handler about to send one, or the running timer; and what
  // the initial armings brought in is still under way or was discarded.
  predicate TokenInv(s: State) {
    && s.armings == |s.sent| + s.due + One(s.armed)
    && s.initialArmings == One(s.armed) + s.due + |s.pings| + |s.answers| + s.discarded
  }

  lemma TokenStep(s: State, step: Step)
    requires TokenInv(s) && Enabled(s, step)
    ensures TokenInv(Next(s, step))
  {
  }

  lemma {:induction false} TokenRun(s: State, steps: seq<Step>)
    requires TokenInv(s) && ValidRun(s, steps)
    ensures TokenInv(Exec(s, steps))
    decreases |steps|
  {
    if steps == [] {
    } else {
      TokenStep(s, steps[0]);
      TokenRun(Next(s, steps[0]), steps[1..]);
    }
  }

  // Each arming causes exactly one ping. After a single initial arming, against a peer that
  // answers each ping at most once, the running timer, the handlers to run, the pings and
  // the answers on their way are never more than one together; and none is left for good
  // once a ping or an answer is lost or an answer does not match.
  lemma PingTokenConservation(s: State, steps: seq<Step>)
    requires Init(s) && ValidRun(s, steps)
    ensures
      var r := Exec(s, steps);
      && r.armings == |r.sent| + r.due + One(r.armed)
      && One(r.armed) + r.due + |r.pings| + |r.answers| == r.initialArmings - r.discarded
      && (r.initialArmings == 1 ==> One(r.armed) + r.due + |r.pings| + |r.answers| <= 1)
      && (r.initialArmings == r.discarded ==> !r.armed && r.due == 0 && r.pings == [] && r.answers == [])
  {
    TokenRun(s, steps);
  }

  // ---------------------------------------------------------------- the session goes on

  lemma RunPrepend(s: State, step: Step, rest: seq<Step>)
    requires Enabled(s, step) && ValidRun(Next(s, step), rest)
    ensures ValidRun(s, [step] + rest) && Exec(s, [step] + rest) == Exec(Next(s, step), rest)
  {
    assert ([step] + rest)[1..] == rest;
  }

  // In every reachable connected state with the timer running and nothing else under way: the
  // timer expires, one ping with the code of the last entry goes out, and the timer runs again
  // once its answer is here, if and only if the answer carries that code.
  lemma PingCycle(s: State, answer: nat)
    requires CodeInv(s) && s.connection == Connected && s.armed && s.due == 0 && s.pings == [] && s.answers == []
    ensures
      var steps := [TimerExpires] + ([TimerHandler] + ([PeerAnswers(0, answer)] + [PingResponse(0)]));
      ValidRun(s, steps) &&
      var r := Exec(s, steps);
      && r.sent == s.sent + [Ping(s.entries[|s.entries| - 1], Connected, |s.entries|)]
      && (r.armed <==> answer == s.entries[|s.entries| - 1])
      && r.connection == Connected && r.due == 0 && r.pings == [] && r.answers == []
  {
    var s1 := Next(s, TimerExpires);
    var s2 := Next(s1, TimerHandler);
    var s3 := Next(s2, PeerAnswers(0, answer));
    assert s3.answers == [answer] && s3.pings == [];
    var s4 := Next(s3, PingResponse(0));
    assert s4.answers == [];
    RunPrepend(s3, PingResponse(0), []);
    assert [PingResponse(0)] == [PingResponse(0)] + [];
    RunPrepend(s2, PeerAnswers(0, answer), [PingResponse(0)]);
    RunPrepend(s1, TimerHandler, [PeerAnswers(0, answer)] + [PingResponse(0)]);
    RunPrepend(s, TimerExpires, [TimerHandler] + ([PeerAnswers(0, answer)] + [PingResponse(0)]));
  }
}
