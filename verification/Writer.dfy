// The writing side of `TcpConnection`: header then body of the message at the front of
// the queue, guarded by `sendingInProgress`, over sockets that fail and are replaced, also
// while the completion of a write to the old socket is still to run.

module Writer {
  import opened Wire

  // The write that has not completed. After a replacement it is late: its completion is
  // still to run, without an error exactly if the old socket had taken all of its bytes.
  datatype Write = Nothing | HeaderWrite | BodyWrite | LateHeader(taken: bool) | LateBody(taken: bool)
  {
    predicate Current() { HeaderWrite? || BodyWrite? }
    predicate Late() { LateHeader? || LateBody? }
    predicate OfHeader() { HeaderWrite? || LateHeader? }
  }

  // A socket that is no longer used: the messages whose frames it has taken whole, how much
  // of the next one, and all its bytes.
  datatype OldSocket = OldSocket(carried: seq<WireMessage>, part: nat, stream: seq<Byte>)

  datatype State = State(
    queue: seq<WireMessage>,
    sendingInProgress: bool,
    open: bool,
    outstanding: Write,
    // what happened so far
    part: nat,                       // bytes of the front's frame on this socket
    stream: seq<Byte>,               // all bytes written to this socket
    carried: seq<WireMessage>,       // messages popped after this socket took their frames
    retired: seq<OldSocket>,
    popped: seq<WireMessage>,
    pushed: seq<WireMessage>)

  ghost predicate Init(s: State) {
    && s.queue == [] && !s.sendingInProgress && s.outstanding.Nothing?
    && s.part == 0 && s.stream == [] && s.carried == [] && s.retired == [] && s.popped == [] && s.pushed == []
  }

  datatype Step =
    | SendMessage(message: WireMessage)
    | Transmit(count: nat)           // the socket takes some more bytes of the write
    | WriteDone                      // completion without an error
    | WriteFailed                    // completion with an error
    | CloseSocket                    // a read error, a disconnect
    | NewSocket                      // a new socket is made and connected

  // Where in the frame of the front the current write ends.
  function WriteEnd(s: State): nat
    requires s.queue != []
  {
    match s.outstanding
    case HeaderWrite => HEADER_SIZE
    case BodyWrite => HEADER_SIZE + |s.queue[0].body|
    case _ => 0
  }

  // All bytes of the outstanding write are on the socket it was handed to.
  predicate Taken(s: State) {
    match s.outstanding
    case LateHeader(taken) => taken
    case LateBody(taken) => taken
    case _ => s.queue != [] && s.part == WriteEnd(s)
  }

  // A write completes without an error exactly when all of it has been taken.
  predicate Enabled(s: State, step: Step) {
    match step
    case SendMessage(_) => true
    case Transmit(count) =>
      s.open && s.outstanding.Current() && s.queue != [] && count > 0 && s.part + count <= WriteEnd(s)
    case WriteDone => !s.outstanding.Nothing? && s.queue != [] && Taken(s)
    case WriteFailed => !s.outstanding.Nothing? && s.queue != [] && !Taken(s)
    case CloseSocket => true
    case NewSocket => true
  }

  function WriteHeader(s: State): State { s.(outstanding := HeaderWrite) }

  // Pops the front behind its last write; a late write was to an older socket.
  function Pop(s: State): State
    requires s.queue != []
  {
    var s1 := s.(queue := s.queue[1..], popped := s.popped + [s.queue[0]], outstanding := Nothing);
    if s.outstanding.Late() then s1 else s1.(carried := s.carried + [s.queue[0]], part := 0)
  }

  // Goes on to the body of the front on the socket now in use, whichever took the header.
  function WriteBody(s: State): State {
    s.(outstanding := BodyWrite, part := if s.outstanding.Late() && s.open then HEADER_SIZE else s.part)
  }

  // postWriteMessageHeader: an empty body leaves sendingInProgress up behind the last message.
  function HeaderDone(s: State): State
    requires s.queue != []
  {
    if s.queue[0].body != [] then WriteBody(s)
    else
      var s1 := Pop(s);
      if s1.queue != [] then WriteHeader(s1) else s1
  }

  // postWriteMessageBody
  function BodyDone(s: State): State
    requires s.queue != []
  {
    var s1 := Pop(s);
    if s1.queue != [] then WriteHeader(s1) else s1.(sendingInProgress := false)
  }

  function Replaced(write: Write, taken: bool): Write {
    match write
    case HeaderWrite => LateHeader(taken)
    case BodyWrite => LateBody(taken)
    case _ => write
  }

  // The front's frame is whole on the socket, and its pop is still to come.
  predicate FrameOut(s: State) {
    s.outstanding.Current() && s.queue != [] && s.part == |Frame(s.queue[0])|
  }

  function Retire(s: State): OldSocket {
    if FrameOut(s) then OldSocket(s.carried + [s.queue[0]], 0, s.stream) else OldSocket(s.carried, s.part, s.stream)
  }

  function Next(s: State, step: Step): State
    requires Enabled(s, step)
  {
    match step
    case SendMessage(m) =>
      var s1 := s.(queue := s.queue + [m], pushed := s.pushed + [m]);
      if s.open && !s.sendingInProgress then WriteHeader(s1.(sendingInProgress := true)) else s1
    case Transmit(count) =>
      s.(part := s.part + count, stream := s.stream + Frame(s.queue[0])[s.part..s.part + count])
    case WriteDone => if s.outstanding.OfHeader() then HeaderDone(s) else BodyDone(s)
    case WriteFailed => s.(open := false, sendingInProgress := false, outstanding := Nothing)
    case CloseSocket => s.(open := false)
    case NewSocket =>
      s.(open := true, part := 0, stream := [], carried := [], outstanding := Replaced(s.outstanding, Taken(s)),
         retired := s.retired + [Retire(s)])
  }

  predicate ValidRun(s: State, steps: seq<Step>)
    decreases |steps|
  {
    steps != [] ==> Enabled(s, steps[0]) && ValidRun(Next(s, steps[0]), steps[1..])
  }

  function Exec(s: State, steps: seq<Step>): State
    requires ValidRun(s, steps)
    decreases |steps|
  {
    if steps == [] then s else Exec(Next(s, steps[0]), steps[1..])
  }

  lemma RunPrepend(s: State, step: Step, rest: seq<Step>)
    requires Enabled(s, step) && ValidRun(Next(s, step), rest)
    ensures ValidRun(s, [step] + rest) && Exec(s, [step] + rest) == Exec(Next(s, step), rest)
  {
    assert ([step] + rest)[1..] == rest;
  }

  // ---------------------------------------------------------------- invariants

  // The latch: the flag is up and no write is outstanding.
  predicate Latched(s: State) { s.sendingInProgress && s.outstanding.Nothing? }

  // First in, first out; a write has something to write and the flag is up.
  ghost predicate QueueInv(s: State) {
    && s.pushed == s.popped + s.queue
    && (!s.outstanding.Nothing? ==> s.sendingInProgress && s.queue != [])
    && (s.outstanding.BodyWrite? || s.outstanding.LateBody? ==> s.queue[0].body != [])
    && (Latched(s) ==> exists m :: m in s.popped && m.body == [])
  }

  // All messages whose frames some socket has taken whole, socket after socket.
  function CarriedOn(retired: seq<OldSocket>): seq<WireMessage> {
    if retired == [] then [] else CarriedOn(retired[..|retired| - 1]) + retired[|retired| - 1].carried
  }

  function Carried(s: State): seq<WireMessage> { CarriedOn(s.retired) + s.carried }

  // The front was carried by an older socket and only its pop is still to come.
  predicate FrontCarried(s: State) {
    s.outstanding == LateBody(true) || (s.outstanding == LateHeader(true) && s.queue != [] && s.queue[0].body == [])
  }

  // The messages no socket has carried yet.
  function Unsent(s: State): seq<WireMessage> {
    if FrontCarried(s) && s.queue != [] then s.queue[1..] else s.queue
  }

  // The bytes of the unfinished frame: of the message that follows the `n` carried ones.
  function Begun(pushed: seq<WireMessage>, n: nat, part: nat): seq<Byte> {
    if n < |pushed| && part <= |Frame(pushed[n])| then Frame(pushed[n])[..part] else []
  }

  predicate ProperPart(pushed: seq<WireMessage>, n: nat, part: nat) {
    n <= |pushed| && (if n < |pushed| then part < |Frame(pushed[n])| else part == 0)
  }

  predicate PartInv(s: State)
    requires !s.outstanding.Nothing? ==> s.queue != []
  {
    && (s.outstanding.Current() ==> s.part <= WriteEnd(s))
    && (s.outstanding.BodyWrite? && s.open ==> HEADER_SIZE <= s.part)
    && (s.outstanding.Nothing? && s.open ==> s.part == 0)
    && (s.outstanding.Nothing? ==> if s.queue == [] then s.part == 0 else s.part < |Frame(s.queue[0])|)
    && (s.outstanding.Late() ==> s.part == 0)
  }

  // A socket has carried whole frames of its messages, then a proper part of the frame of
  // the next message pushed.
  predicate OldSocketOk(pushed: seq<WireMessage>, retired: seq<OldSocket>, i: nat)
    requires i < |retired|
  {
    var n := |CarriedOn(retired[..i + 1])|;
    && ProperPart(pushed, n, retired[i].part)
    && retired[i].stream == Stream(retired[i].carried) + Begun(pushed, n, retired[i].part)
  }

  ghost predicate OldSocketsOk(pushed: seq<WireMessage>, retired: seq<OldSocket>) {
    forall i: nat | i < |retired| :: OldSocketOk(pushed, retired, i)
  }

  ghost predicate StreamInv(s: State)
    requires !s.outstanding.Nothing? ==> s.queue != []
  {
    && PartInv(s)
    && s.pushed == Carried(s) + Unsent(s)
    && s.stream == Stream(s.carried) + Begun(s.pushed, |Carried(s)|, s.part)
    && OldSocketsOk(s.pushed, s.retired)
  }

  ghost predicate Inv(s: State) { QueueInv(s) && StreamInv(s) }

  // ---------------------------------------------------------------- the queue, over every run

  lemma QueueStep(s: State, step: Step)
    requires QueueInv(s) && Enabled(s, step)
    ensures QueueInv(Next(s, step))
  {
    match step
    case SendMessage(m) => Associative(s.popped, s.queue, [m]);
    case WriteDone =>
      assert s.queue == [s.queue[0]] + s.queue[1..];
      Associative(s.popped, [s.queue[0]], s.queue[1..]);
      assert s.queue[0] in Pop(s).popped;
    case _ =>
  }

  lemma {:induction false} QueueRun(s: State, steps: seq<Step>)
    requires QueueInv(s) && ValidRun(s, steps)
    ensures QueueInv(Exec(s, steps))
    decreases |steps|
  {
    if steps == [] {
    } else {
      QueueStep(s, steps[0]);
      QueueRun(Next(s, steps[0]), steps[1..]);
    }
  }

  // Over any run, late completions included: the messages popped are a prefix of the messages
  // pushed; unless a message with an empty body was popped, the flag is up exactly while a
  // write is outstanding.
  lemma WriterOrder(s: State, steps: seq<Step>)
    requires Init(s) && ValidRun(s, steps)
    ensures
      var r := Exec(s, steps);
      && r.pushed == r.popped + r.queue
      && ((forall m | m in r.popped :: m.body != []) ==> (r.sendingInProgress <==> !r.outstanding.Nothing?))
  {
    QueueRun(s, steps);
  }

  // ---------------------------------------------------------------- the streams, step by step

  lemma FrontIsNext(s: State)
    requires s.pushed == Carried(s) + Unsent(s) && Unsent(s) != []
    ensures |Carried(s)| < |s.pushed| && s.pushed[|Carried(s)|] == Unsent(s)[0]
  {
  }

  // Later pushes do not change what a prefix of the log says.
  lemma OldSocketsAfterPush(pushed: seq<WireMessage>, retired: seq<OldSocket>, m: WireMessage)
    requires OldSocketsOk(pushed, retired)
    ensures OldSocketsOk(pushed + [m], retired)
  {
    forall i: nat | i < |retired| ensures OldSocketOk(pushed + [m], retired, i) {
      assert OldSocketOk(pushed, retired, i);
      BegunAfterPush(pushed, |CarriedOn(retired[..i + 1])|, retired[i].part, m);
    }
  }

  lemma BegunAfterPush(pushed: seq<WireMessage>, n: nat, part: nat, m: WireMessage)
    requires n < |pushed| || part == 0
    ensures Begun(pushed + [m], n, part) == Begun(pushed, n, part)
  {
  }

  lemma SendKeepsInv(s: State, m: WireMessage)
    requires Inv(s)
    ensures StreamInv(Next(s, SendMessage(m)))
  {
    var s' := Next(s, SendMessage(m));
    OldSocketsAfterPush(s.pushed, s.retired, m);
    if Unsent(s) != [] {
      FrontIsNext(s);
    }
    assert Unsent(s') == Unsent(s) + [m];
    Associative(Carried(s), Unsent(s), [m]);
    BegunAfterPush(s.pushed, |Carried(s)|, s.part, m);
  }

  lemma TransmitKeepsInv(s: State, count: nat)
    requires Inv(s) && Enabled(s, Transmit(count))
    ensures StreamInv(Next(s, Transmit(count)))
  {
    FrontIsNext(s);
    StreamGrows(s, Stream(s.carried), |Carried(s)|, count);
  }

  lemma StreamGrows(s: State, whole: seq<Byte>, n: nat, count: nat)
    requires n < |s.pushed| && s.queue != [] && s.pushed[n] == s.queue[0] && s.part + count <= |Frame(s.queue[0])|
    requires s.stream == whole + Begun(s.pushed, n, s.part)
    ensures s.stream + Frame(s.queue[0])[s.part..s.part + count] == whole + Begun(s.pushed, n, s.part + count)
  {
    BegunGrows(s.pushed, n, s.part, count);
    Associative(whole, Begun(s.pushed, n, s.part), Frame(s.queue[0])[s.part..s.part + count]);
  }

  lemma BegunGrows(pushed: seq<WireMessage>, n: nat, part: nat, count: nat)
    requires n < |pushed| && part + count <= |Frame(pushed[n])|
    ensures Begun(pushed, n, part) + Frame(pushed[n])[part..part + count] == Begun(pushed, n, part + count)
  {
  }

  // When the whole frame of the front is on the socket the message counts as carried.
  lemma CarryFront(s: State)
    requires Inv(s) && FrameOut(s)
    ensures s.pushed == (Carried(s) + [s.queue[0]]) + s.queue[1..]
    ensures s.stream == Stream(s.carried + [s.queue[0]])
    ensures CarriedOn(s.retired) + (s.carried + [s.queue[0]]) == Carried(s) + [s.queue[0]]
  {
    var m := s.queue[0];
    FrontIsNext(s);
    assert s.queue == [m] + s.queue[1..];
    StreamSnoc(s.carried, m);
    assert Frame(m)[..s.part] == Frame(m);
  }

  lemma PopKeepsInv(s: State)
    requires Inv(s) && (FrameOut(s) || FrontCarried(s)) && !s.outstanding.Nothing?
    ensures
      var s' := Pop(s);
      && s'.pushed == Carried(s') + s'.queue && s'.part == 0
      && s'.stream == Stream(s'.carried) && s'.pushed == s.pushed && s'.retired == s.retired
  {
    if FrameOut(s) {
      CarryFront(s);
    }
  }

  // A completed header write to a socket that has been replaced: the body goes to a socket
  // that has not seen the header.
  predicate Tears(s: State, step: Step) {
    step.WriteDone? && s.outstanding.LateHeader? && s.open && s.queue != [] && s.queue[0].body != []
  }

  lemma DoneKeepsInv(s: State)
    requires Inv(s) && Enabled(s, WriteDone) && !Tears(s, WriteDone)
    ensures StreamInv(Next(s, WriteDone))
  {
    if !s.outstanding.OfHeader() || s.queue[0].body == [] {
      PopKeepsInv(s);
      AfterPop(s, Next(s, WriteDone));
    } else {
      BodyFollows(s);
    }
  }

  lemma BodyFollows(s: State)
    requires Inv(s) && Enabled(s, WriteDone) && !Tears(s, WriteDone)
    requires s.outstanding.OfHeader() && s.queue[0].body != []
    ensures StreamInv(Next(s, WriteDone))
  {
    var s' := Next(s, WriteDone);
    assert s'.part == s.part && Carried(s') == Carried(s) && Unsent(s') == Unsent(s);
  }

  lemma AfterPop(s: State, s': State)
    requires Inv(s) && s'.outstanding in {Nothing, HeaderWrite} && (s'.queue == [] ==> s'.outstanding.Nothing?)
    requires s'.pushed == s.pushed && s'.retired == s.retired && s'.part == 0
    requires s'.pushed == Carried(s') + s'.queue && s'.stream == Stream(s'.carried)
    ensures StreamInv(s')
  {
    assert Begun(s'.pushed, |Carried(s')|, 0) == [];
    assert s'.stream + [] == s'.stream;
  }

  // The header is missing: the bytes written no longer are a part of the frame.
  lemma TearingBreaksInv(s: State)
    requires Inv(s) && Enabled(s, WriteDone) && Tears(s, WriteDone)
    ensures !StreamInv(Next(s, WriteDone))
  {
    var s' := Next(s, WriteDone);
    FrontIsNext(s);
    assert |Begun(s.pushed, |Carried(s)|, 0)| == 0 && |Begun(s'.pushed, |Carried(s')|, s'.part)| == HEADER_SIZE;
  }

  lemma NewSocketKeepsInv(s: State)
    requires Inv(s)
    ensures StreamInv(Next(s, NewSocket))
  {
    var s' := Next(s, NewSocket);
    var socket := Retire(s);
    assert s'.retired[..|s'.retired| - 1] == s.retired;
    if FrameOut(s) {
      CarryFront(s);
    } else if Unsent(s) != [] {
      FrontIsNext(s);
    }
    RetiredOk(s, socket);
    FreshSocket(s, s', CarriedOn(s.retired) + socket.carried);
  }

  // A socket just made has carried nothing.
  lemma FreshSocket(s: State, s': State, carried: seq<WireMessage>)
    requires Inv(s) && s' == Next(s, NewSocket) && CarriedOn(s'.retired) == carried
    requires s.pushed == carried + (if FrameOut(s) then s.queue[1..] else Unsent(s))
    requires OldSocketsOk(s'.pushed, s'.retired)
    ensures StreamInv(s')
  {
    assert Carried(s') == carried;
    assert Begun(s'.pushed, |Carried(s')|, 0) == [];
    assert Unsent(s') == if FrameOut(s) then s.queue[1..] else Unsent(s);
  }

  // The socket in use, as it is retired.
  lemma RetiredOk(s: State, socket: OldSocket)
    requires OldSocketsOk(s.pushed, s.retired)
    requires
      var n := |CarriedOn(s.retired) + socket.carried|;
      ProperPart(s.pushed, n, socket.part) && socket.stream == Stream(socket.carried) + Begun(s.pushed, n, socket.part)
    ensures OldSocketsOk(s.pushed, s.retired + [socket])
  {
    var retired := s.retired + [socket];
    forall i: nat | i < |retired| ensures OldSocketOk(s.pushed, retired, i) {
      if i < |s.retired| {
        assert OldSocketOk(s.pushed, s.retired, i) && retired[..i + 1] == s.retired[..i + 1];
      } else {
        assert retired[..i + 1] == retired && retired[..i] == s.retired;
      }
    }
  }

  // A step keeps streams, logs and flag in agreement if and only if it does not tear a frame.
  lemma InvStep(s: State, step: Step)
    requires Inv(s) && Enabled(s, step)
    ensures Inv(Next(s, step)) <==> !Tears(s, step)
  {
    QueueStep(s, step);
    match step
    case SendMessage(m) => SendKeepsInv(s, m);
    case Transmit(count) => TransmitKeepsInv(s, count);
    case WriteDone =>
      if Tears(s, WriteDone) {
        TearingBreaksInv(s);
      } else {
        DoneKeepsInv(s);
      }
    case NewSocket => NewSocketKeepsInv(s);
    case _ =>
  }

  ghost predicate NeverTears(s: State, steps: seq<Step>)
    requires ValidRun(s, steps)
    decreases |steps|
  {
    steps != [] ==> !Tears(s, steps[0]) && NeverTears(Next(s, steps[0]), steps[1..])
  }

  // The invariant holds in every state on the way.
  ghost predicate AlwaysFramed(s: State, steps: seq<Step>)
    requires ValidRun(s, steps)
    decreases |steps|
  {
    Inv(s) && (steps != [] ==> AlwaysFramed(Next(s, steps[0]), steps[1..]))
  }

  // Throughout a run the sockets carry nothing but frames of their messages, in order, if and
  // only if no late completion of a header goes on to the body.
  lemma {:induction false} FramedRunIff(s: State, steps: seq<Step>)
    requires Inv(s) && ValidRun(s, steps)
    ensures AlwaysFramed(s, steps) <==> NeverTears(s, steps)
    ensures NeverTears(s, steps) ==> Inv(Exec(s, steps))
    decreases |steps|
  {
    if steps == [] {
    } else {
      InvStep(s, steps[0]);
      if Inv(Next(s, steps[0])) {
        FramedRunIff(Next(s, steps[0]), steps[1..]);
      }
    }
  }

  lemma FramedFromInit(s: State, steps: seq<Step>)
    requires Init(s) && ValidRun(s, steps) && NeverTears(s, steps)
    ensures Inv(Exec(s, steps))
  {
    FramedRunIff(s, steps);
  }

  // ---------------------------------------------------------------- when nothing is torn

  // A socket is replaced only after the last completion of the old one has run.
  ghost predicate DrainsFirst(s: State, steps: seq<Step>)
    requires ValidRun(s, steps)
    decreases |steps|
  {
    steps != [] ==>
      (steps[0].NewSocket? ==> s.outstanding.Nothing?) && DrainsFirst(Next(s, steps[0]), steps[1..])
  }

  lemma {:induction false} DrainedNeverTears(s: State, steps: seq<Step>)
    requires !s.outstanding.Late() && ValidRun(s, steps) && DrainsFirst(s, steps)
    ensures NeverTears(s, steps)
    decreases |steps|
  {
    if steps == [] {
    } else {
      DrainedNeverTears(Next(s, steps[0]), steps[1..]);
    }
  }

  // Otherwise it can come to it: the header is out on the old socket, its completion runs when
  // a new socket is in use, and the stream of the new one begins with the body.
  lemma LateCompletionTears(s: State, m: WireMessage)
    requires Init(s) && s.open && m.body != []
    ensures
      var steps := [SendMessage(m)] + ([Transmit(HEADER_SIZE)] + ([NewSocket] + ([WriteDone] + [Transmit(|m.body|)])));
      ValidRun(s, steps) && Exec(s, steps).stream == m.body
  {
    var s1 := Next(s, SendMessage(m));
    assert s1.queue == [m];
    var s2 := Next(s1, Transmit(HEADER_SIZE));
    var s3 := Next(s2, NewSocket);
    var s4 := Next(s3, WriteDone);
    assert s4.queue == [m] && s4.part == HEADER_SIZE && s4.outstanding == BodyWrite && s4.open && s4.stream == [];
    BodyOfFrame(m);
    OneStep(s4, Transmit(|m.body|));
    RunPrepend(s3, WriteDone, [Transmit(|m.body|)]);
    RunPrepend(s2, NewSocket, [WriteDone] + [Transmit(|m.body|)]);
    RunPrepend(s1, Transmit(HEADER_SIZE), [NewSocket] + ([WriteDone] + [Transmit(|m.body|)]));
    RunPrepend(s, SendMessage(m), [Transmit(HEADER_SIZE)] + ([NewSocket] + ([WriteDone] + [Transmit(|m.body|)])));
  }

  lemma BodyOfFrame(m: WireMessage)
    ensures Frame(m)[HEADER_SIZE..HEADER_SIZE + |m.body|] == m.body
  {
  }

  lemma OneStep(s: State, step: Step)
    requires Enabled(s, step)
    ensures ValidRun(s, [step]) && Exec(s, [step]) == Next(s, step)
  {
    RunPrepend(s, step, []);
    assert [step] == [step] + [];
  }

  // ---------------------------------------------------------------- the latch

  // `sendingInProgress` is up without a write in exactly one way: the completed header was
  // that of a last message with an empty body.
  lemma LatchesIff(s: State, step: Step)
    requires QueueInv(s) && !Latched(s) && Enabled(s, step)
    ensures Latched(Next(s, step)) <==>
      step.WriteDone? && s.outstanding.OfHeader() && |s.queue| == 1 && s.queue[0].body == []
  {
  }

  // From then on no message is ever written or popped, whatever is sent or reconnected.
  lemma {:induction false} LatchedForever(s: State, steps: seq<Step>)
    requires Latched(s) && ValidRun(s, steps)
    ensures
      var r := Exec(s, steps);
      Latched(r) && r.popped == s.popped && s.queue <= r.queue && (r.stream == s.stream || r.stream == [])
    decreases |steps|
  {
    if steps == [] {
    } else {
      LatchedForever(Next(s, steps[0]), steps[1..]);
    }
  }

  // It comes to that: one message with an empty body, sent over an open connection.
  lemma EmptyBodyLatches(s: State, m: WireMessage, after: seq<Step>)
    requires Init(s) && s.open && m.body == []
    ensures
      var steps := [SendMessage(m)] + ([Transmit(HEADER_SIZE)] + [WriteDone]);
      ValidRun(s, steps) && Latched(Exec(s, steps)) && Exec(s, steps).popped == [m]
      && (ValidRun(Exec(s, steps), after) ==> Exec(Exec(s, steps), after).popped == [m])
  {
    var s1 := Next(s, SendMessage(m));
    assert s1.queue == [m];
    var s2 := Next(s1, Transmit(HEADER_SIZE));
    var s3 := Next(s2, WriteDone);
    assert s3.queue == [] && s3.popped == [m];
    OneStep(s2, WriteDone);
    RunPrepend(s1, Transmit(HEADER_SIZE), [WriteDone]);
    RunPrepend(s, SendMessage(m), [Transmit(HEADER_SIZE)] + [WriteDone]);
    if ValidRun(s3, after) {
      LatchedForever(s3, after);
    }
  }

  // ---------------------------------------------------------------- the writer goes on by itself

  // An open connection with a write to its socket, and no empty body behind it.
  ghost predicate Sending(s: State) {
    Inv(s) && s.open && s.outstanding.Current() && forall m | m in s.queue :: m.body != []
  }

  // Nothing is queued, and the next message will start a write.
  predicate Idle(s: State) { s.queue == [] && s.outstanding.Nothing? && !s.sendingInProgress && s.open }

  predicate SendStep(step: Step) { step.Transmit? || step.WriteDone? }

  // Bytes and completions that are still to come for the messages queued.
  function Work(s: State): int {
    if s.outstanding.Current()
    then |Stream(s.queue)| - s.part + 2 * |s.queue| - (if s.outstanding.BodyWrite? then 1 else 0)
    else 0
  }

  // The socket can take another byte, or the completion can run.
  lemma SendingGoesOn(s: State)
    requires Sending(s)
    ensures Work(s) > 0
    ensures exists step :: SendStep(step) && Enabled(s, step)
  {
    var step := if s.part < WriteEnd(s) then Transmit(1) else WriteDone;
    assert SendStep(step) && Enabled(s, step);
    assert Stream(s.queue) == Frame(s.queue[0]) + Stream(s.queue[1..]);
  }

  // Each such step leaves less to do, until the queue is empty and the flag is down.
  lemma SendingStep(s: State, step: Step)
    requires Sending(s) && SendStep(step) && Enabled(s, step)
    ensures Work(Next(s, step)) < Work(s) && Next(s, step).pushed == s.pushed
    ensures QueueInv(Next(s, step)) && (Sending(Next(s, step)) || Idle(Next(s, step)))
  {
    InvStep(s, step);
    assert Stream(s.queue) == Frame(s.queue[0]) + Stream(s.queue[1..]);
    assert forall m | m in s.queue[1..] :: m in s.queue;
    assert s.queue[0] in s.queue;
  }

  // Without any further call of sendMessage the transmissions and completions of the messages
  // that are queued send them all.
  lemma {:induction false} WriterDrains(s: State) returns (steps: seq<Step>)
    requires Sending(s)
    ensures ValidRun(s, steps) && forall step | step in steps :: SendStep(step)
    ensures Idle(Exec(s, steps)) && Exec(s, steps).popped == s.pushed
    decreases Work(s)
  {
    SendingGoesOn(s);
    var step :| SendStep(step) && Enabled(s, step);
    var s' := Next(s, step);
    SendingStep(s, step);
    var rest := [];
    if Sending(s') {
      rest := WriterDrains(s');
    } else {
      assert s'.pushed == s'.popped + [] == s'.popped;
    }
    RunPrepend(s, step, rest);
    steps := [step] + rest;
  }

  // However they are cut and interleaved: there are only so many of them, and none is possible
  // any more exactly when everything that was pushed is sent.
  lemma {:induction false} EveryRunDrains(s: State, steps: seq<Step>)
    requires Sending(s) || (Idle(s) && QueueInv(s))
    requires ValidRun(s, steps) && forall step | step in steps :: SendStep(step)
    ensures
      var r := Exec(s, steps);
      && |steps| <= Work(s) - Work(r) && r.pushed == s.pushed && Work(r) >= 0
      && ((forall step | SendStep(step) :: !Enabled(r, step)) <==> r.queue == [])
      && (r.queue == [] ==> r.popped == s.pushed && !r.sendingInProgress)
    decreases |steps|
  {
    if steps == [] {
      if Sending(s) {
        SendingGoesOn(s);
      }
      assert s.queue == [] ==> s.popped + [] == s.popped;
    } else {
      assert steps[0] in steps && forall step | step in steps[1..] :: step in steps;
      SendingStep(s, steps[0]);
      EveryRunDrains(Next(s, steps[0]), steps[1..]);
    }
  }

  // A message given to an open connection with no write outstanding starts one, also when older
  // messages are queued; so by the lemmas above it is sent, behind them.
  lemma SendMessageStarts(s: State, m: WireMessage)
    requires Inv(s) && s.open && !s.sendingInProgress && forall x | x in s.queue + [m] :: x.body != []
    ensures
      var s' := Next(s, SendMessage(m));
      Sending(s') && s'.outstanding == HeaderWrite && s'.queue == s.queue + [m]
  {
    InvStep(s, SendMessage(m));
  }

  // ---------------------------------------------------------------- delivery

  // Over any run of sends, failures and replaced sockets in which nothing is torn: the frames
  // carried are those of a prefix of the messages pushed, and of no more than the popped ones
  // and the front; the stream of every socket is whole frames of its own messages and then
  // at most a proper part of the frame of the next one.
  lemma WriterDelivery(s: State, steps: seq<Step>)
    requires Init(s) && ValidRun(s, steps) && NeverTears(s, steps)
    ensures
      var r := Exec(s, steps);
      && r.pushed == r.popped + r.queue
      && (Carried(r) == r.popped || (r.outstanding.Late() && r.queue != [] && Carried(r) == r.popped + [r.queue[0]]))
      && OldSocketsOk(r.pushed, r.retired)
      && r.stream == Stream(r.carried) + Begun(r.pushed, |Carried(r)|, r.part)
      && (!r.outstanding.Current() ==> ProperPart(r.pushed, |Carried(r)|, r.part))
  {
    FramedFromInit(s, steps);
    var r := Exec(s, steps);
    if Unsent(r) != [] {
      FrontIsNext(r);
    }
    CarriedOrFront(r);
  }

  lemma CarriedOrFront(r: State)
    requires Inv(r)
    ensures Carried(r) == r.popped || (FrontCarried(r) && r.queue != [] && Carried(r) == r.popped + [r.queue[0]])
  {
    if FrontCarried(r) {
      assert r.queue == [r.queue[0]] + r.queue[1..];
      assert r.pushed == (r.popped + [r.queue[0]]) + r.queue[1..];
      SameSuffix(r.popped + [r.queue[0]], Carried(r), r.queue[1..]);
    } else {
      SameSuffix(r.popped, Carried(r), r.queue);
    }
  }

  lemma SameSuffix<T>(a: seq<T>, b: seq<T>, c: seq<T>)
    requires a + c == b + c
    ensures a == b
  {
    assert |a| == |b|;
    assert a == (a + c)[..|a|] && b == (b + c)[..|b|];
  }
}
