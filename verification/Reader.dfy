// The reading side of `TcpConnection`: header, body, header, body. A read completes when
// the bytes it asked for have arrived, whatever pieces they arrive in.

module Reader {
  import opened Wire

  datatype Phase =
    | AwaitHeader
    | AwaitBody(header: Header)
    | Stopped                     // a header asked for an empty body: no read follows

  datatype State = State(phase: Phase, arrived: seq<Byte>, handedOver: seq<WireMessage>)

  const START := State(AwaitHeader, [], [])

  predicate CanComplete(s: State) {
    match s.phase
    case AwaitHeader => |s.arrived| >= HEADER_SIZE
    case AwaitBody(header) => |s.arrived| >= header.size
    case Stopped => false
  }

  // postReadMessageHeader and postReadMessageBody
  function Complete(s: State): State
    requires CanComplete(s)
  {
    match s.phase
    case AwaitHeader =>
      var header := DecodeHeader(s.arrived[..HEADER_SIZE]);
      s.(arrived := s.arrived[HEADER_SIZE..], phase := if header.size == 0 then Stopped else AwaitBody(header))
    case AwaitBody(header) =>
      State(AwaitHeader, s.arrived[header.size..],
            s.handedOver + [WireMessage(header, s.arrived[..header.size])])
  }

  predicate Valid(s: State) { s.phase.AwaitBody? ==> s.phase.header.size > 0 }

  // All reads that can complete with the bytes at hand.
  function Drain(s: State): State
    requires Valid(s)
    decreases |s.arrived|
  {
    if CanComplete(s) then Drain(Complete(s)) else s
  }

  function Receive(s: State, bytes: seq<Byte>): State
    requires Valid(s)
  {
    Drain(s.(arrived := s.arrived + bytes))
  }

  function ReceiveAll(s: State, pieces: seq<seq<Byte>>): State
    requires Valid(s)
    decreases |pieces|
  {
    if pieces == [] then s
    else
      DrainValid(s.(arrived := s.arrived + pieces[0]));
      ReceiveAll(Receive(s, pieces[0]), pieces[1..])
  }

  function Concat(pieces: seq<seq<Byte>>): seq<Byte> {
    if pieces == [] then [] else pieces[0] + Concat(pieces[1..])
  }

  lemma {:induction false} DrainValid(s: State)
    requires Valid(s)
    ensures Valid(Drain(s)) && !CanComplete(Drain(s))
    decreases |s.arrived|
  {
    if !CanComplete(s) {
    } else {
      DrainValid(Complete(s));
    }
  }

  // Bytes that arrive after the completions that were possible without them change nothing.
  lemma {:induction false} DrainLater(s: State, more: seq<Byte>)
    requires Valid(s)
    ensures Valid(Drain(s))
    ensures Drain(Drain(s).(arrived := Drain(s).arrived + more)) == Drain(s.(arrived := s.arrived + more))
    decreases |s.arrived|
  {
    DrainValid(s);
    if !CanComplete(s) {
    } else {
      var longer := s.(arrived := s.arrived + more);
      var n := if s.phase.AwaitHeader? then HEADER_SIZE else s.phase.header.size;
      assert longer.arrived[..n] == s.arrived[..n];
      assert longer.arrived[n..] == s.arrived[n..] + more;
      assert Complete(longer) == Complete(s).(arrived := Complete(s).arrived + more);
      DrainLater(Complete(s), more);
    }
  }

  // The messages handed over depend on the bytes only, not on the pieces they came in.
  lemma {:induction false} PiecesDoNotMatter(s: State, pieces: seq<seq<Byte>>)
    requires Valid(s) && !CanComplete(s)
    ensures ReceiveAll(s, pieces) == Drain(s.(arrived := s.arrived + Concat(pieces)))
    decreases |pieces|
  {
    if pieces == [] {
      assert s.arrived + Concat(pieces) == s.arrived;
    } else {
      var s0 := s.(arrived := s.arrived + pieces[0]);
      DrainValid(s0);
      PiecesDoNotMatter(Drain(s0), pieces[1..]);
      DrainLater(s0, Concat(pieces[1..]));
      assert s.arrived + Concat(pieces) == s0.arrived + Concat(pieces[1..]);
    }
  }

  // ---------------------------------------------------------------- framing undoes itself

  lemma DrainFrame(m: WireMessage, rest: seq<Byte>, done: seq<WireMessage>)
    requires WellFramed(m) && m.body != []
    ensures Drain(State(AwaitHeader, Frame(m) + rest, done)) == Drain(State(AwaitHeader, rest, done + [m]))
  {
    var s := State(AwaitHeader, Frame(m) + rest, done);
    HeaderRoundTrip(m.header);
    assert s.arrived[..HEADER_SIZE] == EncodeHeader(m.header);
    assert s.arrived[HEADER_SIZE..] == m.body + rest;
    var s1 := Complete(s);
    assert s1 == State(AwaitBody(m.header), m.body + rest, done);
    assert s1.arrived[..m.header.size] == m.body && s1.arrived[m.header.size..] == rest;
    assert Complete(s1) == State(AwaitHeader, rest, done + [m]);
  }

  // How many messages come before the first one with an empty body.
  function UntilEmpty(ms: seq<WireMessage>): (k: nat)
    ensures k <= |ms|
  {
    if ms == [] || ms[0].body == [] then 0 else 1 + UntilEmpty(ms[1..])
  }

  lemma {:induction false} UntilEmptyIsFirst(ms: seq<WireMessage>)
    ensures forall i | 0 <= i < UntilEmpty(ms) :: ms[i].body != []
    ensures UntilEmpty(ms) < |ms| ==> ms[UntilEmpty(ms)].body == []
  {
    if ms == [] || ms[0].body == [] {
    } else {
      UntilEmptyIsFirst(ms[1..]);
      forall i | 0 <= i < UntilEmpty(ms) ensures ms[i].body != [] {
        if i > 0 {
          assert ms[i] == ms[1..][i - 1];
        }
      }
    }
  }

  lemma UntilEmptyTail(ms: seq<WireMessage>, done: seq<WireMessage>)
    requires ms != [] && ms[0].body != []
    ensures
      var k := UntilEmpty(ms);
      && UntilEmpty(ms[1..]) == k - 1
      && done + ms[..k] == (done + [ms[0]]) + ms[1..][..k - 1]
      && (k < |ms| ==> ms[k + 1..] == ms[1..][k..])
  {
    TakeTail(ms, UntilEmpty(ms), done);
  }

  lemma TakeTail<T>(s: seq<T>, k: nat, before: seq<T>)
    requires 0 < k <= |s|
    ensures before + s[..k] == (before + [s[0]]) + s[1..][..k - 1]
    ensures k < |s| ==> s[k + 1..] == s[1..][k..]
  {
    assert s[..k] == [s[0]] + s[1..][..k - 1];
    Associative(before, [s[0]], s[1..][..k - 1]);
  }

  // On the stream of any well-framed messages the reader hands over, in order, exactly those
  // before the first empty body; there it stops for good.
  lemma {:induction false} ReadStream(ms: seq<WireMessage>, done: seq<WireMessage>)
    requires forall m | m in ms :: WellFramed(m)
    ensures
      var k, r := UntilEmpty(ms), Drain(State(AwaitHeader, Stream(ms), done));
      && r.handedOver == done + ms[..k]
      && r.phase == (if k == |ms| then AwaitHeader else Stopped)
      && r.arrived == if k == |ms| then [] else Stream(ms[k + 1..])
  {
    if ms == [] {
    } else {
      var m := ms[0];
      assert m in ms && forall x | x in ms[1..] :: x in ms;
      if m.body != [] {
        DrainFrame(m, Stream(ms[1..]), done);
        ReadStream(ms[1..], done + [m]);
        UntilEmptyTail(ms, done);
      } else {
        EmptyBodyStops(m, Stream(ms[1..]), done);
      }
    }
  }

  lemma EmptyBodyStops(m: WireMessage, rest: seq<Byte>, done: seq<WireMessage>)
    requires WellFramed(m) && m.body == []
    ensures Drain(State(AwaitHeader, Frame(m) + rest, done)) == State(Stopped, rest, done)
  {
    var s := State(AwaitHeader, Frame(m) + rest, done);
    HeaderRoundTrip(m.header);
    assert s.arrived[..HEADER_SIZE] == EncodeHeader(m.header) && s.arrived[HEADER_SIZE..] == rest;
  }

  // Framing round trip, with the exact condition: the reader gives back precisely the messages
  // written, and no byte is left over, if and only if no body is empty.
  lemma FramingRoundTripIff(ms: seq<WireMessage>, pieces: seq<seq<Byte>>)
    requires forall m | m in ms :: WellFramed(m)
    requires Concat(pieces) == Stream(ms)
    ensures ReceiveAll(START, pieces) == State(AwaitHeader, [], ms) <==> forall m | m in ms :: m.body != []
  {
    PiecesDoNotMatter(START, pieces);
    assert START.arrived + Stream(ms) == Stream(ms);
    ReadStream(ms, []);
    UntilEmptyIsFirst(ms);
    assert ms[..|ms|] == ms;
  }

  // A frame of which the end is missing hands over nothing.
  lemma PartialFrame(m: WireMessage, n: nat, done: seq<WireMessage>)
    requires WellFramed(m) && m.body != [] && n < |Frame(m)|
    ensures Drain(State(AwaitHeader, Frame(m)[..n], done)).handedOver == done
  {
    var s := State(AwaitHeader, Frame(m)[..n], done);
    if n >= HEADER_SIZE {
      HeaderRoundTrip(m.header);
      assert s.arrived[..HEADER_SIZE] == EncodeHeader(m.header);
      var s1 := Complete(s);
      assert s1.phase == AwaitBody(m.header) && |s1.arrived| < m.header.size;
    }
  }

  lemma DrainFirst(ms: seq<WireMessage>, more: seq<Byte>, done: seq<WireMessage>)
    requires ms != [] && WellFramed(ms[0]) && ms[0].body != []
    ensures Drain(State(AwaitHeader, Stream(ms) + more, done))
      == Drain(State(AwaitHeader, Stream(ms[1..]) + more, done + [ms[0]]))
  {
    Associative(Frame(ms[0]), Stream(ms[1..]), more);
    DrainFrame(ms[0], Stream(ms[1..]) + more, done);
  }

  lemma TailMembers<T>(ms: seq<T>, m: T)
    requires ms != []
    ensures ms[0] in ms + [m] && forall x | x in ms[1..] + [m] :: x in ms + [m]
  {
  }

  // Whole frames, then part of one: exactly the whole ones are handed over.
  lemma {:induction false} WholeFramesOnly(ms: seq<WireMessage>, m: WireMessage, n: nat, done: seq<WireMessage>)
    requires forall x | x in ms + [m] :: WellFramed(x) && x.body != []
    requires n < |Frame(m)|
    ensures Drain(State(AwaitHeader, Stream(ms) + Frame(m)[..n], done)).handedOver == done + ms
  {
    assert m in ms + [m];
    if ms == [] {
      assert Stream(ms) + Frame(m)[..n] == Frame(m)[..n];
      PartialFrame(m, n, done);
    } else {
      TailMembers(ms, m);
      DrainFirst(ms, Frame(m)[..n], done);
      WholeFramesOnly(ms[1..], m, n, done + [ms[0]]);
      assert done + [ms[0]] + ms[1..] == done + ms;
    }
  }

  // On any prefix of the stream the reader hands over exactly the messages whose frames are
  // complete in it.
  lemma {:induction false} PrefixOfStream(ms: seq<WireMessage>, n: nat) returns (k: nat)
    requires forall m | m in ms :: WellFramed(m) && m.body != []
    requires n <= |Stream(ms)|
    ensures k <= |ms| && |Stream(ms[..k])| <= n && (k < |ms| ==> n < |Stream(ms[..k + 1])|)
    ensures Drain(State(AwaitHeader, Stream(ms)[..n], [])).handedOver == ms[..k]
  {
    k := SplitPoint(ms, n);
    if k == |ms| {
      assert ms[..k] == ms && Stream(ms)[..n] == Stream(ms);
      ReadAll(ms);
    } else {
      PrefixSplits(ms, n, k);
      FramesBefore(ms, k);
      WholeFramesOnly(ms[..k], ms[k], n - |Stream(ms[..k])|, []);
      assert [] + ms[..k] == ms[..k];
    }
  }

  lemma ReadAll(ms: seq<WireMessage>)
    requires forall m | m in ms :: WellFramed(m) && m.body != []
    ensures Drain(State(AwaitHeader, Stream(ms), [])).handedOver == ms
  {
    ReadStream(ms, []);
    UntilEmptyIsFirst(ms);
    assert ms[..|ms|] == ms;
  }

  lemma FramesBefore<T>(ms: seq<T>, k: nat)
    requires k < |ms|
    ensures forall m | m in ms[..k] + [ms[k]] :: m in ms
  {
  }

  // A prefix that ends inside the frame at position `k`.
  lemma PrefixSplits(ms: seq<WireMessage>, n: nat, k: nat)
    requires k < |ms| && |Stream(ms[..k])| <= n < |Stream(ms[..k + 1])|
    ensures n - |Stream(ms[..k])| < |Frame(ms[k])| && n <= |Stream(ms)|
    ensures Stream(ms)[..n] == Stream(ms[..k]) + Frame(ms[k])[..n - |Stream(ms[..k])|]
  {
    StreamSnoc(ms[..k], ms[k]);
    assert ms[..k + 1] == ms[..k] + [ms[k]];
    StreamAppend(ms[..k + 1], ms[k + 1..]);
    assert ms == ms[..k + 1] + ms[k + 1..];
  }

  lemma {:induction false} SplitPoint(ms: seq<WireMessage>, n: nat) returns (k: nat)
    requires n <= |Stream(ms)|
    ensures k <= |ms| && |Stream(ms[..k])| <= n && (k < |ms| ==> n < |Stream(ms[..k + 1])|)
  {
    if ms == [] || n < |Frame(ms[0])| {
      k := 0;
      if ms != [] {
        assert ms[..1] == [ms[0]] && ms[..1][1..] == [];
      }
    } else {
      var k1 := SplitPoint(ms[1..], n - |Frame(ms[0])|);
      k := k1 + 1;
      assert ms[..k][1..] == ms[1..][..k1];
      if k < |ms| {
        assert ms[..k + 1][1..] == ms[1..][..k1 + 1];
      }
    }
  }
}
