// The bytes of a message on a TCP stream: an 8-byte header (operation code and body
// size, 32 bits each, least significant byte first) followed by the body.

module Wire {

  type Byte = b: nat | b < 256
  type UInt32 = n: nat | n < 0x1_0000_0000

  const HEADER_SIZE := 8

  datatype Header = Header(operationCode: UInt32, size: UInt32)

  datatype WireMessage = WireMessage(header: Header, body: seq<Byte>)

  function EncodeUInt32(n: UInt32): (r: seq<Byte>)
    ensures |r| == 4
  {
    [n % 256, n / 256 % 256, n / 65536 % 256, n / 16777216]
  }

  function DecodeUInt32(b: seq<Byte>): UInt32
    requires |b| == 4
  {
    b[0] as nat + 256 * (b[1] as nat) + 65536 * (b[2] as nat) + 16777216 * (b[3] as nat)
  }

  lemma UInt32RoundTrip(n: UInt32)
    ensures DecodeUInt32(EncodeUInt32(n)) == n
  {
    assert n / 65536 == n / 256 / 256 && n / 16777216 == n / 256 / 256 / 256;
  }

  function EncodeHeader(h: Header): (r: seq<Byte>)
    ensures |r| == HEADER_SIZE
  {
    EncodeUInt32(h.operationCode) + EncodeUInt32(h.size)
  }

  // Least significant byte first: the operation code in the first four bytes, the size behind.
  lemma HeaderBytes(h: Header)
    ensures
      var b := EncodeHeader(h);
      && Value(b[0], b[1], b[2], b[3]) == h.operationCode
      && Value(b[4], b[5], b[6], b[7]) == h.size
  {
    UInt32RoundTrip(h.operationCode);
    UInt32RoundTrip(h.size);
    var b := EncodeHeader(h);
    assert b[4..][0] == b[4] && b[4..][1] == b[5] && b[4..][2] == b[6] && b[4..][3] == b[7];
  }

  function Value(b0: nat, b1: nat, b2: nat, b3: nat): nat { b0 + 0x100 * b1 + 0x1_0000 * b2 + 0x100_0000 * b3 }

  function DecodeHeader(b: seq<Byte>): Header
    requires |b| == HEADER_SIZE
  {
    Header(DecodeUInt32(b[..4]), DecodeUInt32(b[4..]))
  }

  lemma HeaderRoundTrip(h: Header)
    ensures DecodeHeader(EncodeHeader(h)) == h
  {
    UInt32RoundTrip(h.operationCode);
    UInt32RoundTrip(h.size);
    var b := EncodeHeader(h);
    assert b[..4] == EncodeUInt32(h.operationCode) && b[4..] == EncodeUInt32(h.size);
  }

  function Frame(m: WireMessage): (r: seq<Byte>)
    ensures |r| == HEADER_SIZE + |m.body|
  {
    EncodeHeader(m.header) + m.body
  }

  function Stream(ms: seq<WireMessage>): seq<Byte> {
    if ms == [] then [] else Frame(ms[0]) + Stream(ms[1..])
  }

  // The header announces the body it comes with.
  predicate WellFramed(m: WireMessage) { m.header.size == |m.body| }

  // What the senders do: `header.size` is the body's length cut to 32 bits.
  function MakeMessage(operationCode: UInt32, body: seq<Byte>): WireMessage {
    WireMessage(Header(operationCode, |body| % 0x1_0000_0000), body)
  }

  lemma MakeMessageFramesIff(operationCode: UInt32, body: seq<Byte>)
    ensures WellFramed(MakeMessage(operationCode, body)) <==> |body| < 0x1_0000_0000
    ensures MakeMessage(operationCode, body).body == body
    ensures MakeMessage(operationCode, body).header.operationCode == operationCode
  {
  }

  lemma {:induction false} StreamAppend(a: seq<WireMessage>, b: seq<WireMessage>)
    ensures Stream(a + b) == Stream(a) + Stream(b)
  {
    if a == [] {
      assert a + b == b;
    } else {
      StreamAppend(a[1..], b);
      assert (a + b)[1..] == a[1..] + b;
      Associative(Frame(a[0]), Stream(a[1..]), Stream(b));
    }
  }

  lemma StreamSnoc(ms: seq<WireMessage>, m: WireMessage)
    ensures Stream(ms + [m]) == Stream(ms) + Frame(m)
  {
    StreamAppend(ms, [m]);
    assert Stream([m]) == Frame(m) + Stream([m][1..]) && Stream([m][1..]) == [];
  }

  lemma Associative<T>(a: seq<T>, b: seq<T>, c: seq<T>)
    ensures (a + b) + c == a + (b + c)
  {
  }
}
