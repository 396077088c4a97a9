// Writer and reader together: what a peer that reads every socket gets, if every byte that
// a socket took arrives, and if the end of each stream is lost.

module Delivery {
  import opened Wire
  import R = Reader
  import W = Writer

  // What the reader hands over from the bytes of one socket.
  function Received(stream: seq<Byte>): seq<WireMessage> {
    R.Drain(R.State(R.AwaitHeader, stream, [])).handedOver
  }

  function ReceivedOn(retired: seq<W.OldSocket>): seq<WireMessage> {
    if retired == [] then [] else ReceivedOn(retired[..|retired| - 1]) + Received(retired[|retired| - 1].stream)
  }

  // ---------------------------------------------------------------- losing the end of a stream

  lemma {:induction false} HandedOverGrows(s: R.State)
    requires R.Valid(s)
    ensures s.handedOver <= R.Drain(s).handedOver
    decreases |s.arrived|
  {
    if !R.CanComplete(s) {
    } else {
      HandedOverGrows(R.Complete(s));
    }
  }

  // If only the beginning of a stream arrives, the messages are a beginning of the messages.
  lemma ReceivedPrefix(stream: seq<Byte>, n: nat)
    requires n <= |stream|
    ensures Received(stream[..n]) <= Received(stream)
  {
    var s := R.State(R.AwaitHeader, stream[..n], []);
    R.DrainLater(s, stream[n..]);
    R.DrainValid(s);
    HandedOverGrows(R.Drain(s).(arrived := R.Drain(s).arrived + stream[n..]));
    assert stream[..n] + stream[n..] == stream;
  }

  // ---------------------------------------------------------------- one socket

  lemma ReceivedWhole(carried: seq<WireMessage>)
    requires forall m | m in carried :: WellFramed(m) && m.body != []
    ensures Received(Stream(carried)) == carried
  {
    R.ReadAll(carried);
  }

  // Whole frames and a proper part of the next one give exactly the carried messages.
  lemma ReceivedFromSocket(pushed: seq<WireMessage>, carried: seq<WireMessage>, n: nat, part: nat)
    requires forall m | m in pushed :: WellFramed(m) && m.body != []
    requires forall m | m in carried :: m in pushed
    requires W.ProperPart(pushed, n, part)
    ensures Received(Stream(carried) + W.Begun(pushed, n, part)) == carried
  {
    if n < |pushed| {
      assert pushed[n] in pushed;
      R.WholeFramesOnly(carried, pushed[n], part, []);
    } else {
      assert Stream(carried) + [] == Stream(carried);
      ReceivedWhole(carried);
    }
  }

  lemma {:induction false} CarriedMembers(retired: seq<W.OldSocket>, i: nat, m: WireMessage)
    requires i < |retired| && m in retired[i].carried
    ensures m in W.CarriedOn(retired)
  {
    var last := |retired| - 1;
    if i == last {
    } else {
      assert retired[..last][i] == retired[i];
      CarriedMembers(retired[..last], i, m);
    }
  }

  // ---------------------------------------------------------------- all sockets of a run

  lemma ReceivedFromOld(s: W.State, i: nat)
    requires W.Inv(s) && i < |s.retired|
    requires forall m | m in s.pushed :: WellFramed(m) && m.body != []
    ensures Received(s.retired[i].stream) == s.retired[i].carried
  {
    assert W.OldSocketOk(s.pushed, s.retired, i);
    forall m | m in s.retired[i].carried ensures m in s.pushed {
      CarriedMembers(s.retired, i, m);
    }
    ReceivedFromSocket(s.pushed, s.retired[i].carried, |W.CarriedOn(s.retired[..i + 1])|, s.retired[i].part);
  }

  lemma {:induction false} ReceivedOnAll(s: W.State, k: nat)
    requires W.Inv(s) && k <= |s.retired|
    requires forall m | m in s.pushed :: WellFramed(m) && m.body != []
    ensures ReceivedOn(s.retired[..k]) == W.CarriedOn(s.retired[..k])
  {
    if k == 0 {
    } else {
      ReceivedOnAll(s, k - 1);
      ReceivedFromOld(s, k - 1);
      OneMoreSocket(s.retired, k - 1);
    }
  }

  lemma OneMoreSocket(retired: seq<W.OldSocket>, i: nat)
    requires i < |retired|
    ensures ReceivedOn(retired[..i + 1]) == ReceivedOn(retired[..i]) + Received(retired[i].stream)
    ensures W.CarriedOn(retired[..i + 1]) == W.CarriedOn(retired[..i]) + retired[i].carried
  {
    assert retired[..i + 1][..i] == retired[..i];
  }

  // What the peer gets from the socket in use: the messages carried on it, or those and the
  // front if the last byte of its frame is out and the completion is still to run.
  lemma ReceivedFromCurrent(r: W.State)
    requires W.Inv(r) && forall m | m in r.pushed :: WellFramed(m) && m.body != []
    ensures Received(r.stream) == if W.FrameOut(r) then r.carried + [r.queue[0]] else r.carried
    ensures W.CarriedOn(r.retired) + Received(r.stream) <= r.pushed
  {
    forall m | m in r.carried ensures m in r.pushed {
      assert m in W.Carried(r);
    }
    if W.FrameOut(r) {
      W.CarryFront(r);
      assert r.queue[0] in r.pushed;
      ReceivedWhole(r.carried + [r.queue[0]]);
    } else {
      if W.Unsent(r) != [] {
        W.FrontIsNext(r);
      }
      ReceivedFromSocket(r.pushed, r.carried, |W.Carried(r)|, r.part);
    }
  }

  lemma DeliveredState(r: W.State)
    requires W.Inv(r) && forall m | m in r.pushed :: WellFramed(m) && m.body != []
    ensures ReceivedOn(r.retired) + Received(r.stream) <= r.pushed
    ensures r.popped <= ReceivedOn(r.retired) + Received(r.stream)
  {
    assert r.retired[..|r.retired|] == r.retired;
    ReceivedOnAll(r, |r.retired|);
    ReceivedFromCurrent(r);
    W.CarriedOrFront(r);
    if W.FrameOut(r) {
      Associative(W.CarriedOn(r.retired), r.carried, [r.queue[0]]);
    }
  }

  // End to end, over any run with write errors and replaced sockets in which nothing is torn,
  // if all bytes that the sockets took arrive: a peer that reads each socket receives over all
  // of them a prefix of the messages sent, each once and in order, and no fewer than popped.
  lemma DeliveryAcrossReconnects(s: W.State, steps: seq<W.Step>)
    requires W.Init(s) && W.ValidRun(s, steps) && W.NeverTears(s, steps)
    requires forall m | m in W.Exec(s, steps).pushed :: WellFramed(m) && m.body != []
    ensures
      var r := W.Exec(s, steps);
      && Received(r.stream) == (if W.FrameOut(r) then r.carried + [r.queue[0]] else r.carried)
      && ReceivedOn(r.retired) + Received(r.stream) <= r.pushed
      && r.popped <= ReceivedOn(r.retired) + Received(r.stream)
  {
    W.FramedFromInit(s, steps);
    ReceivedFromCurrent(W.Exec(s, steps));
    DeliveredState(W.Exec(s, steps));
  }

  // ---------------------------------------------------------------- when the ends of streams are lost

  // Of the stream of each old socket only the first `cuts[i]` bytes arrive.
  predicate Cuts(retired: seq<W.OldSocket>, cuts: seq<nat>) {
    |cuts| == |retired| && forall i | 0 <= i < |cuts| :: cuts[i] <= |retired[i].stream|
  }

  function ReceivedCut(retired: seq<W.OldSocket>, cuts: seq<nat>): seq<WireMessage>
    requires Cuts(retired, cuts)
    decreases |retired|
  {
    if retired == [] then []
    else
      var last := |retired| - 1;
      ReceivedCut(retired[..last], cuts[..last]) + Received(retired[last].stream[..cuts[last]])
  }

  // `received` are messages of the log, at these positions: in order and none twice.
  predicate Positions(at: seq<nat>, received: seq<WireMessage>, log: seq<WireMessage>) {
    && |at| == |received|
    && (forall k | 0 <= k < |at| :: at[k] < |log| && received[k] == log[at[k]])
    && forall j, k | 0 <= j < k < |at| :: at[j] < at[k]
  }

  lemma MorePositions(at: seq<nat>, received: seq<WireMessage>, log: seq<WireMessage>, got: seq<WireMessage>,
                      more: seq<WireMessage>) returns (at': seq<nat>)
    requires Positions(at, received, log) && got <= more
    ensures Positions(at', received + got, log + more)
  {
    at' := at + seq(|got|, j requires 0 <= j < |got| => |log| + j);
  }

  lemma {:induction false} CutPositions(s: W.State, k: nat, cuts: seq<nat>) returns (at: seq<nat>)
    requires W.Inv(s) && k <= |s.retired| && Cuts(s.retired[..k], cuts)
    requires forall m | m in s.pushed :: WellFramed(m) && m.body != []
    ensures Positions(at, ReceivedCut(s.retired[..k], cuts), W.CarriedOn(s.retired[..k]))
    decreases k
  {
    if k == 0 {
      at := [];
    } else {
      var last := k - 1;
      OneMoreCut(s.retired, last, cuts);
      OneMoreSocket(s.retired, last);
      var before := CutPositions(s, last, cuts[..last]);
      CutOfOld(s, last, cuts[last]);
      at := MorePositions(before, ReceivedCut(s.retired[..last], cuts[..last]), W.CarriedOn(s.retired[..last]),
                          Received(s.retired[last].stream[..cuts[last]]), s.retired[last].carried);
    }
  }

  lemma OneMoreCut(retired: seq<W.OldSocket>, i: nat, cuts: seq<nat>)
    requires i < |retired| && Cuts(retired[..i + 1], cuts)
    ensures Cuts(retired[..i], cuts[..i]) && cuts[i] <= |retired[i].stream|
    ensures ReceivedCut(retired[..i + 1], cuts)
      == ReceivedCut(retired[..i], cuts[..i]) + Received(retired[i].stream[..cuts[i]])
  {
    assert retired[..i + 1][..i] == retired[..i] && retired[..i + 1][i] == retired[i];
    assert cuts[i] <= |retired[..i + 1][i].stream|;
  }

  lemma CutOfOld(s: W.State, i: nat, cut: nat)
    requires W.Inv(s) && i < |s.retired| && cut <= |s.retired[i].stream|
    requires forall m | m in s.pushed :: WellFramed(m) && m.body != []
    ensures Received(s.retired[i].stream[..cut]) <= s.retired[i].carried
  {
    ReceivedFromOld(s, i);
    ReceivedPrefix(s.retired[i].stream, cut);
  }

  lemma DeliveredDespiteLoss(r: W.State, cuts: seq<nat>, lastCut: nat) returns (at: seq<nat>)
    requires W.Inv(r) && forall m | m in r.pushed :: WellFramed(m) && m.body != []
    requires Cuts(r.retired, cuts) && lastCut <= |r.stream|
    ensures Positions(at, ReceivedCut(r.retired, cuts) + Received(r.stream[..lastCut]), r.pushed)
  {
    assert r.retired[..|r.retired|] == r.retired;
    var before := CutPositions(r, |r.retired|, cuts);
    ReceivedFromCurrent(r);
    ReceivedPrefix(r.stream, lastCut);
    at := MorePositions(before, ReceivedCut(r.retired, cuts), W.CarriedOn(r.retired),
                        Received(r.stream[..lastCut]), Received(r.stream));
  }

  // However much of the end of each stream is lost, the peer receives messages that were sent,
  // in order and none twice.
  lemma DeliveryDespiteLoss(s: W.State, steps: seq<W.Step>, cuts: seq<nat>, lastCut: nat) returns (at: seq<nat>)
    requires W.Init(s) && W.ValidRun(s, steps) && W.NeverTears(s, steps)
    requires forall m | m in W.Exec(s, steps).pushed :: WellFramed(m) && m.body != []
    requires Cuts(W.Exec(s, steps).retired, cuts) && lastCut <= |W.Exec(s, steps).stream|
    ensures
      var r := W.Exec(s, steps);
      Positions(at, ReceivedCut(r.retired, cuts) + Received(r.stream[..lastCut]), r.pushed)
  {
    W.FramedFromInit(s, steps);
    at := DeliveredDespiteLoss(W.Exec(s, steps), cuts, lastCut);
  }
}
