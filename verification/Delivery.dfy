/** What the receiver guarantees over whole runs, whatever the network drops, repeats or reorders. */
module Delivery {
  import opened Wrappers
  import opened Bytes
  import opened Codec
  import opened Protocol

  /** `sent` is the agent's messages by number. A valid frame under such a number is a frame of that message. */
  ghost predicate Genuine(w: World, sent: nat -> ClientMessage, raw: seq<byte>) {
    match w.decode(raw)
    case Err(_) => true
    case Ok(m) =>
      w.validate(m) && m.messageType == OUTPUT_STREAM && 0 <= m.sequenceNumber ==> m == sent(m.sequenceNumber)
  }

  ghost predicate GenuineRun(w: World, sent: nat -> ClientMessage, es: seq<Event>) {
    forall i :: 0 <= i < |es| && es[i].Arrive? ==> Genuine(w, sent, es[i].raw)
  }

  // ---------- The invariant ----------

  /** A buffered entry holds a frame of the agent's message with its number, which is still to come. */
  ghost predicate Held(w: World, sent: nat -> ClientMessage, expected: int, k: int, b: StreamingMessage) {
    && 0 <= expected <= k
    && b.sequenceNumber == k
    && b.content != []
    && w.decode(b.content) == Ok(sent(k))
    && sent(k).sequenceNumber == k
  }

  /** The consumed messages are exactly the agent's first ones, in order. */
  ghost predicate Prefix(sent: nat -> ClientMessage, s: State) {
    s.expected == |s.consumed| && forall i :: 0 <= i < |s.consumed| ==> s.consumed[i] == sent(i)
  }

  /** Every acknowledged number was consumed or is held. */
  ghost predicate Remembered(s: State) {
    forall a :: a in s.acks ==>
      0 <= a.sequenceNumber && (a.sequenceNumber < s.expected || a.sequenceNumber in s.incoming)
  }

  /** Holds while buffered messages are being drained. */
  ghost predicate Draining(w: World, sent: nat -> ClientMessage, s: State) {
    && Prefix(sent, s)
    && Remembered(s)
    && forall k :: k in s.incoming ==> Held(w, sent, s.expected, k, s.incoming[k])
  }

  /** Holds between events as long as the listener runs. */
  ghost predicate Settled(w: World, sent: nat -> ClientMessage, s: State) {
    Draining(w, sent, s) && s.expected !in s.incoming
  }

  ghost predicate Inv(w: World, sent: nat -> ClientMessage, s: State) {
    && Keyed(s.incoming)
    && |s.incoming| <= s.capacity
    && (!s.failed ==> Settled(w, sent, s))
  }

  // ---------- Draining ----------

  /** `r` passed exactly the buffered numbers from `s.expected` on, and removed exactly those. */
  ghost predicate Passed(s: State, r: State) {
    && s.expected <= r.expected
    && (forall k :: s.expected <= k < r.expected ==> k in s.incoming)
    && r.incoming == map k | k in s.incoming && !(s.expected <= k < r.expected) :: s.incoming[k]
  }

  /**
   Draining moves the expected number to the least number that is not buffered and removes exactly the numbers
   passed; when a handler or a decryption fails, it stops at that message and keeps it.
   */
  lemma {:induction false} DrainMovesToGap(w: World, s: State)
    requires Keyed(s.incoming) && !s.failed
    requires forall k :: k in s.incoming ==> s.incoming[k].content != []
    ensures Passed(s, Drain(w, s))
    ensures Drain(w, s).failed <==> Drain(w, s).expected in s.incoming
    decreases |s.incoming|
  {
    if s.expected in s.incoming {
      var s' := Buffered(w, s, s.incoming[s.expected]);
      if !s'.failed {
        assert s'.incoming.Keys == s.incoming.Keys - {s.expected};
        DrainMovesToGap(w, s');
        PassedOne(s, s', Drain(w, s));
      }
    }
  }

  lemma PassedOne(s: State, s': State, r: State)
    requires s.expected in s.incoming && s'.expected == s.expected + 1 && s'.incoming == s.incoming - {s.expected}
    requires Passed(s', r)
    ensures Passed(s, r)
  {
    forall k | s.expected <= k < r.expected
      ensures k in s.incoming
    {
      if k > s.expected {
        assert k in s'.incoming;
      }
    }
  }

  lemma BufferedKeeps(w: World, sent: nat -> ClientMessage, s: State)
    requires Keyed(s.incoming) && !s.failed && Draining(w, sent, s) && s.expected in s.incoming
    ensures var r := Buffered(w, s, s.incoming[s.expected]);
            !r.failed ==> Draining(w, sent, r) && Keyed(r.incoming) && |r.incoming| < |s.incoming|
  {
    var r := Buffered(w, s, s.incoming[s.expected]);
    assert Held(w, sent, s.expected, s.expected, s.incoming[s.expected]);
    if !r.failed {
      assert r.incoming.Keys == s.incoming.Keys - {s.expected};
      assert r.consumed == s.consumed + [sent(s.expected)];
      forall k | k in r.incoming
        ensures Held(w, sent, r.expected, k, r.incoming[k])
      {
        assert Held(w, sent, s.expected, k, s.incoming[k]);
      }
    }
  }

  lemma {:induction false} DrainSettles(w: World, sent: nat -> ClientMessage, s: State)
    requires Keyed(s.incoming) && !s.failed && Draining(w, sent, s)
    ensures |Drain(w, s).incoming| <= |s.incoming|
    ensures !Drain(w, s).failed ==> Settled(w, sent, Drain(w, s))
    decreases |s.incoming|
  {
    if s.expected in s.incoming {
      BufferedKeeps(w, sent, s);
      assert Held(w, sent, s.expected, s.expected, s.incoming[s.expected]);
      var s' := Buffered(w, s, s.incoming[s.expected]);
      if !s'.failed {
        DrainSettles(w, sent, s');
      }
    }
  }

  // ---------- Every step ----------

  lemma HandleOutputKeeps(w: World, sent: nat -> ClientMessage, s: State, m: ClientMessage, raw: seq<byte>, now: real)
    requires Inv(w, sent, s) && !s.failed && w.decode([]).Err?
    requires w.decode(raw) == Ok(m) && 0 <= m.sequenceNumber && m == sent(m.sequenceNumber)
    ensures Inv(w, sent, HandleOutput(w, s, m, raw, now))
  {
    var n: int := m.sequenceNumber;
    if n != s.expected {
      UnexpectedKeeps(w, sent, s, m, raw, now);
    } else {
      var s' := InOrder(w, s, m);
      if !s'.failed {
        AdvanceKeeps(w, sent, s, s', m);
        DrainSettles(w, sent, Advance(s', m));
      }
    }
  }

  lemma UnexpectedKeeps(w: World, sent: nat -> ClientMessage, s: State, m: ClientMessage, raw: seq<byte>, now: real)
    requires Inv(w, sent, s) && !s.failed && w.decode([]).Err?
    requires w.decode(raw) == Ok(m) && 0 <= m.sequenceNumber != s.expected && m == sent(m.sequenceNumber)
    ensures Inv(w, sent, Unexpected(w, s, m, raw, now))
  {
    var r := Unexpected(w, s, m, raw, now);
    var n: int := m.sequenceNumber;
    if r.incoming != s.incoming {
      assert r.incoming.Keys == s.incoming.Keys + {n};
      assert Held(w, sent, s.expected, n, r.incoming[n]);
    }
  }

  lemma AdvanceKeeps(w: World, sent: nat -> ClientMessage, s: State, s': State, m: ClientMessage)
    requires Settled(w, sent, s) && SameReceiver(s, s') && m.sequenceNumber == s.expected && m == sent(s.expected)
    requires s'.acks == s.acks || s'.acks == s.acks + [AckOf(m)]
    ensures Draining(w, sent, Advance(s', m))
  {
    var r := Advance(s', m);
    forall k | k in r.incoming
      ensures Held(w, sent, r.expected, k, r.incoming[k])
    {
      assert Held(w, sent, s.expected, k, s.incoming[k]);
    }
  }

  lemma StepKeeps(w: World, sent: nat -> ClientMessage, s: State, e: Event)
    requires Inv(w, sent, s) && w.decode([]).Err?
    requires e.Arrive? ==> Genuine(w, sent, e.raw)
    ensures Inv(w, sent, Step(w, s, e))
  {
    if e.Arrive? && !s.failed && w.decode(e.raw).Ok? {
      var m := w.decode(e.raw).value;
      if w.validate(m) && m.messageType == OUTPUT_STREAM && 0 <= m.sequenceNumber {
        HandleOutputKeeps(w, sent, s, m, e.raw, e.now);
      }
    }
  }

  lemma {:induction false} RunKeeps(w: World, sent: nat -> ClientMessage, s: State, es: seq<Event>)
    requires Inv(w, sent, s) && w.decode([]).Err? && GenuineRun(w, sent, es)
    ensures Inv(w, sent, Run(w, s, es))
    decreases |es|
  {
    if es != [] {
      StepKeeps(w, sent, s, es[0]);
      RunKeeps(w, sent, Step(w, s, es[0]), es[1..]);
    }
  }

  // ---------- The theorems ----------

  /** In every state the listener reaches, what was consumed is exactly the first `expected` messages the agent sent. */
  lemma PrefixSafety(w: World, sent: nat -> ClientMessage, inCap: nat, outCap: nat, es: seq<Event>)
    requires w.decode([]).Err? && GenuineRun(w, sent, es)
    ensures var r := Run(w, Initial(inCap, outCap), es);
            !r.failed ==> r.expected >= 0 && r.consumed == seq(r.expected, i requires 0 <= i => sent(i))
  {
    RunKeeps(w, sent, Initial(inCap, outCap), es);
  }

  /** No acknowledged frame is forgotten, and the reorder buffer never exceeds its capacity. */
  lemma AcknowledgedIsKept(w: World, sent: nat -> ClientMessage, inCap: nat, outCap: nat, es: seq<Event>, a: Ack)
    requires w.decode([]).Err? && GenuineRun(w, sent, es)
    requires a in Run(w, Initial(inCap, outCap), es).acks
    ensures var r := Run(w, Initial(inCap, outCap), es);
            && |r.incoming| <= inCap
            && (!r.failed ==>
                  && 0 <= a.sequenceNumber
                  && r.expected == |r.consumed|
                  && if a.sequenceNumber < r.expected then r.consumed[a.sequenceNumber] == sent(a.sequenceNumber)
                     else a.sequenceNumber in r.incoming
                          && w.decode(r.incoming[a.sequenceNumber].content) == Ok(sent(a.sequenceNumber)))
  {
    RunKeeps(w, sent, Initial(inCap, outCap), es);
    var r := Run(w, Initial(inCap, outCap), es);
    if !r.failed && a.sequenceNumber in r.incoming {
      assert Held(w, sent, r.expected, a.sequenceNumber, r.incoming[a.sequenceNumber]);
    }
  }

  /** The frames `raws[0]`, `raws[1]`, ... in this order. */
  function Replay(raws: seq<seq<byte>>, now: real): (es: seq<Event>)
    ensures |es| == |raws| && forall i :: 0 <= i < |raws| ==> es[i] == Arrive(raws[i], now)
  {
    seq(|raws|, i requires 0 <= i < |raws| => Arrive(raws[i], now))
  }

  lemma ReplayLast(raws: seq<seq<byte>>, now: real)
    requires raws != []
    ensures Replay(raws, now) == Replay(raws[..|raws| - 1], now) + [Arrive(raws[|raws| - 1], now)]
  {
  }

  ghost predicate FramesOf(w: World, sent: nat -> ClientMessage, raws: seq<seq<byte>>) {
    forall i :: 0 <= i < |raws| ==>
      && w.decode(raws[i]) == Ok(sent(i)) && w.validate(sent(i))
      && sent(i).messageType == OUTPUT_STREAM && sent(i).sequenceNumber == i
  }

  lemma ExpectedGrows(w: World, sent: nat -> ClientMessage, s: State, e: Event)
    requires Inv(w, sent, s) && w.decode([]).Err?
    requires e.Arrive? ==> Genuine(w, sent, e.raw)
    ensures !Step(w, s, e).failed ==> s.expected <= Step(w, s, e).expected
  {
    if e.Arrive? && !s.failed && w.decode(e.raw).Ok? {
      var m := w.decode(e.raw).value;
      if w.validate(m) && m.messageType == OUTPUT_STREAM && m.sequenceNumber == s.expected {
        var s' := InOrder(w, s, m);
        if !s'.failed {
          AdvanceKeeps(w, sent, s, s', m);
          DrainMovesToGap(w, Advance(s', m));
        }
      }
    }
  }

  /** An in-order frame is consumed even when the reorder buffer is full. */
  lemma InTurnIsConsumed(w: World, sent: nat -> ClientMessage, s: State, m: ClientMessage, raw: seq<byte>, now: real)
    requires Inv(w, sent, s) && w.decode([]).Err?
    requires w.decode(raw) == Ok(m) && w.validate(m) && m.messageType == OUTPUT_STREAM
    requires 0 <= m.sequenceNumber == s.expected && m == sent(m.sequenceNumber)
    ensures !Step(w, s, Arrive(raw, now)).failed ==> s.expected < Step(w, s, Arrive(raw, now)).expected
  {
    if !s.failed {
      var s' := InOrder(w, s, m);
      if !s'.failed {
        AdvanceKeeps(w, sent, s, s', m);
        DrainMovesToGap(w, Advance(s', m));
      }
    }
  }

  /** From any reachable state, one in-order replay that ends without failure brings the expected number to its end. */
  lemma {:induction false} CatchUp(w: World, sent: nat -> ClientMessage, s: State, raws: seq<seq<byte>>, now: real)
    requires Inv(w, sent, s) && w.decode([]).Err? && FramesOf(w, sent, raws)
    ensures Inv(w, sent, Run(w, s, Replay(raws, now)))
    ensures !Run(w, s, Replay(raws, now)).failed ==> Run(w, s, Replay(raws, now)).expected >= |raws|
    decreases |raws|
  {
    if raws != [] {
      var n := |raws| - 1;
      var init, e := raws[..n], Arrive(raws[n], now);
      CatchUp(w, sent, s, init, now);
      ReplayLast(raws, now);
      RunLast(w, s, Replay(init, now), e);
      var t := Run(w, s, Replay(init, now));
      StepKeeps(w, sent, t, e);
      ExpectedGrows(w, sent, t, e);
      if !t.failed && t.expected == n {
        InTurnIsConsumed(w, sent, t, sent(n), raws[n], now);
      }
    } else {
      assert Replay(raws, now) == [];
    }
  }

  lemma {:induction false} FailureIsFinal(w: World, s: State, es: seq<Event>)
    requires Keyed(s.incoming) && s.failed
    ensures Run(w, s, es).failed
    decreases |es|
  {
    if es != [] {
      FailureIsFinal(w, Step(w, s, es[0]), es[1..]);
    }
  }

  lemma {:induction false} RunAppend(w: World, s: State, es: seq<Event>, fs: seq<Event>)
    requires Keyed(s.incoming)
    ensures Run(w, s, es + fs) == Run(w, Run(w, s, es), fs)
    decreases |es|
  {
    if es == [] {
      assert es + fs == fs;
    } else {
      assert (es + fs)[1..] == es[1..] + fs;
      RunAppend(w, Step(w, s, es[0]), es[1..], fs);
    }
  }

  lemma RunLast(w: World, s: State, es: seq<Event>, e: Event)
    requires Keyed(s.incoming)
    ensures Run(w, s, es + [e]) == Step(w, Run(w, s, es), e)
  {
    RunAppend(w, s, es, [e]);
    var t := Run(w, s, es);
    assert Run(w, t, [e]) == Run(w, Step(w, t, e), []);
  }

  lemma RunTwo(w: World, s: State, es: seq<Event>)
    requires Keyed(s.incoming) && |es| == 2
    ensures Run(w, s, es) == Step(w, Step(w, s, es[0]), es[1])
  {
    var s' := Step(w, s, es[0]);
    assert es[1..][1..] == [];
    assert Run(w, s', es[1..]) == Run(w, Step(w, s', es[1]), []);
  }
}
