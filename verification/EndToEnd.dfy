/** The receiver's theorems on the wire format itself. */
module EndToEnd {
  import opened Wrappers
  import opened Bytes
  import opened Fields
  import opened Codec
  import opened CodecTheorems
  import opened Protocol
  import opened Delivery
  import opened History
  import opened Reordering
  import opened Outgoing

  lemma RealRejectsNil(w: World, sha: Sha)
    requires RealCodec(w, sha)
    ensures w.decode([]).Err?
  {
  }

  // ---------- The listener ----------

  function ListenAll(w: World, s: State, got: seq<(Read, real)>): State
    requires Keyed(s.incoming)
    decreases |got|
  {
    if got == [] then s else ListenAll(w, Listen(w, s, got[0].0, got[0].1), got[1..])
  }

  /** How many reads there are before the first one that gives no frame. */
  function Unbroken(got: seq<(Read, real)>): (n: nat)
    ensures n <= |got|
  {
    if got == [] || !got[0].0.Received? then 0 else 1 + Unbroken(got[1..])
  }

  /** The frames read before that, as events. */
  function Frames(got: seq<(Read, real)>): seq<Event> {
    if got == [] || !got[0].0.Received? then []
    else [Arrive(got[0].0.raw, got[0].1)] + Frames(got[1..])
  }

  lemma {:induction false} StoppedListener(w: World, s: State, got: seq<(Read, real)>)
    requires Keyed(s.incoming) && s.failed
    ensures ListenAll(w, s, got) == s
    decreases |got|
  {
    if got != [] {
      StoppedListener(w, s, got[1..]);
    }
  }

  /**
   The listener is the run of the frames it reads up to the first read error, and that error ends it even when the
   reconnect succeeds: it goes on with a nil frame, which does not decode.
   */
  lemma {:induction false} ReconnectEndsListener(w: World, sha: Sha, s: State, got: seq<(Read, real)>)
    requires RealCodec(w, sha) && Keyed(s.incoming)
    ensures ListenAll(w, s, got) ==
            if Unbroken(got) == |got| then Run(w, s, Frames(got)) else Fail(Run(w, s, Frames(got)))
    decreases |got|
  {
    if got != [] {
      var s' := Listen(w, s, got[0].0, got[0].1);
      if got[0].0.Received? {
        var e := Arrive(got[0].0.raw, got[0].1);
        assert Frames(got)[0] == e && Frames(got)[1..] == Frames(got[1..]) && Step(w, s, e) == s';
        ReconnectEndsListener(w, sha, s', got[1..]);
      } else {
        RealRejectsNil(w, sha);
        assert s' == Fail(s);
        StoppedListener(w, s', got[1..]);
      }
    }
  }

  /**
   A frame that is not accepted ends the listener and does nothing else. An accepted one that is neither stream data nor
   an acknowledgement nor the notice of closing does nothing at all; that notice only ends the listener if it cannot be
   read or the session cannot be stopped.
   */
  lemma FrameIsSorted(w: World, sha: Sha, s: State, raw: seq<byte>, now: real)
    requires RealCodec(w, sha) && Keyed(s.incoming) && !s.failed
    ensures var r := Step(w, s, Arrive(raw, now));
            && (!Accepted(sha, raw) ==> r == Fail(s))
            && (Accepted(sha, raw) && Decode(raw).value.messageType == CHANNEL_CLOSED ==>
                  r == if w.closed(Decode(raw).value.payload) then s else Fail(s))
            && (Accepted(sha, raw) && Decode(raw).value.messageType !in {OUTPUT_STREAM, ACKNOWLEDGE, CHANNEL_CLOSED} ==>
                  r == s)
  {
    AcceptedExactly(sha, raw);
  }

  /** Prefix safety for frames in the wire format: whatever passes as number k is the agent's message k. */
  lemma PrefixSafetyOnTheWire(w: World, sha: Sha, sent: nat -> ClientMessage, inCap: nat, outCap: nat, es: seq<Event>)
    requires RealCodec(w, sha) && GenuineRun(w, sent, es)
    ensures var r := Run(w, Initial(inCap, outCap), es);
            !r.failed ==> r.expected >= 0 && r.consumed == seq(r.expected, i requires 0 <= i => sent(i))
  {
    RealRejectsNil(w, sha);
    PrefixSafety(w, sent, inCap, outCap, es);
  }

  /** Messages an agent may send, numbered in order; from `lo` on they are stream data. */
  ghost predicate AgentStream(agent: nat -> ClientMessage, lo: nat, n: nat) {
    forall k: nat :: k < n ==>
      && Encodable(agent(k))
      && agent(k).messageType == OUTPUT_STREAM
      && agent(k).createdDate != 0
      && agent(k).sequenceNumber == k
      && (lo <= k ==> !Control(agent(k).payloadType))
  }

  lemma OutputIsStorable()
    ensures Storable(OUTPUT_STREAM, 32)
  {
  }

  /** The frame of an agent's message is received as that message and passes validation. */
  lemma AgentFrame(w: World, sha: Sha, m: ClientMessage)
    requires RealCodec(w, sha) && Encodable(m) && m.messageType == OUTPUT_STREAM && m.createdDate != 0
    ensures w.decode(Frame(sha, m)) == Ok(Sealed(sha, m)) && w.validate(Sealed(sha, m))
  {
    OutputIsStorable();
    RoundTrip(sha, m);
    SentIsValid(sha, m);
  }

  /**
   For every agent stream serialized by the codec, from any state in which `lo` is expected: frames `lo .. n-1`
   arriving in any order, any number of times each, lead to the handler calls of in-order delivery of the agent's own
   messages, as long as the buffer can hold all but one of them.
   */
  lemma ReorderingInvisibleOnTheWire(w: World, sha: Sha, agent: nat -> ClientMessage, lo: nat, n: nat, s: State,
                                     es: seq<Event>, sent: nat -> ClientMessage, frame: nat -> seq<byte>)
    requires RealCodec(w, sha) && ErrorFree(w, s) && AgentStream(agent, lo, n)
    requires forall k: nat :: k < n ==> sent(k) == Sealed(sha, agent(k)) && frame(k) == Frame(sha, agent(k))
    requires forall k: nat :: lo <= k < n ==> Opened(w, s.session, sent(k)).Ok?
    requires Inv(w, sent, s) && !s.failed && s.expected == lo && lo <= n <= lo + s.capacity + 1
    requires forall k :: k in s.incoming ==> k < n
    requires Arrivals(w, frame, n, es) && AllArrive(frame, lo, n, es)
    ensures var r := Run(w, s, es);
            && !r.failed && r.expected == n && r.incoming == map[]
            && r.session == DeliverAll(w, s.session, seq(n - lo, i requires 0 <= i => sent(lo + i)))
  {
    RealRejectsNil(w, sha);
    forall k: nat | k < n
      ensures w.decode(frame(k)) == Ok(sent(k)) && w.validate(sent(k))
    {
      AgentFrame(w, sha, agent(k));
    }
    ReorderingInvisible(w, sent, frame, lo, n, s, es);
  }
}
