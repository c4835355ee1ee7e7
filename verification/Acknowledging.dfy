/**
 Which messages are acknowledged, and which reach a handler. The source's comments let the expected number move on
 after successful processing; the code also moves past messages that no handler took, and those are not offered again.
 */
module Acknowledging {
  import opened Wrappers
  import opened Bytes
  import opened Codec
  import opened Protocol
  import opened Handlers
  import opened Delivery
  import opened History
  import opened Negotiation

  // ---------- In its turn ----------

  /** Every handler the walk would reach answers that it is ready. */
  ghost predicate AllTake(w: World, s: Session, m: ClientMessage) {
    forall j :: 0 <= j < |s.handlers| ==> Reply(w, |s.calls|, Visited(s.handlers), m, j) == READY
  }

  /** Some handler reports an error, and all before it are ready. */
  ghost predicate OneFails(w: World, s: Session, m: ClientMessage) {
    exists j :: 0 <= j < |s.handlers| && FailsAt(w, s, m, j)
  }

  ghost predicate FailsAt(w: World, s: Session, m: ClientMessage, j: nat)
    requires j < |s.handlers|
  {
    && Reply(w, |s.calls|, Visited(s.handlers), m, j).failed
    && forall i :: 0 <= i < j ==> Reply(w, |s.calls|, Visited(s.handlers), m, i) == READY
  }

  /** What the walk reports, in terms of what the handlers would answer. */
  lemma WalkVerdict(w: World, s: Session, m: ClientMessage, n: nat, v: Verdict)
    requires s.handlers != [] && Walk(w, |s.calls|, Visited(s.handlers), m, 0, n, Verdict(false, false), v)
    ensures v == READY <==> AllTake(w, s, m)
    ensures v.failed <==> OneFails(w, s, m)
  {
    assert v == Reply(w, |s.calls|, Visited(s.handlers), m, n - 1);
    if v.failed {
      assert FailsAt(w, s, m, n - 1);
    }
    if OneFails(w, s, m) {
      var j :| 0 <= j < |s.handlers| && FailsAt(w, s, m, j);
      assert j == n - 1;
    }
  }

  lemma DispatchVerdict(w: World, s: Session, m: ClientMessage)
    requires FirstOnce(s.handlers)
    ensures var v := Dispatch(w, s, m).1;
            && (v == READY <==> Attended(s) && AllTake(w, s, m))
            && (v.failed <==> Open(s) && OneFails(w, s, m))
  {
    var n := DispatchCalls(w, s, m);
    if Attended(s) {
      WalkVerdict(w, s, m, n, Dispatch(w, s, m).1);
    }
  }

  lemma {:induction false} DrainConsumes(w: World, s: State)
    requires Keyed(s.incoming)
    ensures s.consumed <= Drain(w, s).consumed
    decreases |s.incoming|
  {
    if !s.failed && s.expected in s.incoming && s.incoming[s.expected].content != [] {
      var s' := Buffered(w, s, s.incoming[s.expected]);
      if !s'.failed {
        assert s'.incoming.Keys == s.incoming.Keys - {s.expected};
        DrainConsumes(w, s');
      }
    }
  }

  /**
   A stream message in its turn is taken when the session is attended and every handler in line is ready. It is
   acknowledged exactly when it is taken and the link works, and it ends the listener exactly when a handler fails
   first or the acknowledgement of a taken message cannot be sent. In all other cases it is consumed all the same, and
   no handler has seen it if the session is unattended.
   */
  lemma AcknowledgedIffTaken(w: World, s: State, m: ClientMessage, raw: seq<byte>, now: real)
    requires FirstOnce(s.session.handlers) && !s.failed && Keyed(s.incoming)
    requires !Control(m.payloadType) && Opened(w, s.session, m).Ok? && m.sequenceNumber == s.expected
    ensures var r, plain := InOrder(w, s, m), Opened(w, s.session, m).value;
            var taken := Attended(s.session) && AllTake(w, s.session, plain);
            && r.acks == (if taken && w.sendOk(s.turn) then s.acks + [Ack(m.messageType, m.messageId, m.sequenceNumber)]
                          else s.acks)
            && (r.failed <==> (Open(s.session) && OneFails(w, s.session, plain)) || (taken && !w.sendOk(s.turn)))
            && (!r.failed ==> s.consumed + [m] <= HandleOutput(w, s, m, raw, now).consumed)
            && (!Attended(s.session) ==> !r.failed && r.session == s.session)
  {
    var r, plain := InOrder(w, s, m), Opened(w, s.session, m).value;
    DispatchVerdict(w, s.session, plain);
    DispatchExtends(w, s.session, plain);
    if !r.failed {
      DrainConsumes(w, Advance(r, m));
    }
  }

  /**
   A message ahead of its turn is acknowledged and stored, as it came, exactly when there is room and the link works;
   without room it is dropped, and without a link it ends the listener.
   */
  lemma AheadStoredIffRoom(w: World, s: State, m: ClientMessage, raw: seq<byte>, now: real)
    requires Keyed(s.incoming) && !s.failed && m.sequenceNumber > s.expected
    requires w.decode(raw) == Ok(m) && w.validate(m) && m.messageType == OUTPUT_STREAM
    ensures var r, n: int := Step(w, s, Arrive(raw, now)), m.sequenceNumber;
            if |s.incoming| == s.capacity then r == s
            else if !w.sendOk(s.turn) then r == Fail(s.(turn := s.turn + 1))
            else r == s.(turn := s.turn + 1, acks := s.acks + [Ack(m.messageType, m.messageId, m.sequenceNumber)],
                         incoming := s.incoming[n := StreamingMessage(raw, n, now, 0)])
  {
  }

  /** Once passed, a message is never offered again: its frame changes nothing, and is not acknowledged either. */
  lemma PassedIsIgnored(w: World, s: State, raw: seq<byte>, now: real)
    requires Keyed(s.incoming) && w.decode(raw).Ok? && w.validate(w.decode(raw).value)
    requires w.decode(raw).value.messageType == OUTPUT_STREAM && w.decode(raw).value.sequenceNumber < s.expected
    ensures Step(w, s, Arrive(raw, now)) == s
  {
  }

  // ---------- Over whole runs ----------

  /** The happening at index `i` reached a handler, opened with the keys of that moment. */
  ghost predicate Reached(w: World, s: Session, hs: seq<Happening>, i: nat)
    requires i < |hs| && hs[i].Message?
  {
    var t := Outcome(w, s, hs[..i]);
    && t.handlers != [] && Opened(w, t, hs[i].m).Ok?
    && t.calls + [Call(t.handlers[0], Opened(w, t, hs[i].m).value)] <= Outcome(w, s, hs[..i + 1]).calls
  }

  lemma {:induction false} SmoothPrefix(w: World, s: Session, hs: seq<Happening>, i: nat)
    requires Smooth(w, s, hs) && i <= |hs|
    ensures Smooth(w, s, hs[..i])
  {
    if i < |hs| {
      assert hs[..|hs| - 1][..i] == hs[..i];
      SmoothPrefix(w, s, hs[..|hs| - 1], i);
    } else {
      assert hs[..i] == hs;
    }
  }

  /** A message of a history reaches a handler exactly when the session is attended at that point. */
  lemma ReachedIffAttended(w: World, s: Session, hs: seq<Happening>, i: nat)
    requires Smooth(w, s, hs) && i < |hs| && hs[i].Message?
    ensures var t := Outcome(w, s, hs[..i]);
            && (Attended(t) <==> Reached(w, s, hs, i))
            && (!Attended(t) ==> Outcome(w, s, hs[..i + 1]) == t)
  {
    SmoothPrefix(w, s, hs, i + 1);
    assert hs[..i + 1][..i] == hs[..i];
    var t := Outcome(w, s, hs[..i]);
    assert Outcome(w, s, hs[..i + 1]) == HandOver(w, t, hs[i].m).0;
    HandOverExtends(w, t, hs[i].m);
  }

  /** Where in the history the message numbered `k` among the consumed ones stands. */
  lemma {:induction false} StandsAt(hs: seq<Happening>, k: nat) returns (i: nat)
    requires k < |Consumed(hs)|
    ensures i < |hs| && !hs[i].Registration? && hs[i].m == Consumed(hs)[k]
  {
    var n := |hs| - 1;
    if k < |Consumed(hs[..n])| {
      i := StandsAt(hs[..n], k);
    } else {
      i := n;
    }
  }

  /**
   In every reachable state that has not failed, each consumed message stands in the history as the agent sent it,
   either as an exchange or as a delivery; and a delivery reached a handler exactly when the session was attended at
   that point. Having been acknowledged makes no difference.
   */
  lemma ConsumedReaches(w: World, sent: nat -> ClientMessage, inCap: nat, outCap: nat, es: seq<Event>, k: nat)
    returns (i: nat)
    requires w.decode([]).Err? && GenuineRun(w, sent, es)
    requires var r := Run(w, Initial(inCap, outCap), es); !r.failed && k < r.expected
    ensures var s := Initial(inCap, outCap);
            var hs := RunHistory(w, s, es);
            && i < |hs| && !hs[i].Registration? && hs[i].m == sent(k)
            && (hs[i].Message? ==> (Reached(w, s.session, hs, i) <==> Attended(Outcome(w, s.session, hs[..i]))))
  {
    var s := Initial(inCap, outCap);
    var hs := RunHistory(w, s, es);
    RunTold(w, s, es);
    RunKeeps(w, sent, s, es);
    assert Run(w, s, es).consumed == Consumed(hs);
    i := StandsAt(hs, k);
    if hs[i].Message? {
      ReachedIffAttended(w, s.session, hs, i);
    }
  }

  // ---------- Two ways to lose a message ----------

  /** A handshake request with number 0 that asks for a port session and nothing else. */
  ghost predicate PortRequest(w: World, m: ClientMessage, req: HandshakeRequest) {
    && w.validate(m) && m.messageType == OUTPUT_STREAM && m.sequenceNumber == 0
    && m.payloadType == HANDSHAKE_REQUEST
    && |req.actions| == 1 && req.actions[0].actionType == SessionTypeRequest
    && w.parseSessionType(req.actions[0].parameters) == Some(PortName)
  }

  predicate FirstOutput(w: World, m: ClientMessage) {
    w.validate(m) && m.messageType == OUTPUT_STREAM && m.sequenceNumber == 1 && m.payloadType == OUTPUT
  }

  /** The session between the handshake and the plugin's registration. */
  predicate Waiting(s: Session) {
    s.sessionType == Port && !s.specificHandlerSet && !s.encryptionEnabled && s.calls == []
  }

  lemma PortNegotiated(w: World, s: State, m: ClientMessage, req: HandshakeRequest)
    requires !s.failed && s.session == Initial(0, 0).session && PortRequest(w, m, req) && Answerable(w, s, m, req)
    ensures var r := InOrder(w, s, m); !r.failed && Waiting(r.session) && r.acks == s.acks + [AckOf(m)]
  {
    HandshakeAnswered(w, s, m, req);
    var s' := SendAck(w, s, m);
    var t := s'.(session := s'.session.(agentVersion := req.agentVersion));
    var (u, p) := ProcessAction(w, t, req.actions[0]);
    assert req.actions[1..] == [];
    assert ProcessActions(w, t, req.actions, HandshakeResponse([], [])).0 == u;
  }

  lemma UnattendedPasses(w: World, s: State, m: ClientMessage)
    requires !s.failed && Waiting(s.session) && !Control(m.payloadType)
    ensures InOrder(w, s, m) == s && HandOver(w, s.session, m) == (s.session, Verdict(false, false))
  {
  }

  /** The plugin registers, and the agent sends the message numbered 1 once more. */
  function Afterwards(raw: seq<byte>, now: real): seq<Event> {
    [Register(Plugin(0), true), Arrive(raw, now)]
  }

  lemma TooLate(w: World, s: State, m: ClientMessage, raw: seq<byte>, now: real)
    requires Keyed(s.incoming) && s.expected == 2 && w.decode(raw) == Ok(m) && FirstOutput(w, m)
    ensures Run(w, s, Afterwards(raw, now)) == s.(session := Registered(s.session, Plugin(0), true))
  {
    RunTwo(w, s, Afterwards(raw, now));
    PassedIsIgnored(w, Step(w, s, Register(Plugin(0), true)), raw, now);
  }

  /**
   Output that arrives in its turn, after the handshake but before the plugin has registered, is passed: it is
   neither acknowledged nor delivered, and sending it again does not help.
   */
  lemma LostBeforeRegistration(w: World, req: HandshakeRequest, m0: ClientMessage, m1: ClientMessage,
                               raw0: seq<byte>, raw1: seq<byte>, now: real, inCap: nat, outCap: nat)
    requires w.decode(raw0) == Ok(m0) && PortRequest(w, m0, req) && Answerable(w, Initial(inCap, outCap), m0, req)
    requires w.decode(raw1) == Ok(m1) && FirstOutput(w, m1)
    ensures var r := Run(w, Initial(inCap, outCap), [Arrive(raw0, now), Arrive(raw1, now)] + Afterwards(raw1, now));
            !r.failed && r.consumed == [m0, m1] && r.acks == [AckOf(m0)] && r.session.calls == []
  {
    var s := Initial(inCap, outCap);
    var es := [Arrive(raw0, now), Arrive(raw1, now)];
    PortNegotiated(w, s, m0, req);
    var a := Advance(InOrder(w, s, m0), m0);
    assert Step(w, s, es[0]) == Drain(w, a) == a;
    UnattendedPasses(w, a, m1);
    RunTwo(w, s, es);
    assert Run(w, s, es) == Advance(a, m1);
    TooLate(w, Advance(a, m1), m1, raw1, now);
    RunAppend(w, s, es, Afterwards(raw1, now));
  }

  lemma DrainedUnattended(w: World, s: State, m: ClientMessage, b: StreamingMessage)
    requires !s.failed && Waiting(s.session) && s.expected == 1 && s.incoming == map[1 := b]
    requires b.sequenceNumber == 1 && b.content != [] && w.decode(b.content) == Ok(m) && !Control(m.payloadType)
    ensures Drain(w, s) == Advance(s, m).(incoming := map[])
  {
    UnattendedPasses(w, s, m);
    assert Buffered(w, s, b) == Advance(s, m).(incoming := map[]);
  }

  /** The overtaking message is acknowledged and held, and drained without effect once the handshake is done. */
  lemma Overtaken(w: World, req: HandshakeRequest, m0: ClientMessage, m1: ClientMessage, raw0: seq<byte>,
                  raw1: seq<byte>, now: real, s: State, a: State)
    requires s == Initial(s.capacity, s.sender.capacity) && s.capacity > 0 && w.decode([]).Err? && w.sendOk(0)
    requires w.decode(raw1) == Ok(m1) && FirstOutput(w, m1) && a == Step(w, s, Arrive(raw1, now))
    requires w.decode(raw0) == Ok(m0) && PortRequest(w, m0, req) && Answerable(w, a, m0, req)
    ensures var u := Step(w, a, Arrive(raw0, now));
            && !u.failed && u.expected == 2 && u.consumed == [m0, m1] && u.acks == [AckOf(m1), AckOf(m0)]
            && u.session.calls == []
  {
    var b := StreamingMessage(raw1, 1, now, 0);
    assert a == s.(turn := 1, acks := [AckOf(m1)], incoming := map[1 := b]);
    PortNegotiated(w, a, m0, req);
    DrainedUnattended(w, Advance(InOrder(w, a, m0), m0), m1, b);
  }

  /** Output that overtakes the handshake is lost likewise, and this time it has been acknowledged. */
  lemma AcknowledgedAndLost(w: World, req: HandshakeRequest, m0: ClientMessage, m1: ClientMessage,
                            raw0: seq<byte>, raw1: seq<byte>, now: real, inCap: nat, outCap: nat)
    requires inCap > 0 && w.decode([]).Err? && w.sendOk(0)
    requires w.decode(raw1) == Ok(m1) && FirstOutput(w, m1)
    requires w.decode(raw0) == Ok(m0) && PortRequest(w, m0, req)
    requires Answerable(w, Step(w, Initial(inCap, outCap), Arrive(raw1, now)), m0, req)
    ensures var r := Run(w, Initial(inCap, outCap), [Arrive(raw1, now), Arrive(raw0, now)] + Afterwards(raw1, now));
            !r.failed && r.consumed == [m0, m1] && r.acks == [AckOf(m1), AckOf(m0)] && r.session.calls == []
  {
    var s := Initial(inCap, outCap);
    var es := [Arrive(raw1, now), Arrive(raw0, now)];
    Overtaken(w, req, m0, m1, raw0, raw1, now, s, Step(w, s, es[0]));
    RunTwo(w, s, es);
    TooLate(w, Run(w, s, es), m1, raw1, now);
    RunAppend(w, s, es, Afterwards(raw1, now));
  }
}
