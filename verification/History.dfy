/**
 The session as the outcome of a history: messages handed to the handlers, control messages acted upon and
 registrations, in the order in which they took effect. Arrival order, repetition and the reorder buffer do not
 appear in it.
 */
module History {
  import opened Wrappers
  import opened Codec
  import opened Protocol
  import opened Delivery

  /** An exchange is a control message acted upon; `turn` is when the world was first consulted for it. */
  datatype Happening =
    | Message(m: ClientMessage)
    | Exchange(m: ClientMessage, turn: nat)
    | Registration(handler: Handler, specific: bool)

  // ---------- Reference ----------

  /** What a control message does to the session; only a handshake request changes it. */
  function Negotiated(w: World, s: Session, m: ClientMessage, turn: nat): Session {
    if m.payloadType != HANDSHAKE_REQUEST || w.parseHandshake(m.payload).None? then s
    else
      var req := w.parseHandshake(m.payload).value;
      var start := Initial(0, 0).(session := s.(agentVersion := req.agentVersion), turn := turn);
      ProcessActions(w, start, req.actions, HandshakeResponse([], [])).0.session
  }

  function Happened(w: World, s: Session, h: Happening): Session {
    match h
    case Message(m) => HandOver(w, s, m).0
    case Exchange(m, turn) => Negotiated(w, s, m, turn)
    case Registration(handler, specific) => Registered(s, handler, specific)
  }

  /** The session after a history. */
  function Outcome(w: World, s: Session, hs: seq<Happening>): Session {
    if hs == [] then s else Happened(w, Outcome(w, s, hs[..|hs| - 1]), hs[|hs| - 1])
  }

  /** No message of the history failed to open or made a handler fail. */
  ghost predicate Smooth(w: World, s: Session, hs: seq<Happening>) {
    hs == [] ||
    (var init, last := hs[..|hs| - 1], hs[|hs| - 1];
     Smooth(w, s, init) && (last.Message? ==> !HandOver(w, Outcome(w, s, init), last.m).1.failed))
  }

  function Messages(ms: seq<ClientMessage>): (hs: seq<Happening>)
    ensures |hs| == |ms| && forall i :: 0 <= i < |ms| ==> hs[i] == Message(ms[i])
  {
    seq(|ms|, i requires 0 <= i < |ms| => Message(ms[i]))
  }

  /** Messages handed to the handlers one after the other: what a session should see of a stream. */
  function DeliverAll(w: World, s: Session, ms: seq<ClientMessage>): Session {
    Outcome(w, s, Messages(ms))
  }

  /** The messages of a history, delivered or acted upon. */
  function Consumed(hs: seq<Happening>): seq<ClientMessage> {
    if hs == [] then []
    else
      var last := hs[|hs| - 1];
      Consumed(hs[..|hs| - 1]) + if last.Registration? then [] else [last.m]
  }

  lemma {:induction false} Append(w: World, s: Session, hs: seq<Happening>, gs: seq<Happening>)
    ensures Outcome(w, s, hs + gs) == Outcome(w, Outcome(w, s, hs), gs)
    ensures Smooth(w, s, hs + gs) <==> Smooth(w, s, hs) && Smooth(w, Outcome(w, s, hs), gs)
    ensures Consumed(hs + gs) == Consumed(hs) + Consumed(gs)
    decreases |gs|
  {
    if gs == [] {
      assert hs + gs == hs;
    } else {
      var all := hs + gs;
      assert all[..|all| - 1] == hs + gs[..|gs| - 1];
      Append(w, s, hs, gs[..|gs| - 1]);
    }
  }

  // ---------- What a run tells ----------

  /** `r` comes out of `s` through the history `hs`, whose messages are exactly those consumed meanwhile. */
  ghost predicate Told(w: World, s: State, hs: seq<Happening>, r: State) {
    && s.expected <= r.expected
    && r.consumed == s.consumed + Consumed(hs)
    && r.session == Outcome(w, s.session, hs)
    && Smooth(w, s.session, hs)
  }

  lemma ToldNothing(w: World, s: State, r: State)
    requires r.expected == s.expected && r.consumed == s.consumed && r.session == s.session
    ensures Told(w, s, [], r)
  {
  }

  lemma ToldOne(w: World, s: State, h: Happening, r: State)
    requires s.expected <= r.expected && r.session == Happened(w, s.session, h)
    requires r.consumed == s.consumed + if h.Registration? then [] else [h.m]
    requires h.Message? ==> !HandOver(w, s.session, h.m).1.failed
    ensures Told(w, s, [h], r)
  {
    assert [h][..0] == [];
    assert Outcome(w, s.session, []) == s.session && Smooth(w, s.session, []) && Consumed([]) == [];
  }

  lemma ToldBoth(w: World, s: State, hs: seq<Happening>, t: State, gs: seq<Happening>, r: State)
    requires Told(w, s, hs, t) && Told(w, t, gs, r)
    ensures Told(w, s, hs + gs, r)
  {
    Append(w, s.session, hs, gs);
  }

  lemma {:induction false} MessagesConsumed(ms: seq<ClientMessage>)
    ensures Consumed(Messages(ms)) == ms
  {
    if ms != [] {
      var init := ms[..|ms| - 1];
      assert Messages(ms)[..|ms| - 1] == Messages(init);
      MessagesConsumed(init);
    }
  }

  /** What `r` consumed beyond `s`. */
  function Since(s: State, r: State): seq<ClientMessage> {
    if |s.consumed| <= |r.consumed| then r.consumed[|s.consumed|..] else []
  }

  lemma BufferedTold(w: World, s: State, b: StreamingMessage)
    requires !s.failed && !Buffered(w, s, b).failed
    ensures w.decode(b.content).Ok? && Told(w, s, [Message(w.decode(b.content).value)], Buffered(w, s, b))
  {
    ToldOne(w, s, Message(w.decode(b.content).value), Buffered(w, s, b));
  }

  lemma OneMoreMessage(m: ClientMessage, ms: seq<ClientMessage>)
    ensures [Message(m)] + Messages(ms) == Messages([m] + ms)
    ensures Consumed([Message(m)]) == [m]
  {
    assert [Message(m)][..0] == [];
  }

  lemma SinceOneMore(s: State, m: ClientMessage, t: State, r: State)
    requires t.consumed == s.consumed + [m] && t.consumed <= r.consumed
    ensures Since(s, r) == [m] + Since(t, r)
  {
  }

  lemma ToldOneMore(w: World, s: State, m: ClientMessage, t: State, r: State)
    requires Told(w, s, [Message(m)], t) && Told(w, t, Messages(Since(t, r)), r)
    ensures Told(w, s, Messages(Since(s, r)), r)
  {
    var later := Since(t, r);
    OneMoreMessage(m, later);
    MessagesConsumed(later);
    SinceOneMore(s, m, t, r);
    ToldBoth(w, s, [Message(m)], t, Messages(later), r);
  }

  /** Draining hands every message over, whatever its payload type. */
  lemma {:induction false} DrainTold(w: World, s: State)
    requires Keyed(s.incoming) && !s.failed && !Drain(w, s).failed
    ensures Told(w, s, Messages(Since(s, Drain(w, s))), Drain(w, s))
    decreases |s.incoming|
  {
    if s.expected !in s.incoming || s.incoming[s.expected].content == [] {
      ToldNothing(w, s, s);
      assert Messages(Since(s, s)) == [];
    } else {
      var b := s.incoming[s.expected];
      var s' := Buffered(w, s, b);
      assert s'.incoming.Keys == s.incoming.Keys - {s.expected};
      BufferedTold(w, s, b);
      DrainTold(w, s');
      ToldOneMore(w, s, w.decode(b.content).value, s', Drain(w, s'));
    }
  }

  /** KMS gives the same data key whenever it is asked. */
  ghost predicate SteadyKms(w: World) {
    forall t, u, k {:trigger w.dataKey(t, k), w.dataKey(u, k)} :: w.dataKey(t, k) == w.dataKey(u, k)
  }

  /** What the actions do to the session depends on the session and, through KMS, on the turn; on nothing else. */
  lemma {:induction false} ActionsLocal(w: World, s: State, t: State, actions: seq<RequestedAction>,
                                        resp: HandshakeResponse)
    requires s.session == t.session && (s.turn == t.turn || SteadyKms(w))
    ensures ProcessActions(w, s, actions, resp).0.session == ProcessActions(w, t, actions, resp).0.session
    ensures ProcessActions(w, s, actions, resp).1 == ProcessActions(w, t, actions, resp).1
    decreases |actions|
  {
    if actions != [] {
      var (s', p) := ProcessAction(w, s, actions[0]);
      var (t', q) := ProcessAction(w, t, actions[0]);
      assert p == q && s'.session == t'.session && (s.turn == t.turn ==> s'.turn == t'.turn);
      var errors := if p.error.Some? then resp.errors + [p.error.value] else resp.errors;
      ActionsLocal(w, s', t', actions[1..], HandshakeResponse(resp.processed + [p], errors));
    }
  }

  lemma ControlTold(w: World, s: State, m: ClientMessage)
    requires !s.failed && Control(m.payloadType) && !InOrder(w, s, m).failed
    ensures Told(w, s, [Exchange(m, s.turn + 1)], Advance(InOrder(w, s, m), m))
  {
    var a := SendAck(w, s, m);
    if m.payloadType == HANDSHAKE_REQUEST {
      var req := w.parseHandshake(m.payload).value;
      var session := s.session.(agentVersion := req.agentVersion);
      ActionsLocal(w, a.(session := session), Initial(0, 0).(session := session, turn := s.turn + 1), req.actions,
                   HandshakeResponse([], []));
    }
    ToldOne(w, s, Exchange(m, s.turn + 1), Advance(InOrder(w, s, m), m));
  }

  /** A message that arrives in its turn: control messages are acted upon, all others delivered. */
  function InTurn(s: State, m: ClientMessage): Happening {
    if Control(m.payloadType) then Exchange(m, s.turn + 1) else Message(m)
  }

  /** The message of an event that reaches handleOutputMessage. */
  function OutputOf(w: World, e: Event): Option<ClientMessage> {
    if e.Arrive? && w.decode(e.raw).Ok? && w.validate(w.decode(e.raw).value)
       && w.decode(e.raw).value.messageType == OUTPUT_STREAM
    then Some(w.decode(e.raw).value) else None
  }

  /** What an event adds to the history. */
  function StepHistory(w: World, s: State, e: Event): seq<Happening>
    requires Keyed(s.incoming)
  {
    if e.Register? then [Registration(e.handler, e.specific)]
    else
      match OutputOf(w, e)
      case None => []
      case Some(m) =>
        if m.sequenceNumber != s.expected then []
        else [InTurn(s, m)] + Messages(Since(Advance(s, m), Step(w, s, e)))
  }

  function RunHistory(w: World, s: State, es: seq<Event>): seq<Happening>
    requires Keyed(s.incoming)
    decreases |es|
  {
    if es == [] then [] else StepHistory(w, s, es[0]) + RunHistory(w, Step(w, s, es[0]), es[1..])
  }

  lemma StepTold(w: World, s: State, e: Event)
    requires Keyed(s.incoming) && !s.failed && !Step(w, s, e).failed
    ensures Told(w, s, StepHistory(w, s, e), Step(w, s, e))
  {
    var r := Step(w, s, e);
    if e.Register? {
      ToldOne(w, s, Registration(e.handler, e.specific), r);
    } else if OutputOf(w, e).Some? && OutputOf(w, e).value.sequenceNumber == s.expected {
      InTurnTold(w, s, OutputOf(w, e).value, r);
    } else {
      ToldNothing(w, s, r);
    }
  }

  lemma InTurnTold(w: World, s: State, m: ClientMessage, r: State)
    requires Keyed(s.incoming) && !s.failed && !InOrder(w, s, m).failed
    requires r == Drain(w, Advance(InOrder(w, s, m), m)) && !r.failed
    ensures Told(w, s, [InTurn(s, m)] + Messages(Since(Advance(s, m), r)), r)
  {
    var t := Advance(InOrder(w, s, m), m);
    if Control(m.payloadType) {
      ControlTold(w, s, m);
    } else {
      ToldOne(w, s, Message(m), t);
    }
    DrainTold(w, t);
    ToldBoth(w, s, [InTurn(s, m)], t, Messages(Since(t, r)), r);
  }

  /**
   Over every run that does not fail, the session, handler calls included, is the outcome of the run's history, and
   the history's messages are exactly those consumed, in order.
   */
  lemma {:induction false} RunTold(w: World, s: State, es: seq<Event>)
    requires Keyed(s.incoming) && !s.failed && !Run(w, s, es).failed
    ensures Told(w, s, RunHistory(w, s, es), Run(w, s, es))
    decreases |es|
  {
    if es == [] {
      ToldNothing(w, s, s);
    } else {
      var s' := Step(w, s, es[0]);
      if s'.failed {
        FailureIsFinal(w, s', es[1..]);
      }
      StepTold(w, s, es[0]);
      RunTold(w, s', es[1..]);
      ToldBoth(w, s, StepHistory(w, s, es[0]), s', RunHistory(w, s', es[1..]), Run(w, s, es));
    }
  }

  // ---------- Runs with the same history ----------

  function Untimed(h: Happening): Happening {
    match h
    case Exchange(m, _) => Exchange(m, 0)
    case _ => h
  }

  /** The same happenings in the same order, at whatever time. */
  ghost predicate SameHistory(hs: seq<Happening>, gs: seq<Happening>) {
    |hs| == |gs| && forall i :: 0 <= i < |hs| ==> Untimed(hs[i]) == Untimed(gs[i])
  }

  lemma {:induction false} SameOutcome(w: World, s: Session, hs: seq<Happening>, gs: seq<Happening>)
    requires SameHistory(hs, gs)
    requires SteadyKms(w) || forall i :: 0 <= i < |hs| ==> !hs[i].Exchange?
    ensures Outcome(w, s, hs) == Outcome(w, s, gs)
  {
    if hs != [] {
      var n := |hs| - 1;
      SameOutcome(w, s, hs[..n], gs[..n]);
      assert Untimed(hs[n]) == Untimed(gs[n]);
      if hs[n].Exchange? && w.parseHandshake(hs[n].m.payload).Some? {
        var t := Outcome(w, s, hs[..n]);
        var req := w.parseHandshake(hs[n].m.payload).value;
        var session := t.(agentVersion := req.agentVersion);
        ActionsLocal(w, Initial(0, 0).(session := session, turn := hs[n].turn),
                     Initial(0, 0).(session := session, turn := gs[n].turn), req.actions, HandshakeResponse([], []));
      }
    }
  }

  /**
   Two runs with the same history have made the same handler calls with the same payloads and negotiated the same
   session, however their frames arrived. Only the data keys of KMS could tell the runs apart.
   */
  lemma SameHistorySameSession(w: World, s: State, es: seq<Event>, fs: seq<Event>)
    requires Keyed(s.incoming) && !s.failed && !Run(w, s, es).failed && !Run(w, s, fs).failed
    requires var hs := RunHistory(w, s, es);
             && SameHistory(hs, RunHistory(w, s, fs))
             && (SteadyKms(w) || forall i :: 0 <= i < |hs| ==> !hs[i].Exchange?)
    ensures Run(w, s, es).session == Run(w, s, fs).session
  {
    RunTold(w, s, es);
    RunTold(w, s, fs);
    SameOutcome(w, s.session, RunHistory(w, s, es), RunHistory(w, s, fs));
  }
}
