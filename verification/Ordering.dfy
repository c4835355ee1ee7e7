/** What the handlers see: each message in order, at most once, opened, and every one while they are ready. */
module Ordering {
  import opened Wrappers
  import opened Bytes
  import opened Codec
  import opened Protocol
  import opened Handlers
  import opened Delivery
  import opened History

  // ---------- Calls come in order and without repetition ----------

  /** The same message, except that the payload may have been decrypted. */
  predicate SameUpToPayload(m: ClientMessage, n: ClientMessage) {
    m == n.(payload := m.payload)
  }

  /** The handler configurations in which the walk over the list reaches everyone once. */
  ghost predicate WellPlaced(hs: seq<Handler>) {
    Distinct(hs) && IndexOf(hs, First) + 2 >= |hs|
  }

  /** All calls carry agent messages below `bound`, in order; no handler sees a message twice. */
  ghost predicate InOrderCalls(sent: nat -> ClientMessage, calls: seq<Call>, bound: int) {
    && (forall i :: 0 <= i < |calls| ==> Carries(sent, calls[i].message, bound))
    && (forall i, j :: 0 <= i < j < |calls| ==> Follows(calls[i], calls[j]))
  }

  ghost predicate Carries(sent: nat -> ClientMessage, m: ClientMessage, bound: int) {
    0 <= m.sequenceNumber < bound && SameUpToPayload(m, sent(m.sequenceNumber))
  }

  ghost predicate Follows(c: Call, d: Call) {
    && c.message.sequenceNumber <= d.message.sequenceNumber
    && (c.handler == d.handler ==> c.message.sequenceNumber < d.message.sequenceNumber)
  }

  lemma DispatchInOrder(w: World, sent: nat -> ClientMessage, s: Session, m: ClientMessage, bound: nat)
    requires WellPlaced(s.handlers) && InOrderCalls(sent, s.calls, bound)
    requires m.sequenceNumber == bound && SameUpToPayload(m, sent(bound))
    ensures var r := Dispatch(w, s, m).0;
            WellPlaced(r.handlers) && InOrderCalls(sent, r.calls, bound + 1)
  {
    VisitedInPlace(s.handlers);
    var n := DispatchCalls(w, s, m);
    var r := Dispatch(w, s, m).0;
    assert r.calls == s.calls + CallsOf(s.handlers[0..n], m);
    forall i | 0 <= i < |r.calls|
      ensures Carries(sent, r.calls[i].message, bound + 1)
    {
      if i < |s.calls| {
        assert Carries(sent, s.calls[i].message, bound);
      }
    }
    forall i, j | 0 <= i < j < |r.calls|
      ensures Follows(r.calls[i], r.calls[j])
    {
      if j < |s.calls| {
        assert Follows(s.calls[i], s.calls[j]);
      } else if i < |s.calls| {
        assert Carries(sent, s.calls[i].message, bound);
      } else {
        assert s.handlers[i - |s.calls|] != s.handlers[j - |s.calls|];
      }
    }
    RemovedStaysPlaced(s.handlers);
  }

  lemma RemovedStaysPlaced(hs: seq<Handler>)
    requires WellPlaced(hs)
    ensures WellPlaced(Removed(hs, First))
  {
  }

  ghost predicate CallsInv(sent: nat -> ClientMessage, s: State) {
    && WellPlaced(s.session.handlers)
    && InOrderCalls(sent, s.session.calls, if s.failed then s.expected + 1 else s.expected)
  }

  lemma WidenBound(sent: nat -> ClientMessage, calls: seq<Call>, bound: int)
    requires InOrderCalls(sent, calls, bound)
    ensures InOrderCalls(sent, calls, bound + 1)
  {
    forall i | 0 <= i < |calls|
      ensures Carries(sent, calls[i].message, bound + 1)
    {
      assert Carries(sent, calls[i].message, bound);
    }
  }

  lemma OpenedIsSame(w: World, s: Session, m: ClientMessage)
    ensures Opened(w, s, m).Ok? ==> SameUpToPayload(Opened(w, s, m).value, m)
  {
  }

  lemma HandOverInOrder(w: World, sent: nat -> ClientMessage, s: Session, m: ClientMessage, bound: nat)
    requires WellPlaced(s.handlers) && InOrderCalls(sent, s.calls, bound)
    requires m.sequenceNumber == bound && m == sent(bound)
    ensures var r := HandOver(w, s, m).0;
            WellPlaced(r.handlers) && InOrderCalls(sent, r.calls, bound + 1)
  {
    OpenedIsSame(w, s, m);
    WidenBound(sent, s.calls, bound);
    if Opened(w, s, m).Ok? {
      DispatchInOrder(w, sent, s, Opened(w, s, m).value, bound);
    }
  }

  lemma BufferedInOrder(w: World, sent: nat -> ClientMessage, s: State)
    requires !s.failed && Draining(w, sent, s) && s.expected in s.incoming && CallsInv(sent, s)
    ensures CallsInv(sent, Buffered(w, s, s.incoming[s.expected]))
  {
    assert Held(w, sent, s.expected, s.expected, s.incoming[s.expected]);
    HandOverInOrder(w, sent, s.session, sent(s.expected), s.expected);
    WidenBound(sent, s.session.calls, s.expected);
  }

  lemma {:induction false} DrainInOrder(w: World, sent: nat -> ClientMessage, s: State)
    requires Keyed(s.incoming) && !s.failed && Draining(w, sent, s) && CallsInv(sent, s)
    ensures CallsInv(sent, Drain(w, s))
    decreases |s.incoming|
  {
    if s.expected in s.incoming {
      BufferedKeeps(w, sent, s);
      BufferedInOrder(w, sent, s);
      var s' := Buffered(w, s, s.incoming[s.expected]);
      if !s'.failed {
        DrainInOrder(w, sent, s');
      }
    }
  }

  /** The in-order switch: afterwards the message counts as seen, whether or not it was handled. */
  lemma InOrderInOrder(w: World, sent: nat -> ClientMessage, s: State, m: ClientMessage)
    requires !s.failed && CallsInv(sent, s) && 0 <= s.expected == m.sequenceNumber && m == sent(s.expected)
    ensures var r := InOrder(w, s, m);
            WellPlaced(r.session.handlers) && InOrderCalls(sent, r.session.calls, s.expected + 1)
  {
    WidenBound(sent, s.session.calls, s.expected);
    if !Control(m.payloadType) {
      DefaultInOrder(w, sent, s, m);
    }
  }

  lemma DefaultInOrder(w: World, sent: nat -> ClientMessage, s: State, m: ClientMessage)
    requires !s.failed && CallsInv(sent, s) && 0 <= s.expected == m.sequenceNumber && m == sent(s.expected)
    ensures var r := Default(w, s, m);
            WellPlaced(r.session.handlers) && InOrderCalls(sent, r.session.calls, s.expected + 1)
  {
    HandOverInOrder(w, sent, s.session, m, s.expected);
  }

  /** Registrations keep the handler list in one of the good configurations. */
  ghost predicate Orderly(s: State, e: Event) {
    e.Register? ==> WellPlaced(s.session.handlers + [e.handler])
  }

  lemma StepInOrder(w: World, sent: nat -> ClientMessage, s: State, e: Event)
    requires Inv(w, sent, s) && CallsInv(sent, s) && w.decode([]).Err? && Orderly(s, e)
    requires e.Arrive? ==> Genuine(w, sent, e.raw)
    ensures CallsInv(sent, Step(w, s, e))
  {
    match e
    case Arrive(raw, now) =>
      if !s.failed {
        HandleInOrder(w, sent, s, raw, now);
      }
    case Send(_, _) =>
    case Tick(_) =>
    case Register(_, _) =>
  }

  lemma HandleInOrder(w: World, sent: nat -> ClientMessage, s: State, raw: seq<byte>, now: real)
    requires Inv(w, sent, s) && CallsInv(sent, s) && !s.failed && Genuine(w, sent, raw)
    ensures CallsInv(sent, Handle(w, s, raw, now))
  {
    WidenBound(sent, s.session.calls, s.expected);
    if w.decode(raw).Ok? {
      var m := w.decode(raw).value;
      if w.validate(m) && m.messageType == OUTPUT_STREAM && 0 <= m.sequenceNumber {
        OutputInOrder(w, sent, s, m, raw, now);
      }
    }
  }

  lemma OutputInOrder(w: World, sent: nat -> ClientMessage, s: State, m: ClientMessage, raw: seq<byte>, now: real)
    requires Inv(w, sent, s) && CallsInv(sent, s) && !s.failed
    requires 0 <= m.sequenceNumber && m == sent(m.sequenceNumber)
    ensures CallsInv(sent, HandleOutput(w, s, m, raw, now))
  {
    WidenBound(sent, s.session.calls, s.expected);
    if m.sequenceNumber == s.expected {
      InOrderInOrder(w, sent, s, m);
      var s' := InOrder(w, s, m);
      if !s'.failed {
        AdvanceKeeps(w, sent, s, s', m);
        DrainInOrder(w, sent, Advance(s', m));
      }
    }
  }

  ghost predicate OrderlyRun(w: World, s: State, es: seq<Event>)
    requires Keyed(s.incoming)
    decreases |es|
  {
    es != [] ==> Orderly(s, es[0]) && OrderlyRun(w, Step(w, s, es[0]), es[1..])
  }

  lemma {:induction false} RunInOrder(w: World, sent: nat -> ClientMessage, s: State, es: seq<Event>)
    requires Inv(w, sent, s) && CallsInv(sent, s) && w.decode([]).Err?
    requires GenuineRun(w, sent, es) && OrderlyRun(w, s, es)
    ensures CallsInv(sent, Run(w, s, es))
    decreases |es|
  {
    if es != [] {
      StepKeeps(w, sent, s, es[0]);
      StepInOrder(w, sent, s, es[0]);
      RunInOrder(w, sent, Step(w, s, es[0]), es[1..]);
    }
  }

  // ---------- The payload is the agent's, opened ----------

  /** `m` is the agent's message of its number, opened with the keys of `t` if those apply to it. */
  ghost predicate OpenedBy(w: World, sent: nat -> ClientMessage, t: Session, m: ClientMessage) {
    0 <= m.sequenceNumber && Opened(w, t, sent(m.sequenceNumber)) == Ok(m)
  }

  /** The calls of `r` from number `from` on carry messages opened with its present keys. */
  ghost predicate OpenedSince(w: World, sent: nat -> ClientMessage, from: nat, r: Session) {
    forall j :: from <= j < |r.calls| ==> OpenedBy(w, sent, r, r.calls[j].message)
  }

  lemma HandOverOpens(w: World, sent: nat -> ClientMessage, s: Session, k: nat)
    requires sent(k).sequenceNumber == k
    ensures var r := HandOver(w, s, sent(k)).0;
            SameEncryption(s, r) && s.calls <= r.calls && OpenedSince(w, sent, |s.calls|, r)
  {
    HandOverExtends(w, s, sent(k));
  }

  lemma {:induction false} DrainOpens(w: World, sent: nat -> ClientMessage, s: State)
    requires Keyed(s.incoming) && !s.failed && Draining(w, sent, s)
    ensures var r := Drain(w, s).session;
            SameEncryption(s.session, r) && s.session.calls <= r.calls && OpenedSince(w, sent, |s.session.calls|, r)
    decreases |s.incoming|
  {
    if s.expected in s.incoming {
      BufferedKeeps(w, sent, s);
      assert Held(w, sent, s.expected, s.expected, s.incoming[s.expected]);
      HandOverOpens(w, sent, s.session, s.expected);
      var s' := Buffered(w, s, s.incoming[s.expected]);
      if !s'.failed {
        DrainOpens(w, sent, s');
        OpenedBoth(w, sent, s.session, s'.session, Drain(w, s').session);
      }
    }
  }

  lemma OpenedBoth(w: World, sent: nat -> ClientMessage, s: Session, t: Session, r: Session)
    requires s.calls <= t.calls <= r.calls && SameEncryption(t, r)
    requires OpenedSince(w, sent, |s.calls|, t) && OpenedSince(w, sent, |t.calls|, r)
    ensures OpenedSince(w, sent, |s.calls|, r)
  {
    forall j | |s.calls| <= j < |r.calls|
      ensures OpenedBy(w, sent, r, r.calls[j].message)
    {
      if j < |t.calls| {
        assert t.calls[j] == r.calls[j] && OpenedBy(w, sent, t, t.calls[j].message);
      }
    }
  }

  lemma InOrderOpens(w: World, sent: nat -> ClientMessage, s: State, m: ClientMessage)
    requires 0 <= s.expected == m.sequenceNumber && m == sent(s.expected)
    ensures var r := InOrder(w, s, m).session;
            s.session.calls <= r.calls && OpenedSince(w, sent, |s.session.calls|, r)
  {
    if !Control(m.payloadType) {
      HandOverOpens(w, sent, s.session, s.expected);
    }
  }

  lemma StepOpens(w: World, sent: nat -> ClientMessage, s: State, e: Event)
    requires Inv(w, sent, s) && (e.Arrive? ==> Genuine(w, sent, e.raw))
    ensures var r := Step(w, s, e).session;
            s.session.calls <= r.calls && OpenedSince(w, sent, |s.session.calls|, r)
  {
    if !s.failed && OutputOf(w, e).Some? && OutputOf(w, e).value.sequenceNumber == s.expected {
      var m := OutputOf(w, e).value;
      InOrderOpens(w, sent, s, m);
      var s' := InOrder(w, s, m);
      if !s'.failed {
        AdvanceKeeps(w, sent, s, s', m);
        DrainOpens(w, sent, Advance(s', m));
        OpenedBoth(w, sent, s.session, s'.session, Step(w, s, e).session);
      }
    }
  }

  /** Whatever a run hands to a handler was opened with the keys the session had after some event of the run. */
  lemma {:induction false} RunOpens(w: World, sent: nat -> ClientMessage, s: State, es: seq<Event>, j: nat)
    returns (i: nat)
    requires Inv(w, sent, s) && w.decode([]).Err? && GenuineRun(w, sent, es)
    requires |s.session.calls| <= j < |Run(w, s, es).session.calls|
    ensures i <= |es| && OpenedBy(w, sent, Run(w, s, es[..i]).session, Run(w, s, es).session.calls[j].message)
    decreases |es|
  {
    var s' := Step(w, s, es[0]);
    StepKeeps(w, sent, s, es[0]);
    StepOpens(w, sent, s, es[0]);
    if j < |s'.session.calls| {
      i := 1;
      assert es[..1] == [es[0]] && Run(w, s, es[..1]) == Run(w, s', []);
      CallsGrow(w, sent, s', es[1..]);
    } else {
      var k := RunOpens(w, sent, s', es[1..], j);
      i := k + 1;
      assert es[..i][0] == es[0] && es[..i][1..] == es[1..][..k];
    }
  }

  lemma {:induction false} CallsGrow(w: World, sent: nat -> ClientMessage, s: State, es: seq<Event>)
    requires Inv(w, sent, s) && w.decode([]).Err? && GenuineRun(w, sent, es)
    ensures s.session.calls <= Run(w, s, es).session.calls
    decreases |es|
  {
    if es != [] {
      StepKeeps(w, sent, s, es[0]);
      StepOpens(w, sent, s, es[0]);
      CallsGrow(w, sent, Step(w, s, es[0]), es[1..]);
    }
  }

  /**
   In every reachable state, failed or not, each handler was called with agent messages in strictly increasing
   order, hence none twice, and with none beyond the expected number; and each call carried exactly the agent's
   message, opened with the keys the session had at some point of the run.
   */
  lemma HandlersSeeOrder(w: World, sent: nat -> ClientMessage, inCap: nat, outCap: nat, es: seq<Event>)
    requires w.decode([]).Err? && GenuineRun(w, sent, es) && OrderlyRun(w, Initial(inCap, outCap), es)
    ensures CallsInv(sent, Run(w, Initial(inCap, outCap), es))
    ensures var s := Initial(inCap, outCap);
            forall c :: c in Run(w, s, es).session.calls ==>
              exists i :: 0 <= i <= |es| && OpenedBy(w, sent, Run(w, s, es[..i]).session, c.message)
  {
    var s := Initial(inCap, outCap);
    RunInOrder(w, sent, s, es);
    var calls := Run(w, s, es).session.calls;
    forall c | c in calls
      ensures exists i :: 0 <= i <= |es| && OpenedBy(w, sent, Run(w, s, es[..i]).session, c.message)
    {
      var j: nat :| j < |calls| && calls[j] == c;
      var i := RunOpens(w, sent, s, es, j);
    }
  }

  // ---------- A ready plugin misses nothing ----------

  /** The session's plugin `h` is registered; the first-message handler may still be there before it. */
  predicate Served(s: Session, h: Handler) {
    h != First && s.specificHandlerSet && (s.handlers == [h] || s.handlers == [First, h])
  }

  /** The messages `h` was called with. */
  function MessagesTo(h: Handler, calls: seq<Call>): seq<ClientMessage> {
    if calls == [] then []
    else
      var last := calls[|calls| - 1];
      MessagesTo(h, calls[..|calls| - 1]) + if last.handler == h then [last.message] else []
  }

  lemma OneCallMore(h: Handler, calls: seq<Call>, c: Call)
    ensures MessagesTo(h, calls + [c]) == MessagesTo(h, calls) + if c.handler == h then [c.message] else []
  {
    assert (calls + [c])[..|calls|] == calls;
  }

  lemma ServedDispatch(w: World, s: Session, h: Handler, m: ClientMessage)
    requires PluginsReady(w, |s.calls|) && Served(s, h)
    ensures var r := Dispatch(w, s, m).0;
            && Served(r, h) && |s.calls| <= |r.calls|
            && MessagesTo(h, r.calls) == MessagesTo(h, s.calls) + [m]
  {
    EachHandlerOnce(w, s, m);
    ServedAfter(w, s, h, m);
    var r := Dispatch(w, s, m).0;
    if s.handlers == [h] {
      assert r.calls == s.calls + [Call(h, m)];
    } else {
      assert r.calls == (s.calls + [Call(First, m)]) + [Call(h, m)];
      OneCallMore(h, s.calls, Call(First, m));
    }
    OneCallMore(h, r.calls[..|r.calls| - 1], Call(h, m));
  }

  lemma ServedAfter(w: World, s: Session, h: Handler, m: ClientMessage)
    requires PluginsReady(w, |s.calls|) && Served(s, h)
    ensures Served(Dispatch(w, s, m).0, h)
  {
    var n := DispatchCalls(w, s, m);
    if s.handlers == [First, h] {
      assert Removed([First, h], First) == [h];
    }
  }

  /** The messages of a history, each opened with the keys the session had at that point. */
  function OpenedMessages(w: World, s: Session, hs: seq<Happening>): seq<ClientMessage> {
    if hs == [] then []
    else
      var init, last := hs[..|hs| - 1], hs[|hs| - 1];
      OpenedMessages(w, s, init) +
      if last.Message? && Opened(w, Outcome(w, s, init), last.m).Ok?
      then [Opened(w, Outcome(w, s, init), last.m).value] else []
  }

  ghost predicate NoRegistration(hs: seq<Happening>) {
    forall i :: 0 <= i < |hs| ==> !hs[i].Registration?
  }

  lemma {:induction false} HistoryServes(w: World, s: Session, h: Handler, hs: seq<Happening>)
    requires PluginsReady(w, |s.calls|) && Served(s, h) && NoRegistration(hs)
    ensures var r := Outcome(w, s, hs);
            && Served(r, h) && |s.calls| <= |r.calls|
            && MessagesTo(h, r.calls) == MessagesTo(h, s.calls) + OpenedMessages(w, s, hs)
  {
    if hs != [] {
      var init, last := hs[..|hs| - 1], hs[|hs| - 1];
      HistoryServes(w, s, h, init);
      var t := Outcome(w, s, init);
      if last.Message? && Opened(w, t, last.m).Ok? {
        ServedDispatch(w, t, h, Opened(w, t, last.m).value);
      }
    }
  }

  /** Without the control messages. */
  function Data(ms: seq<ClientMessage>): seq<ClientMessage> {
    if ms == [] then []
    else
      var last := ms[|ms| - 1];
      Data(ms[..|ms| - 1]) + if Control(last.payloadType) then [] else [last]
  }

  lemma OneMoreDatum(ms: seq<ClientMessage>, m: ClientMessage)
    ensures Control(m.payloadType) ==> Data(ms + [m]) == Data(ms)
    ensures !Control(m.payloadType) ==> Data(ms + [m]) == Data(ms) + [m]
  {
    assert (ms + [m])[..|ms|] == ms;
  }

  /** `got` is `m`, a message of the history, opened with the keys the session had at that point. */
  ghost predicate OpenedAmid(w: World, s: Session, hs: seq<Happening>, m: ClientMessage, got: ClientMessage) {
    exists k :: 0 <= k < |hs| && hs[k] == Message(m) && Opened(w, Outcome(w, s, hs[..k]), m) == Ok(got)
  }

  /** `got` is `ms` message for message, opened. */
  ghost predicate OneForOne(w: World, s: Session, hs: seq<Happening>, ms: seq<ClientMessage>, got: seq<ClientMessage>) {
    |got| == |ms| && forall i :: 0 <= i < |ms| ==> OpenedAmid(w, s, hs, ms[i], got[i])
  }

  lemma Longer(w: World, s: Session, hs: seq<Happening>, h: Happening, ms: seq<ClientMessage>, got: seq<ClientMessage>)
    requires OneForOne(w, s, hs, ms, got)
    ensures OneForOne(w, s, hs + [h], ms, got)
  {
    var all := hs + [h];
    forall i | 0 <= i < |ms|
      ensures OpenedAmid(w, s, all, ms[i], got[i])
    {
      assert OpenedAmid(w, s, hs, ms[i], got[i]);
      var k :| 0 <= k < |hs| && hs[k] == Message(ms[i]) && Opened(w, Outcome(w, s, hs[..k]), ms[i]) == Ok(got[i]);
      assert all[k] == hs[k] && all[..k] == hs[..k];
    }
  }

  lemma OpenedLast(w: World, s: Session, hs: seq<Happening>, m: ClientMessage)
    requires Opened(w, Outcome(w, s, hs), m).Ok?
    ensures OpenedAmid(w, s, hs + [Message(m)], m, Opened(w, Outcome(w, s, hs), m).value)
  {
    var all := hs + [Message(m)];
    assert all[|hs|] == Message(m) && all[..|hs|] == hs;
  }

  lemma OnePairMore(w: World, s: Session, hs: seq<Happening>, ms: seq<ClientMessage>, got: seq<ClientMessage>,
                    m: ClientMessage, plain: ClientMessage)
    requires OneForOne(w, s, hs, ms, got) && OpenedAmid(w, s, hs, m, plain)
    ensures OneForOne(w, s, hs, ms + [m], got + [plain])
  {
  }

  lemma OneDatumMore(w: World, s: Session, hs: seq<Happening>, ms: seq<ClientMessage>, got: seq<ClientMessage>,
                     m: ClientMessage, plain: ClientMessage)
    requires OneForOne(w, s, hs, Data(ms), Data(got)) && OpenedAmid(w, s, hs, m, plain)
    requires plain.payloadType == m.payloadType
    ensures OneForOne(w, s, hs, Data(ms + [m]), Data(got + [plain]))
  {
    OneMoreDatum(ms, m);
    OneMoreDatum(got, plain);
    if !Control(m.payloadType) {
      OnePairMore(w, s, hs, Data(ms), Data(got), m, plain);
    }
  }

  lemma OneMoreMatch(w: World, s: Session, hs: seq<Happening>, m: ClientMessage, ms: seq<ClientMessage>,
                     got: seq<ClientMessage>)
    requires OneForOne(w, s, hs, Data(ms), Data(got)) && Opened(w, Outcome(w, s, hs), m).Ok?
    ensures OneForOne(w, s, hs + [Message(m)], Data(ms + [m]), Data(got + [Opened(w, Outcome(w, s, hs), m).value]))
  {
    Longer(w, s, hs, Message(m), Data(ms), Data(got));
    OpenedLast(w, s, hs, m);
    OpenedIsSame(w, Outcome(w, s, hs), m);
    OneDatumMore(w, s, hs + [Message(m)], ms, got, m, Opened(w, Outcome(w, s, hs), m).value);
  }

  lemma {:induction false} DataMatches(w: World, s: Session, hs: seq<Happening>)
    requires Smooth(w, s, hs) && NoRegistration(hs) && OnlyControlExchanged(hs)
    ensures OneForOne(w, s, hs, Data(Consumed(hs)), Data(OpenedMessages(w, s, hs)))
  {
    if hs != [] {
      var n := |hs| - 1;
      var init, last := hs[..n], hs[n];
      assert hs == init + [last];
      DataMatches(w, s, init);
      if last.Message? {
        OneMoreMatch(w, s, init, last.m, Consumed(init), OpenedMessages(w, s, init));
      } else {
        Longer(w, s, init, last, Data(Consumed(init)), Data(OpenedMessages(w, s, init)));
        OneMoreDatum(Consumed(init), last.m);
        assert Control(hs[n].m.payloadType);
        assert Data(Consumed(hs)) == Data(Consumed(init));
        assert OpenedMessages(w, s, hs) == OpenedMessages(w, s, init);
      }
    }
  }

  ghost predicate OnlyControlExchanged(hs: seq<Happening>) {
    forall i :: 0 <= i < |hs| && hs[i].Exchange? ==> Control(hs[i].m.payloadType)
  }

  lemma StepHistoryShape(w: World, s: State, e: Event)
    requires Keyed(s.incoming)
    ensures OnlyControlExchanged(StepHistory(w, s, e)) && (!e.Register? ==> NoRegistration(StepHistory(w, s, e)))
  {
  }

  lemma {:induction false} RunHistoryShape(w: World, s: State, es: seq<Event>)
    requires Keyed(s.incoming)
    ensures OnlyControlExchanged(RunHistory(w, s, es))
    ensures (forall i :: 0 <= i < |es| ==> !es[i].Register?) ==> NoRegistration(RunHistory(w, s, es))
    decreases |es|
  {
    if es != [] {
      StepHistoryShape(w, s, es[0]);
      RunHistoryShape(w, Step(w, s, es[0]), es[1..]);
    }
  }

  /**
   From any point after which the session's plugin is ready, it receives exactly the messages delivered, each once, in
   order and opened; and among them, one for one, all the data the channel consumes, over every run that does not fail:
   control messages, reordered frames and whatever else happens included.
   */
  lemma ReadyPluginSeesAll(w: World, s: State, h: Handler, es: seq<Event>)
    requires Keyed(s.incoming) && !s.failed && !Run(w, s, es).failed
    requires PluginsReady(w, |s.session.calls|) && Served(s.session, h)
    requires forall i :: 0 <= i < |es| ==> !es[i].Register?
    ensures var r, hs := Run(w, s, es), RunHistory(w, s, es);
            var got := OpenedMessages(w, s.session, hs);
            && Served(r.session, h)
            && MessagesTo(h, r.session.calls) == MessagesTo(h, s.session.calls) + got
            && OneForOne(w, s.session, hs, Data(Since(s, r)), Data(got))
  {
    var r, hs := Run(w, s, es), RunHistory(w, s, es);
    RunTold(w, s, es);
    RunHistoryShape(w, s, es);
    HistoryServes(w, s.session, h, hs);
    DataMatches(w, s.session, hs);
    assert Since(s, r) == Consumed(hs);
  }
}
