/** For stream data, the handlers cannot tell in which order, or how often, the frames arrived. */
module Reordering {
  import opened Wrappers
  import opened Bytes
  import opened Codec
  import opened Protocol
  import opened Handlers
  import opened Delivery
  import opened History

  // ---------- The session is a function of what was consumed ----------

  /** No registration, and no control message that is still to come when `lo` is expected. */
  predicate StreamDataOnly(w: World, lo: int, e: Event) {
    && !e.Register?
    && (OutputOf(w, e).Some? && Control(OutputOf(w, e).value.payloadType) ==> OutputOf(w, e).value.sequenceNumber < lo)
  }

  ghost predicate AllMessages(hs: seq<Happening>) {
    forall i :: 0 <= i < |hs| ==> hs[i].Message?
  }

  lemma {:induction false} AllMessagesAre(hs: seq<Happening>)
    requires AllMessages(hs)
    ensures hs == Messages(Consumed(hs))
  {
    if hs != [] {
      AllMessagesAre(hs[..|hs| - 1]);
    }
  }

  lemma {:induction false} StreamHistory(w: World, s: State, lo: int, es: seq<Event>)
    requires Keyed(s.incoming) && !s.failed && !Run(w, s, es).failed && lo <= s.expected
    requires forall i :: 0 <= i < |es| ==> StreamDataOnly(w, lo, es[i])
    ensures AllMessages(RunHistory(w, s, es))
    decreases |es|
  {
    if es != [] {
      var s' := Step(w, s, es[0]);
      if s'.failed {
        FailureIsFinal(w, s', es[1..]);
      }
      StepTold(w, s, es[0]);
      assert StreamDataOnly(w, lo, es[0]) && AllMessages(StepHistory(w, s, es[0]));
      StreamHistory(w, s', lo, es[1..]);
    }
  }

  /** Over a run of stream data, the session is the in-order delivery of what was consumed. */
  lemma RunDelivers(w: World, s: State, es: seq<Event>)
    requires Keyed(s.incoming) && !s.failed && !Run(w, s, es).failed
    requires forall i :: 0 <= i < |es| ==> StreamDataOnly(w, s.expected, es[i])
    ensures s.consumed <= Run(w, s, es).consumed
    ensures Run(w, s, es).session == DeliverAll(w, s.session, Since(s, Run(w, s, es)))
  {
    RunTold(w, s, es);
    StreamHistory(w, s, s.expected, es);
    AllMessagesAre(RunHistory(w, s, es));
  }

  // ---------- Without errors, nothing fails ----------

  /** No plugin reports an error from call number `from` on; it may still be unready. */
  ghost predicate NoFailure(w: World, from: nat) {
    forall k, h, m :: from <= k ==> !w.plugin(k, h, m).failed
  }

  /** From this state on sends succeed and no plugin reports an error, whatever happened before. */
  ghost predicate ErrorFree(w: World, s: State) {
    (forall t :: s.turn <= t ==> w.sendOk(t)) && NoFailure(w, |s.session.calls|)
  }

  lemma {:induction false} DispatchErrorFree(w: World, s: Session, backing: seq<Handler>, i: nat, v: Verdict,
                                             m: ClientMessage, r: (Session, Verdict))
    requires NoFailure(w, |s.calls|) && i <= |backing| && |s.handlers| <= |backing| && !v.failed
    requires r == DispatchFrom(w, s, backing, i, v, m)
    ensures !r.1.failed
    decreases |backing| - i
  {
    if i < |backing| {
      if backing[i] == First {
        DispatchErrorFree(w, InvokeFirst(s, m), Shifted(backing, |s.handlers|, First), i + 1, READY, m, r);
      } else {
        var v' := w.plugin(|s.calls|, backing[i], m);
        if v'.ready {
          DispatchErrorFree(w, s.(calls := s.calls + [Call(backing[i], m)]), backing, i + 1, v', m, r);
        }
      }
    }
  }

  lemma HandOverSucceeds(w: World, s: Session, m: ClientMessage)
    requires NoFailure(w, |s.calls|) && Opened(w, s, m).Ok?
    ensures !HandOver(w, s, m).1.failed && SameEncryption(s, HandOver(w, s, m).0)
    ensures |s.calls| <= |HandOver(w, s, m).0.calls|
  {
    HandOverExtends(w, s, m);
    if Open(s) {
      var plain := Opened(w, s, m).value;
      DispatchErrorFree(w, s, s.handlers, 0, Verdict(false, false), plain, Dispatch(w, s, plain));
    }
  }

  /** The session can open whatever is buffered. */
  ghost predicate HeldOpens(w: World, sent: nat -> ClientMessage, s: State) {
    forall k :: k in s.incoming ==> 0 <= k && Opened(w, s.session, sent(k)).Ok?
  }

  lemma {:induction false} DrainSucceeds(w: World, sent: nat -> ClientMessage, s: State)
    requires ErrorFree(w, s) && Keyed(s.incoming) && !s.failed && Draining(w, sent, s) && HeldOpens(w, sent, s)
    ensures !Drain(w, s).failed && SameEncryption(s.session, Drain(w, s).session) && ErrorFree(w, Drain(w, s))
    decreases |s.incoming|
  {
    if s.expected in s.incoming {
      var b := s.incoming[s.expected];
      assert Held(w, sent, s.expected, s.expected, b);
      HandOverSucceeds(w, s.session, sent(s.expected));
      BufferedKeeps(w, sent, s);
      DrainSucceeds(w, sent, Buffered(w, s, b));
    }
  }

  /** A stream message in its turn is consumed, and so is what is buffered behind it; nothing else is lost. */
  lemma InTurnSucceeds(w: World, sent: nat -> ClientMessage, s: State, k: nat, raw: seq<byte>, now: real)
    requires ErrorFree(w, s) && Inv(w, sent, s) && !s.failed && HeldOpens(w, sent, s) && k == s.expected
    requires sent(k).sequenceNumber == k && !Control(sent(k).payloadType) && Opened(w, s.session, sent(k)).Ok?
    ensures var r := HandleOutput(w, s, sent(k), raw, now);
            && !r.failed && SameEncryption(s.session, r.session) && ErrorFree(w, r)
            && k < r.expected && (forall j :: k < j < r.expected ==> j in s.incoming)
            && r.incoming == map j | j in s.incoming && !(k < j < r.expected) :: s.incoming[j]
  {
    var m := sent(k);
    HandOverSucceeds(w, s.session, m);
    var s' := Default(w, s, m);
    AdvanceKeeps(w, sent, s, s', m);
    var t := Advance(s', m);
    DrainSucceeds(w, sent, t);
    forall j | j in t.incoming
      ensures t.incoming[j].content != []
    {
      assert Held(w, sent, t.expected, j, t.incoming[j]);
    }
    DrainMovesToGap(w, t);
  }

  /** What a replay keeps: nothing failed, the keys are those of `s`, and everything held can be opened. */
  ghost predicate CatchingUp(w: World, sent: nat -> ClientMessage, s: State, r: State) {
    && !r.failed && Inv(w, sent, r) && s.expected <= r.expected && ErrorFree(w, r)
    && SameEncryption(s.session, r.session) && HeldOpens(w, sent, r)
  }

  lemma ReplayedFrame(w: World, sent: nat -> ClientMessage, s: State, t: State, n: nat, raw: seq<byte>, now: real)
    requires w.decode([]).Err? && CatchingUp(w, sent, s, t) && n <= t.expected
    requires w.decode(raw) == Ok(sent(n)) && w.validate(sent(n)) && sent(n).messageType == OUTPUT_STREAM
    requires sent(n).sequenceNumber == n
    requires s.expected <= n ==> !Control(sent(n).payloadType) && Opened(w, s.session, sent(n)).Ok?
    ensures var r := Step(w, t, Arrive(raw, now));
            CatchingUp(w, sent, s, r) && n + 1 <= r.expected
  {
    StepKeeps(w, sent, t, Arrive(raw, now));
    if n == t.expected {
      InTurnSucceeds(w, sent, t, n, raw, now);
    }
  }

  /**
   From any state that has not failed, even with a full reorder buffer, one in-order replay of the frames below `n`
   reaches `n`, provided there are no errors and the session opens what is buffered and the frames it still lacks.
   */
  lemma {:induction false} CatchUpSucceeds(w: World, sent: nat -> ClientMessage, s: State, raws: seq<seq<byte>>,
                                           now: real)
    requires ErrorFree(w, s) && w.decode([]).Err? && FramesOf(w, sent, raws)
    requires Inv(w, sent, s) && !s.failed && HeldOpens(w, sent, s)
    requires forall k: nat :: s.expected <= k < |raws| ==>
               !Control(sent(k).payloadType) && Opened(w, s.session, sent(k)).Ok?
    ensures var r := Run(w, s, Replay(raws, now));
            CatchingUp(w, sent, s, r) && |raws| <= r.expected
    decreases |raws|
  {
    if raws == [] {
      assert Replay(raws, now) == [];
    } else {
      var n := |raws| - 1;
      var init, e := raws[..n], Arrive(raws[n], now);
      CatchUpSucceeds(w, sent, s, init, now);
      var t := Run(w, s, Replay(init, now));
      ReplayedFrame(w, sent, s, t, n, raws[n], now);
      ReplayLast(raws, now);
      RunLast(w, s, Replay(init, now), e);
    }
  }

  // ---------- Arrival in any order is complete ----------

  /** The agent's frames below `n`; from `lo` on they are stream data that this session can open. */
  ghost predicate StreamFrames(w: World, sent: nat -> ClientMessage, frame: nat -> seq<byte>, lo: nat, n: nat,
                               s: Session)
  {
    forall k: nat :: k < n ==>
      && w.decode(frame(k)) == Ok(sent(k))
      && w.validate(sent(k))
      && sent(k).messageType == OUTPUT_STREAM
      && sent(k).sequenceNumber == k
      && (lo <= k ==> !Control(sent(k).payloadType) && Opened(w, s, sent(k)).Ok?)
  }

  /** The expected number has reached `lo`, and nothing is held from `n` on. */
  ghost predicate Between(lo: nat, n: nat, s: State) {
    lo <= s.expected <= n && forall k :: k in s.incoming ==> k < n
  }

  lemma {:induction false} IntsBetween(s: set<int>, lo: int, hi: int)
    requires forall k :: k in s ==> lo <= k < hi
    ensures |s| <= if lo <= hi then hi - lo else 0
    decreases hi - lo
  {
    if lo < hi {
      IntsBetween(s - {lo}, lo + 1, hi);
      assert s <= (s - {lo}) + {lo};
      assert |s| <= |s - {lo}| + 1;
    } else {
      assert s == set k | k in s && lo <= k < hi;
    }
  }

  /** Frame `k` was consumed or is held. */
  ghost predicate Seen(s: State, k: int) {
    k < s.expected || k in s.incoming
  }

  /** There is room for a frame ahead of its turn unless it is held already. */
  lemma RoomAhead(w: World, sent: nat -> ClientMessage, lo: nat, n: nat, s: State, k: nat)
    requires Inv(w, sent, s) && !s.failed && Between(lo, n, s) && n - lo <= s.capacity + 1
    requires s.expected < k < n && k !in s.incoming
    ensures |s.incoming| < s.capacity
  {
    var others := s.incoming.Keys + {k};
    forall j | j in others
      ensures s.expected + 1 <= j < n
    {
      if j in s.incoming {
        assert Held(w, sent, s.expected, j, s.incoming[j]);
      }
    }
    IntsBetween(others, s.expected + 1, n);
    assert |others| == |s.incoming.Keys| + 1;
  }

  /** What every event of a reordered stream keeps. */
  ghost predicate Streaming(w: World, sent: nat -> ClientMessage, frame: nat -> seq<byte>, lo: nat, n: nat, s: State) {
    // one proof obligation rather than one per part
    var parts :=
      && !s.failed && Inv(w, sent, s) && Between(lo, n, s) && n - lo <= s.capacity + 1 && ErrorFree(w, s)
      && StreamFrames(w, sent, frame, lo, n, s.session);
    parts
  }

  lemma InTurnArrival(w: World, sent: nat -> ClientMessage, frame: nat -> seq<byte>, lo: nat, n: nat, s: State,
                      k: nat, now: real)
    requires w.decode([]).Err? && Streaming(w, sent, frame, lo, n, s) && k == s.expected < n
    ensures var r := HandleOutput(w, s, sent(k), frame(k), now);
            && !r.failed && Between(lo, n, r) && SameEncryption(s.session, r.session) && ErrorFree(w, r)
            && Seen(r, k) && (forall j :: Seen(s, j) ==> Seen(r, j))
  {
    forall j | j in s.incoming
      ensures 0 <= j && Opened(w, s.session, sent(j)).Ok?
    {
      assert Held(w, sent, s.expected, j, s.incoming[j]);
    }
    InTurnSucceeds(w, sent, s, k, frame(k), now);
    assert n < HandleOutput(w, s, sent(k), frame(k), now).expected ==> n in s.incoming;
  }

  lemma AheadArrival(w: World, sent: nat -> ClientMessage, frame: nat -> seq<byte>, lo: nat, n: nat, s: State,
                     k: nat, now: real)
    requires Streaming(w, sent, frame, lo, n, s) && k < n && k != s.expected
    ensures var r := Unexpected(w, s, sent(k), frame(k), now);
            && !r.failed && Between(lo, n, r) && r.session == s.session && ErrorFree(w, r)
            && Seen(r, k) && (forall j :: Seen(s, j) ==> Seen(r, j))
  {
    if k > s.expected && k !in s.incoming {
      RoomAhead(w, sent, lo, n, s, k);
    }
  }

  /** Without errors every arrival leaves its frame consumed or held and forgets none. */
  lemma ArrivalSucceeds(w: World, sent: nat -> ClientMessage, frame: nat -> seq<byte>, lo: nat, n: nat, s: State,
                        k: nat, now: real)
    requires w.decode([]).Err? && Streaming(w, sent, frame, lo, n, s) && k < n
    ensures var r := Step(w, s, Arrive(frame(k), now));
            Streaming(w, sent, frame, lo, n, r) && Seen(r, k) && (forall j :: Seen(s, j) ==> Seen(r, j))
  {
    var r := Step(w, s, Arrive(frame(k), now));
    assert r == HandleOutput(w, s, sent(k), frame(k), now);
    StepKeeps(w, sent, s, Arrive(frame(k), now));
    if k == s.expected {
      InTurnArrival(w, sent, frame, lo, n, s, k, now);
    } else {
      AheadArrival(w, sent, frame, lo, n, s, k, now);
    }
  }

  /** Events that leave the receiving side alone: sends, resend rounds, acknowledgements and other messages. */
  predicate Aside(w: World, e: Event) {
    match e
    case Send(_, _) => true
    case Tick(_) => true
    case Register(_, _) => false
    case Arrive(raw, _) =>
      match w.decode(raw)
      case Err(_) => false
      case Ok(m) =>
        && w.validate(m)
        && m.messageType != OUTPUT_STREAM
        && (m.messageType == ACKNOWLEDGE ==> w.parseAck(m.payload).Some?)
        && (m.messageType == CHANNEL_CLOSED ==> w.closed(m.payload))
  }

  lemma AsideLeavesReceiver(w: World, s: State, e: Event)
    requires Keyed(s.incoming) && Aside(w, e)
    ensures var r := Step(w, s, e);
            && SameReceiver(s, r) && r.session == s.session && r.acks == s.acks && r.failed == s.failed
            && s.turn <= r.turn
  {
  }

  predicate IsFrame(frame: nat -> seq<byte>, k: nat, e: Event) {
    e.Arrive? && e.raw == frame(k)
  }

  /** Arrivals of the frames below `n`, with events aside between them. */
  ghost predicate Arrivals(w: World, frame: nat -> seq<byte>, n: nat, es: seq<Event>) {
    forall i :: 0 <= i < |es| ==> Aside(w, es[i]) || exists k: nat :: k < n && IsFrame(frame, k, es[i])
  }

  lemma EventSucceeds(w: World, sent: nat -> ClientMessage, frame: nat -> seq<byte>, lo: nat, n: nat, s: State,
                      e: Event)
    requires w.decode([]).Err? && Streaming(w, sent, frame, lo, n, s) && Arrivals(w, frame, n, [e])
    ensures var r := Step(w, s, e);
            && Streaming(w, sent, frame, lo, n, r)
            && (forall k: nat :: k < n && IsFrame(frame, k, e) ==> Seen(r, k))
            && (forall j :: Seen(s, j) ==> Seen(r, j))
  {
    assert [e][0] == e;
    if Aside(w, e) {
      AsideLeavesReceiver(w, s, e);
      StepKeeps(w, sent, s, e);
    } else {
      var k: nat :| k < n && IsFrame(frame, k, e);
      ArrivalSucceeds(w, sent, frame, lo, n, s, k, e.now);
    }
    forall k: nat | k < n && IsFrame(frame, k, e)
      ensures Seen(Step(w, s, e), k)
    {
      ArrivalSucceeds(w, sent, frame, lo, n, s, k, e.now);
    }
  }

  lemma {:induction false} ArrivalsComplete(w: World, sent: nat -> ClientMessage, frame: nat -> seq<byte>, lo: nat,
                                            n: nat, s: State, es: seq<Event>)
    requires w.decode([]).Err? && Streaming(w, sent, frame, lo, n, s) && Arrivals(w, frame, n, es)
    ensures var r := Run(w, s, es);
            && Streaming(w, sent, frame, lo, n, r) && (forall j :: Seen(s, j) ==> Seen(r, j))
            && (forall i, k: nat :: 0 <= i < |es| && k < n && IsFrame(frame, k, es[i]) ==> Seen(r, k))
    decreases |es|
  {
    if es != [] {
      var s' := Step(w, s, es[0]);
      EventSucceeds(w, sent, frame, lo, n, s, es[0]);
      ArrivalsComplete(w, sent, frame, lo, n, s', es[1..]);
      var r := Run(w, s, es);
      forall i, k: nat | 0 <= i < |es| && k < n && IsFrame(frame, k, es[i])
        ensures Seen(r, k)
      {
        if i > 0 {
          assert es[i] == es[1..][i - 1];
        }
      }
    }
  }

  ghost predicate Arrives(frame: nat -> seq<byte>, k: nat, es: seq<Event>) {
    exists i :: 0 <= i < |es| && IsFrame(frame, k, es[i])
  }

  /** Each of the frames `lo .. n-1` arrives at least once. */
  ghost predicate AllArrive(frame: nat -> seq<byte>, lo: nat, n: nat, es: seq<Event>) {
    forall k: nat :: lo <= k < n ==> Arrives(frame, k, es)
  }

  /** Once every frame was seen, all are consumed and none is left in the buffer. */
  lemma AllSeen(w: World, sent: nat -> ClientMessage, lo: nat, n: nat, s: State)
    requires !s.failed && Inv(w, sent, s) && Between(lo, n, s) && forall k :: lo <= k < n ==> Seen(s, k)
    ensures s.expected == n && s.incoming == map[]
  {
    assert s.expected < n ==> Seen(s, s.expected);
    assert forall k :: k in s.incoming ==> Held(w, sent, s.expected, k, s.incoming[k]);
    assert s.incoming.Keys == {};
  }

  lemma ArrivalsAreStream(w: World, sent: nat -> ClientMessage, frame: nat -> seq<byte>, lo: nat, n: nat, s: Session,
                          es: seq<Event>)
    requires StreamFrames(w, sent, frame, lo, n, s) && Arrivals(w, frame, n, es)
    ensures forall i :: 0 <= i < |es| ==> StreamDataOnly(w, lo, es[i])
  {
    forall i | 0 <= i < |es|
      ensures StreamDataOnly(w, lo, es[i])
    {
      if !Aside(w, es[i]) {
        var k: nat :| k < n && IsFrame(frame, k, es[i]);
        assert w.decode(frame(k)) == Ok(sent(k));
      }
    }
  }

  /**
   From any state in which `lo` is expected: any arrival sequence with each of the frames `lo .. n-1` at least once,
   older frames repeated at will and sends, resends and acknowledgements in between, makes the handler calls of
   in-order delivery, decrypted payloads included, as long as the buffer can hold all but one of the frames.
   */
  lemma ReorderingInvisible(w: World, sent: nat -> ClientMessage, frame: nat -> seq<byte>, lo: nat, n: nat, s: State,
                            es: seq<Event>)
    requires ErrorFree(w, s) && w.decode([]).Err? && StreamFrames(w, sent, frame, lo, n, s.session)
    requires Inv(w, sent, s) && !s.failed && s.expected == lo && lo <= n <= lo + s.capacity + 1
    requires forall k :: k in s.incoming ==> k < n
    requires Arrivals(w, frame, n, es) && AllArrive(frame, lo, n, es)
    ensures var r := Run(w, s, es);
            && !r.failed && r.expected == n && r.incoming == map[]
            && r.session == DeliverAll(w, s.session, seq(n - lo, i requires 0 <= i => sent(lo + i)))
  {
    var r := Run(w, s, es);
    ArrivalsComplete(w, sent, frame, lo, n, s, es);
    forall k: int | lo <= k < n
      ensures Seen(r, k)
    {
      assert Arrives(frame, k, es);
    }
    AllSeen(w, sent, lo, n, r);
    ArrivalsAreStream(w, sent, frame, lo, n, s.session, es);
    RunDelivers(w, s, es);
    SinceAgent(sent, s, r);
  }

  lemma SinceAgent(sent: nat -> ClientMessage, s: State, r: State)
    requires Prefix(sent, s) && Prefix(sent, r) && s.consumed <= r.consumed
    ensures Since(s, r) == seq(r.expected - s.expected, i requires 0 <= i => sent(s.expected + i))
  {
  }

  // ---------- One frame more is too many ----------

  /** The frames `hi - 1`, `hi - 2`, ..., `lo`, in this order. */
  ghost predicate Descending(frame: nat -> seq<byte>, lo: nat, hi: nat, es: seq<Event>) {
    |es| == hi - lo && forall i :: 0 <= i < |es| ==> IsFrame(frame, hi - 1 - i, es[i])
  }

  /** The highest of the frames from `k` up to `hi` are buffered, as many as fit. */
  ghost predicate Filled(w: World, sent: nat -> ClientMessage, s: State, k: int, hi: int) {
    && !s.failed && Inv(w, sent, s) && ErrorFree(w, s)
    && |s.incoming| == (if hi - k <= s.capacity then hi - k else s.capacity)
    && forall j :: j in s.incoming ==> hi - s.capacity <= j < hi && k <= j
  }

  /** A frame ahead of its turn is buffered, or dropped if the buffer is full. */
  lemma OneMoreHeld(w: World, sent: nat -> ClientMessage, t: State, k: nat, hi: int, raw: seq<byte>, now: real,
                    r: State)
    requires w.decode([]).Err? && Filled(w, sent, t, k + 1, hi) && t.expected < k < hi
    requires w.decode(raw) == Ok(sent(k)) && w.validate(sent(k)) && sent(k).messageType == OUTPUT_STREAM
    requires sent(k).sequenceNumber == k && r == Step(w, t, Arrive(raw, now))
    ensures Filled(w, sent, r, k, hi) && r.expected == t.expected && r.session == t.session
  {
    assert r == Unexpected(w, t, sent(k), raw, now);
    StepKeeps(w, sent, t, Arrive(raw, now));
    if |t.incoming| != t.capacity {
      assert r.incoming.Keys == t.incoming.Keys + {k} && k !in t.incoming;
    }
  }

  /**
   The bound is exact: with any larger number of frames, arrival in descending order drops the one after the expected
   frame, and the expected number stops in front of it although every frame has arrived.
   */
  lemma OneTooMany(w: World, sent: nat -> ClientMessage, frame: nat -> seq<byte>, lo: nat, n: nat, s: State,
                   es: seq<Event>)
    requires ErrorFree(w, s) && w.decode([]).Err? && StreamFrames(w, sent, frame, lo, n, s.session)
    requires Inv(w, sent, s) && !s.failed && s.expected == lo && s.incoming == map[] && n > lo + s.capacity + 1
    requires Descending(frame, lo, n, es)
    ensures Arrivals(w, frame, n, es) && AllArrive(frame, lo, n, es)
    ensures !Run(w, s, es).failed && Run(w, s, es).expected == lo + 1 < n
  {
    forall i | 0 <= i < |es|
      ensures exists k: nat :: k < n && IsFrame(frame, k, es[i])
    {
      assert IsFrame(frame, n - 1 - i, es[i]);
    }
    forall k: nat | lo <= k < n
      ensures Arrives(frame, k, es)
    {
      assert IsFrame(frame, n - 1 - (n - 1 - k), es[n - 1 - k]);
    }
    Stalls(w, sent, frame, lo, n, n, s, es);
  }

  /** On the way to the stall: the frames from `k` on have arrived in descending order. */
  ghost predicate Stalling(w: World, sent: nat -> ClientMessage, frame: nat -> seq<byte>, lo: nat, n: nat, k: nat,
                           s: State)
  {
    // one proof obligation rather than one per part
    var parts :=
      && w.decode([]).Err? && StreamFrames(w, sent, frame, lo, n, s.session)
      && Filled(w, sent, s, k, n) && s.expected == lo < k <= n && n > lo + s.capacity + 1;
    parts
  }

  /** One frame further: it is buffered or dropped, and the rest of the run goes on from there. */
  lemma StallsFurther(w: World, sent: nat -> ClientMessage, frame: nat -> seq<byte>, lo: nat, n: nat, k: nat,
                      s: State, es: seq<Event>)
    returns (t: State)
    requires Stalling(w, sent, frame, lo, n, k, s) && lo + 1 < k && Descending(frame, lo, k, es)
    ensures Stalling(w, sent, frame, lo, n, k - 1, t) && Descending(frame, lo, k - 1, es[1..])
    ensures Run(w, s, es) == Run(w, t, es[1..])
  {
    t := Step(w, s, es[0]);
    DescendingRest(frame, lo, k, es);
    assert w.decode(frame(k - 1)) == Ok(sent(k - 1));
    OneMoreHeld(w, sent, s, k - 1, n, frame(k - 1), es[0].now, t);
  }

  lemma StallsLast(w: World, sent: nat -> ClientMessage, frame: nat -> seq<byte>, lo: nat, n: nat, k: nat,
                   s: State, es: seq<Event>)
    requires Stalling(w, sent, frame, lo, n, k, s) && Descending(frame, lo, k, es) && k == lo + 1
    ensures !Run(w, s, es).failed && Run(w, s, es).expected == lo + 1
  {
    DescendingRest(frame, lo, k, es);
    LastOne(w, sent, frame, lo, n, s, es[0].now);
    assert es[1..] == [];
    assert Run(w, s, es) == Step(w, s, es[0]);
  }

  lemma {:induction false} Stalls(w: World, sent: nat -> ClientMessage, frame: nat -> seq<byte>, lo: nat, n: nat,
                                  k: nat, s: State, es: seq<Event>)
    requires Stalling(w, sent, frame, lo, n, k, s) && Descending(frame, lo, k, es)
    ensures !Run(w, s, es).failed && Run(w, s, es).expected == lo + 1
    decreases k
  {
    if k == lo + 1 {
      StallsLast(w, sent, frame, lo, n, k, s, es);
    } else {
      var t := StallsFurther(w, sent, frame, lo, n, k, s, es);
      Stalls(w, sent, frame, lo, n, k - 1, t, es[1..]);
    }
  }

  lemma DescendingRest(frame: nat -> seq<byte>, lo: nat, hi: nat, es: seq<Event>)
    requires Descending(frame, lo, hi, es) && lo < hi
    ensures es[0] == Arrive(frame(hi - 1), es[0].now) && Descending(frame, lo, hi - 1, es[1..])
  {
    assert IsFrame(frame, hi - 1 - 0, es[0]);
    forall i | 0 <= i < |es| - 1
      ensures IsFrame(frame, hi - 2 - i, es[1..][i])
    {
      assert IsFrame(frame, hi - 1 - (i + 1), es[i + 1]);
    }
  }

  lemma LastOne(w: World, sent: nat -> ClientMessage, frame: nat -> seq<byte>, lo: nat, n: nat, t: State, now: real)
    requires StreamFrames(w, sent, frame, lo, n, t.session) && t.expected == lo
    requires n > lo + t.capacity + 1 && Filled(w, sent, t, lo + 1, n)
    ensures var r := Step(w, t, Arrive(frame(lo), now)); !r.failed && r.expected == lo + 1
  {
    assert w.decode(frame(lo)) == Ok(sent(lo));
    forall j | j in t.incoming
      ensures 0 <= j && Opened(w, t.session, sent(j)).Ok?
    {
    }
    InTurnSucceeds(w, sent, t, lo, frame(lo), now);
    var r := Step(w, t, Arrive(frame(lo), now));
    assert lo + 1 < r.expected ==> lo + 1 in t.incoming;
  }
}
