/** What the channel has on the wire and in its outgoing buffer, end to end with the codec and the cipher. */
module Outgoing {
  import opened Wrappers
  import opened Bytes
  import opened Fields
  import opened Codec
  import opened CodecTheorems
  import opened Encryption
  import opened Protocol
  import opened Sending

  /** The channel runs on the real codec and on a cipher that keeps its law. */
  ghost predicate RealCodec(w: World, sha: Sha) {
    && (forall raw :: w.decode(raw) == Decode(raw))
    && (forall m :: w.encode(m) == Encode(sha, m))
    && (forall m :: w.validate(m) <==> ValidMessage(sha, m).Ok?)
    && w.aead.Lawful()
  }

  /** The payload is the input, a lone new line turned into a carriage return, sealed if there were keys. */
  ghost predicate CarriesInput(aead: Aead, sub: Submission, payload: seq<byte>) {
    var input := if sub.data == [10] then [13] else sub.data;
    match sub.keys
    case None => payload == input
    case Some(keys) => sub.payloadType == 1 && SealedWith(aead, keys.encryptionKey, input, payload)
  }

  /** The payload is a nonce followed by the text sealed under a usable key. */
  ghost predicate SealedWith(aead: Aead, key: seq<byte>, text: seq<byte>, payload: seq<byte>) {
    ValidKey(key) && exists nonce: Nonce :: payload == nonce + aead.seal(key, nonce, text)
  }

  /** The peer, which decrypts with this end's encryption key, reads what was sealed. */
  lemma PeerReads(aead: Aead, keys: Keys, text: seq<byte>, payload: seq<byte>)
    requires aead.Lawful() && SealedWith(aead, keys.encryptionKey, text, payload)
    ensures Decrypted(aead, keys.Peer(), payload) == Ok(text)
  {
    var nonce: Nonce :| payload == nonce + aead.seal(keys.encryptionKey, nonce, text);
    assert payload[..NONCE_SIZE] == nonce && payload[NONCE_SIZE..] == aead.seal(keys.encryptionKey, nonce, text);
  }

  /** The frame decodes to an input message with number `k` that carries the caller's input. */
  ghost predicate FrameOf(w: World, sub: Submission, k: int, frame: seq<byte>) {
    match w.decode(frame)
    case Err(_) => false
    case Ok(m) =>
      && m.messageType == INPUT_STREAM
      && m.sequenceNumber == Wrap64(k)
      && m.payloadType == sub.payloadType
      && CarriesInput(w.aead, sub, m.payload)
  }

  ghost predicate Traceable(w: World, s: Sender, frame: seq<byte>) {
    exists k :: 0 <= k < |s.submitted| && FrameOf(w, s.submitted[k], k, frame)
  }

  /** An entry was never counted as resent, and carries what was submitted under its own number and when. */
  ghost predicate EntryOk(w: World, s: Sender, e: StreamingMessage) {
    && e.resendAttempt == 0
    && 0 <= e.sequenceNumber < |s.submitted|
    && e.lastSentTime == s.submitted[e.sequenceNumber].at
    && FrameOf(w, s.submitted[e.sequenceNumber], e.sequenceNumber, e.content)
  }

  ghost predicate SenderInv(w: World, s: State) {
    && Conserved(s.sender)
    && s.sender.inFlight.None?
    && !s.gaveUp
    && (forall e :: e in s.sender.outgoing ==> EntryOk(w, s.sender, e))
    && (forall f :: f in s.frames ==> Traceable(w, s.sender, f))
  }

  lemma InputIsStorable()
    ensures Storable(INPUT_STREAM, 32)
  {
  }

  lemma SealingCarries(w: World, s: State, payloadType: uint32, data: seq<byte>)
    ensures var (payload, keys) := Sealing(w, s, payloadType, data);
            payload.Ok? ==> CarriesInput(w.aead, Submission(payloadType, data, keys, w.clock(s.turn)), payload.value)
  {
  }

  /** What this send would put on the wire is a frame of what the caller submitted. */
  ghost predicate FaithfulSend(w: World, s: State, payloadType: uint32, data: seq<byte>) {
    var (payload, keys) := Sealing(w, s, payloadType, data);
    payload.Ok? ==>
      var content := w.encode(InputMessage(w, s, payloadType, payload.value));
      content.Ok? ==> FrameOf(w, Submission(payloadType, data, keys, w.clock(s.turn)), s.sender.next, content.value)
  }

  ghost predicate Faithful(w: World) {
    forall s, payloadType, data :: FaithfulSend(w, s, payloadType, data)
  }

  /** With the real codec and a lawful cipher, every send is faithful. */
  lemma RealIsFaithful(w: World, sha: Sha)
    requires RealCodec(w, sha)
    ensures Faithful(w)
  {
    forall s, payloadType, data
      ensures FaithfulSend(w, s, payloadType, data)
    {
      EncodedIsFrame(w, sha, s, payloadType, data);
    }
  }

  lemma EncodedIsFrame(w: World, sha: Sha, s: State, payloadType: uint32, data: seq<byte>)
    requires RealCodec(w, sha)
    ensures FaithfulSend(w, s, payloadType, data)
  {
    var (payload, keys) := Sealing(w, s, payloadType, data);
    SealingCarries(w, s, payloadType, data);
    if payload.Ok? {
      var m := InputMessage(w, s, payloadType, payload.value);
      if w.encode(m).Ok? {
        InputIsStorable();
        RoundTrip(sha, m);
        assert w.decode(w.encode(m).value) == Ok(Sealed(sha, m));
      }
    }
  }

  lemma SentKeeps(w: World, s: State, content: seq<byte>, sub: Submission)
    requires SenderInv(w, s) && FrameOf(w, sub, s.sender.next, content)
    ensures var r := s.(sender := Sent(s.sender, content, sub.at, sub), frames := s.frames + [content]);
            SenderInv(w, r)
  {
    var a := Transmitted(s.sender, content, sub.at, sub);
    var b := Counted(a);
    var c := Recorded(b);
    SendStepConserves(s.sender, Transmit(content, sub.at, sub));
    SendStepConserves(a, Count);
    SendStepConserves(b, Record);
    var r := s.(sender := c, frames := s.frames + [content]);
    forall e | e in c.outgoing
      ensures EntryOk(w, c, e)
    {
      if e in s.sender.outgoing {
        assert EntryOk(w, s.sender, e);
      }
    }
    forall f | f in r.frames
      ensures Traceable(w, c, f)
    {
      if f in s.frames {
        var k :| 0 <= k < |s.sender.submitted| && FrameOf(w, s.sender.submitted[k], k, f);
        assert FrameOf(w, c.submitted[k], k, f);
      } else {
        assert FrameOf(w, c.submitted[s.sender.next], s.sender.next, f);
      }
    }
  }

  lemma SendInputKeeps(w: World, s: State, payloadType: uint32, data: seq<byte>)
    requires Faithful(w) && SenderInv(w, s)
    ensures SenderInv(w, SendInput(w, s, payloadType, data))
  {
    var (payload, keys) := Sealing(w, s, payloadType, data);
    assert FaithfulSend(w, s, payloadType, data);
    if payload.Ok? {
      var content := w.encode(InputMessage(w, s, payloadType, payload.value));
      if content.Ok? {
        SentKeeps(w, s, content.value, Submission(payloadType, data, keys, w.clock(s.turn)));
      }
    }
  }

  lemma AckKeeps(w: World, s: State, number: int, now: real)
    requires SenderInv(w, s)
    ensures SenderInv(w, s.(sender := Acknowledged(s.sender, number, now)))
  {
    var t := Acknowledged(s.sender, number, now);
    AckConserves(s.sender, number, now);
    var i := AckRemoves(s.sender, number, now);
    forall e | e in t.outgoing
      ensures EntryOk(w, t, e)
    {
      assert EntryOk(w, s.sender, e);
    }
    forall f | f in s.frames
      ensures Traceable(w, t, f)
    {
      assert Traceable(w, s.sender, f);
    }
  }

  /** The oldest unacknowledged message has waited longer than the timeout. */
  predicate Late(s: Sender, now: real) {
    s.outgoing != [] && now - s.outgoing[0].lastSentTime > s.timer.timeout
  }

  /**
   A round of the scheduler puts the exact bytes of the front on the wire again exactly when the front is late and
   the link works; it changes nothing else that is sent or stored, and never gives up.
   */
  lemma TickKeeps(w: World, s: State, now: real)
    requires SenderInv(w, s)
    ensures var r := ResendTick(w, s, now);
            && SenderInv(w, r) && r.sender == s.sender && !r.gaveUp
            && r.turn == (if Late(s.sender, now) then s.turn + 1 else s.turn)
            && r.frames == (if Late(s.sender, now) && w.sendOk(s.turn)
                            then s.frames + [s.sender.outgoing[0].content] else s.frames)
  {
    if s.sender.outgoing != [] {
      var front := s.sender.outgoing[0];
      assert front in s.sender.outgoing && EntryOk(w, s.sender, front);
      var r := ResendTick(w, s, now);
      forall f | f in r.frames
        ensures Traceable(w, r.sender, f)
      {
        if f !in s.frames {
          assert f == front.content;
        }
      }
    }
  }

  /**
   The limit is never reached: from any state of a run, any number of late rounds on a working link sends the front
   that many times more, far beyond 3000, and leaves the buffer as it was.
   */
  lemma {:induction false} ResendsForever(w: World, s: State, nows: seq<real>, es: seq<Event>)
    requires SenderInv(w, s) && Keyed(s.incoming) && s.sender.outgoing != []
    requires forall t :: s.turn <= t ==> w.sendOk(t)
    requires forall i :: 0 <= i < |nows| ==> Late(s.sender, nows[i])
    requires |es| == |nows| && forall i :: 0 <= i < |nows| ==> es[i] == Tick(nows[i])
    ensures var r := Run(w, s, es);
            && r.sender == s.sender && !r.gaveUp
            && r.frames == s.frames + seq(|nows|, _ => s.sender.outgoing[0].content)
    decreases |nows|
  {
    if nows != [] {
      assert Late(s.sender, nows[0]) && es[0] == Tick(nows[0]);
      var s' := ResendTick(w, s, nows[0]);
      TickKeeps(w, s, nows[0]);
      ResendsForever(w, s', nows[1..], es[1..]);
      var front := s.sender.outgoing[0].content;
      assert seq(|nows|, _ => front) == [front] + seq(|nows| - 1, _ => front);
    }
  }

  lemma SameSenderKeeps(w: World, s: State, r: State)
    requires SenderInv(w, s) && SameSender(s, r)
    ensures SenderInv(w, r)
  {
  }

  lemma InOrderKeepsSender(w: World, s: State, m: ClientMessage)
    requires Faithful(w) && SenderInv(w, s)
    ensures SenderInv(w, InOrder(w, s, m))
  {
    if Control(m.payloadType) {
      var s' := SendAck(w, s, m);
      SameSenderKeeps(w, s, s');
      if !s'.failed && m.payloadType == HANDSHAKE_REQUEST {
        HandshakeKeepsSender(w, s', m);
      } else if !s'.failed && m.payloadType == ENC_CHALLENGE_REQUEST {
        AnswerKeepsSender(w, s', ChallengeAnswer(w, s', m));
      }
    } else {
      SameSenderKeeps(w, s, Default(w, s, m));
    }
  }

  lemma HandshakeKeepsSender(w: World, s: State, m: ClientMessage)
    requires Faithful(w) && SenderInv(w, s)
    ensures SenderInv(w, Handshake(w, s, m))
  {
    if w.parseHandshake(m.payload).Some? {
      var req := w.parseHandshake(m.payload).value;
      var s' := s.(session := s.session.(agentVersion := req.agentVersion));
      var (s'', resp) := ProcessActions(w, s', req.actions, HandshakeResponse([], []));
      SameSenderKeeps(w, s, s'');
      SendInputKeeps(w, s'', HANDSHAKE_RESPONSE, w.responseJson(resp));
    }
  }

  lemma AnswerKeepsSender(w: World, s: State, answer: Option<seq<byte>>)
    requires Faithful(w) && SenderInv(w, s)
    ensures SenderInv(w, Answer(w, s, answer))
  {
    if answer.None? {
      SameSenderKeeps(w, s, Fail(s));
    } else {
      var s' := s.(turn := s.turn + 1);
      SameSenderKeeps(w, s, s');
      SendInputKeeps(w, s', ENC_CHALLENGE_RESPONSE, w.challengeJson(answer.value));
    }
  }

  lemma ArriveKeepsSender(w: World, s: State, raw: seq<byte>, now: real)
    requires Faithful(w) && SenderInv(w, s) && Keyed(s.incoming)
    ensures SenderInv(w, Handle(w, s, raw, now))
  {
    var r := Handle(w, s, raw, now);
    match w.decode(raw)
    case Err(_) =>
    case Ok(m) =>
      if w.validate(m) && m.messageType == OUTPUT_STREAM {
        OutputKeepsSender(w, s, m, raw, now);
      } else if w.validate(m) && m.messageType == ACKNOWLEDGE && w.parseAck(m.payload).Some? {
        AckKeeps(w, s, w.parseAck(m.payload).value, now);
      } else {
        SameSenderKeeps(w, s, r);
      }
  }

  lemma OutputKeepsSender(w: World, s: State, m: ClientMessage, raw: seq<byte>, now: real)
    requires Faithful(w) && SenderInv(w, s) && Keyed(s.incoming)
    ensures SenderInv(w, HandleOutput(w, s, m, raw, now))
  {
    var r := HandleOutput(w, s, m, raw, now);
    if m.sequenceNumber != s.expected {
      SameSenderKeeps(w, s, r);
    } else {
      InOrderKeepsSender(w, s, m);
      SameSenderKeeps(w, InOrder(w, s, m), r);
    }
  }

  lemma StepKeepsSender(w: World, s: State, e: Event)
    requires Faithful(w) && SenderInv(w, s) && Keyed(s.incoming)
    ensures SenderInv(w, Step(w, s, e))
  {
    match e
    case Arrive(raw, now) => ArriveKeepsSender(w, s, raw, now);
    case Send(payloadType, data) =>
      SendInputKeeps(w, s, payloadType, data);
      SameSenderKeeps(w, SendInput(w, s, payloadType, data), Step(w, s, e));
    case Tick(now) => TickKeeps(w, s, now);
    case Register(h, specific) => SameSenderKeeps(w, s, Step(w, s, e));
  }

  lemma {:induction false} RunKeepsSender(w: World, s: State, es: seq<Event>)
    requires Faithful(w) && SenderInv(w, s) && Keyed(s.incoming)
    ensures SenderInv(w, Run(w, s, es))
    decreases |es|
  {
    if es != [] {
      StepKeepsSender(w, s, es[0]);
      RunKeepsSender(w, Step(w, s, es[0]), es[1..]);
    }
  }

  lemma InitialSender(w: World, inCap: nat, outCap: nat)
    requires outCap > 0
    ensures SenderInv(w, Initial(inCap, outCap))
  {
    assert forall k :: Accounted(Initial(inCap, outCap).sender, k);
  }

  /**
   In every reachable state: the sender's numbers are conserved, each buffered entry and each frame ever put on the
   wire decodes to an input message whose payload the peer reads as what the caller submitted under that number, no
   entry was ever counted as resent, and the resend limit was never reached.
   */
  lemma EveryFrameIsTraceable(w: World, sha: Sha, inCap: nat, outCap: nat, es: seq<Event>)
    requires RealCodec(w, sha) && outCap > 0
    ensures SenderInv(w, Run(w, Initial(inCap, outCap), es))
  {
    InitialSender(w, inCap, outCap);
    RealIsFaithful(w, sha);
    RunKeepsSender(w, Initial(inCap, outCap), es);
  }
}
