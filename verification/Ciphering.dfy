/** What is in the clear where: handlers see plain texts, the wire does not once encryption was negotiated. */
module Ciphering {
  import opened Wrappers
  import opened Bytes
  import opened Codec
  import opened CodecTheorems
  import opened Encryption
  import opened Protocol
  import opened Handlers
  import opened History
  import opened Ordering
  import opened Outgoing
  import opened Negotiation

  // ---------- Receiving ----------

  /**
   The agent sends `clear` to session `t` as `m`: output, standard error and exit codes sealed under the key this end
   decrypts with, once encryption is on; everything else as it is.
   */
  ghost predicate SealedAs(aead: Aead, t: Session, clear: ClientMessage, m: ClientMessage) {
    if t.encryptionEnabled && (m.payloadType == 1 || m.payloadType == 11 || m.payloadType == 12) then
      && t.encrypter.Some?
      && m == clear.(payload := m.payload)
      && SealedWith(aead, t.encrypter.value.decryptionKey, clear.payload, m.payload)
    else m == clear
  }

  lemma OpensToClear(w: World, t: Session, clear: ClientMessage, m: ClientMessage)
    requires w.aead.Lawful() && SealedAs(w.aead, t, clear, m)
    ensures Opened(w, t, m) == Ok(clear)
  {
    if t.encryptionEnabled && (m.payloadType == 1 || m.payloadType == 11 || m.payloadType == 12) {
      var keys := t.encrypter.value;
      PeerReads(w.aead, keys.Peer(), clear.payload, m.payload);
      assert keys.Peer().Peer() == keys;
    }
  }

  /** The calls of `r` beyond those of `s`, at least one if a handler is there, all carry `clear`. */
  ghost predicate HandedOver(s: Session, r: Session, clear: ClientMessage) {
    && Extends(s.calls, r.calls, clear)
    && (Attended(s) ==> s.calls + [Call(s.handlers[0], clear)] <= r.calls)
  }

  /** What handlers are called with is the plain message, both in its turn and out of the reorder buffer. */
  lemma HandlersSeeClear(w: World, s: State, clear: ClientMessage, m: ClientMessage, b: StreamingMessage)
    requires w.aead.Lawful() && SealedAs(w.aead, s.session, clear, m) && w.decode(b.content) == Ok(m)
    ensures HandedOver(s.session, HandOver(w, s.session, m).0, clear)
    ensures m.payloadType != 5 && m.payloadType != 7 && m.payloadType != 8 ==>
              HandedOver(s.session, InOrder(w, s, m).session, clear)
    ensures HandedOver(s.session, Buffered(w, s, b).session, clear)
  {
    OpensToClear(w, s.session, clear, m);
    HandOverExtends(w, s.session, m);
  }

  /** A message that should be sealed and does not open reaches no handler and ends the listener. */
  lemma UnreadableEndsListener(w: World, s: State, m: ClientMessage, keys: Keys)
    requires s.session.encryptionEnabled && s.session.encrypter == Some(keys)
    requires m.payloadType == 1 || m.payloadType == 11 || m.payloadType == 12
    requires Decrypted(w.aead, keys, m.payload).Err?
    ensures InOrder(w, s, m) == Fail(s)
  {
  }

  /** The clear messages of a history, `clear(i)` belonging to the happening at index `i`. */
  function ClearMessages(hs: seq<Happening>, clear: nat -> ClientMessage): seq<ClientMessage> {
    if hs == [] then []
    else
      var n := |hs| - 1;
      ClearMessages(hs[..n], clear) + if hs[n].Message? then [clear(n)] else []
  }

  /** The agent sealed every message of the history for the session as it was when the message took effect. */
  ghost predicate AllSealed(w: World, s: Session, hs: seq<Happening>, clear: nat -> ClientMessage) {
    forall i :: 0 <= i < |hs| && hs[i].Message? ==> SealedAs(w.aead, Outcome(w, s, hs[..i]), clear(i), hs[i].m)
  }

  lemma {:induction false} HistoryIsClear(w: World, s: Session, hs: seq<Happening>, clear: nat -> ClientMessage)
    requires w.aead.Lawful() && AllSealed(w, s, hs, clear)
    ensures OpenedMessages(w, s, hs) == ClearMessages(hs, clear)
  {
    if hs != [] {
      var n := |hs| - 1;
      var init := hs[..n];
      forall i | 0 <= i < |init| && init[i].Message?
        ensures SealedAs(w.aead, Outcome(w, s, init[..i]), clear(i), init[i].m)
      {
        assert init[..i] == hs[..i];
      }
      HistoryIsClear(w, s, init, clear);
      if hs[n].Message? {
        OpensToClear(w, Outcome(w, s, init), clear(n), hs[n].m);
      }
    }
  }

  /**
   A plugin that is ready from `s` on receives exactly the agent's plain messages, each once and in order, over every
   run that does not fail, also when encryption is negotiated on the way.
   */
  lemma ReadyPluginSeesClear(w: World, s: State, h: Handler, es: seq<Event>, clear: nat -> ClientMessage)
    requires Keyed(s.incoming) && !s.failed && !Run(w, s, es).failed
    requires PluginsReady(w, |s.session.calls|) && Served(s.session, h)
    requires forall i :: 0 <= i < |es| ==> !es[i].Register?
    requires w.aead.Lawful() && AllSealed(w, s.session, RunHistory(w, s, es), clear)
    ensures MessagesTo(h, Run(w, s, es).session.calls) ==
            MessagesTo(h, s.session.calls) + ClearMessages(RunHistory(w, s, es), clear)
  {
    ReadyPluginSeesAll(w, s, h, es);
    HistoryIsClear(w, s.session, RunHistory(w, s, es), clear);
  }

  // ---------- Sending ----------

  /** Input is encrypted: encryption is on and it is of the output type. */
  predicate Secret(s: State, payloadType: uint32) {
    s.session.encryptionEnabled && payloadType == 1
  }

  /** The message of a send: the input, a lone new line as a carriage return, after the nonce and sealed if secret. */
  function Outbound(w: World, s: State, payloadType: uint32, data: seq<byte>): ClientMessage
    requires Secret(s, payloadType) ==> s.session.encrypter.Some?
  {
    var input := if data == [10] then [13] else data;
    var nonce := w.nonce(s.turn);
    var payload := if Secret(s, payloadType)
                   then nonce + w.aead.seal(s.session.encrypter.value.encryptionKey, nonce, input)
                   else input;
    ClientMessage(0, INPUT_STREAM, 1, w.date(s.turn), Wrap64(s.sender.next), 0, w.uuid(s.turn), [], payloadType, 0,
                  payload)
  }

  /** The keys are usable, the message serializes and the link works. */
  predicate Sendable(w: World, s: State, payloadType: uint32, data: seq<byte>)
    requires Secret(s, payloadType) ==> s.session.encrypter.Some?
  {
    && (Secret(s, payloadType) ==> ValidKey(s.session.encrypter.value.encryptionKey))
    && Encodable(Outbound(w, s, payloadType, data))
    && w.sendOk(s.turn)
  }

  lemma WireContent(w: World, sha: Sha, s: State, payloadType: uint32, data: seq<byte>)
    requires RealCodec(w, sha) && (Secret(s, payloadType) ==> s.session.encrypter.Some?)
    ensures OnTheWire(w, s, payloadType, Sealing(w, s, payloadType, data).0) ==
            if Sendable(w, s, payloadType, data) then Some(Frame(sha, Outbound(w, s, payloadType, data))) else None
    ensures Sealing(w, s, payloadType, data).1 == if Secret(s, payloadType) then s.session.encrypter else None
  {
  }

  /** What a send that succeeds adds. */
  ghost predicate SentAs(s: State, r: State, frame: seq<byte>, sub: Submission) {
    && r.frames == s.frames + [frame]
    && r.sender.next == s.sender.next + 1
    && r.sender.submitted == s.sender.submitted + [sub]
    && r.sender.outgoing != []
    && r.sender.outgoing[|r.sender.outgoing| - 1] == StreamingMessage(frame, s.sender.next, sub.at, 0)
  }

  lemma SendContentAdds(w: World, s: State, frame: seq<byte>, sub: Submission)
    requires sub.at == w.clock(s.turn)
    ensures SentAs(s, SendContent(w, s, Some(frame), sub), frame, sub)
  {
  }

  /**
   A send succeeds exactly when the message is sendable; then its frame, which decodes to it, is on the wire under the
   next number, and the submission and the buffered entry record it with its keys and its time.
   */
  lemma SendIsSealed(w: World, sha: Sha, s: State, payloadType: uint32, data: seq<byte>)
    requires RealCodec(w, sha) && !s.failed && (Secret(s, payloadType) ==> s.session.encrypter.Some?)
    ensures var r, m := SendInput(w, s, payloadType, data), Outbound(w, s, payloadType, data);
            var keys := if Secret(s, payloadType) then s.session.encrypter else None;
            && (!r.failed <==> Sendable(w, s, payloadType, data))
            && (!r.failed ==>
                  && SentAs(s, r, Frame(sha, m), Submission(payloadType, data, keys, w.clock(s.turn)))
                  && w.decode(Frame(sha, m)) == Ok(Sealed(sha, m)))
            && (r.failed ==> r == Fail(s.(turn := s.turn + 1)))
  {
    WireContent(w, sha, s, payloadType, data);
    if Sendable(w, s, payloadType, data) {
      var m := Outbound(w, s, payloadType, data);
      var keys := if Secret(s, payloadType) then s.session.encrypter else None;
      SendContentAdds(w, s, Frame(sha, m), Submission(payloadType, data, keys, w.clock(s.turn)));
      InputIsStorable();
      RoundTrip(sha, m);
    }
  }

  /** The submissions of `r` beyond those of `s`: each of the output type has recorded the keys that sealed it. */
  ghost predicate SecretSince(s: State, r: State) {
    && s.sender.submitted <= r.sender.submitted
    && forall k :: |s.sender.submitted| <= k < |r.sender.submitted| && r.sender.submitted[k].payloadType == 1 ==>
                     r.sender.submitted[k].keys.Some?
  }

  lemma SendInputSecret(w: World, s: State, payloadType: uint32, data: seq<byte>)
    requires payloadType == 1 ==> s.session.encryptionEnabled
    ensures SecretSince(s, SendInput(w, s, payloadType, data))
  {
  }

  lemma HandshakeSecret(w: World, s: State, m: ClientMessage)
    ensures SecretSince(s, Handshake(w, s, m))
  {
    if w.parseHandshake(m.payload).Some? {
      var req := w.parseHandshake(m.payload).value;
      var s' := s.(session := s.session.(agentVersion := req.agentVersion));
      var (t, resp) := ProcessActions(w, s', req.actions, HandshakeResponse([], []));
      SendInputSecret(w, t, HANDSHAKE_RESPONSE, w.responseJson(resp));
    }
  }

  lemma ChallengeSecret(w: World, s: State, m: ClientMessage)
    ensures SecretSince(s, Challenge(w, s, m))
  {
    var answer := ChallengeAnswer(w, s, m);
    if answer.Some? {
      SendInputSecret(w, s.(turn := s.turn + 1), ENC_CHALLENGE_RESPONSE, w.challengeJson(answer.value));
    }
  }

  lemma InOrderSecret(w: World, s: State, m: ClientMessage)
    ensures SecretSince(s, InOrder(w, s, m))
  {
    var a := SendAck(w, s, m);
    HandshakeSecret(w, a, m);
    ChallengeSecret(w, a, m);
  }

  lemma StepSecret(w: World, s: State, e: Event)
    requires Keyed(s.incoming) && s.session.encryptionEnabled
    ensures SecretSince(s, Step(w, s, e))
  {
    if e.Send? {
      SendInputSecret(w, s, e.payloadType, e.data);
    } else if !s.failed && OutputOf(w, e).Some? && OutputOf(w, e).value.sequenceNumber == s.expected {
      InOrderSecret(w, s, OutputOf(w, e).value);
    }
  }

  /**
   From any state with encryption on, whatever happens: no output is ever submitted without the keys it is sealed under.
   That the frames of such a submission carry the sealed text is part of what holds in every reachable state.
   */
  lemma {:induction false} NeverInTheClear(w: World, s: State, es: seq<Event>)
    requires Keyed(s.incoming) && HasKeys(s.session) && s.session.encryptionEnabled
    ensures SecretSince(s, Run(w, s, es))
    decreases |es|
  {
    if es != [] {
      StepSound(w, s, es[0]);
      StepSecret(w, s, es[0]);
      NeverInTheClear(w, Step(w, s, es[0]), es[1..]);
    }
  }
}
