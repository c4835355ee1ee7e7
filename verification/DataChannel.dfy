/** The DataChannel object. Each method is proved to do to the fields what the state machine does to its state. */
module DataChannel {
  import opened Wrappers
  import opened Bytes
  import opened Codec
  import opened Encryption
  import opened Buffers
  import opened Estimator
  import opened Protocol

  /** Shifting an array shifts each prefix of it that contains the shifted part. */
  lemma ShiftedPrefix(backing: seq<Handler>, n: nat, k: nat, h: Handler)
    requires k <= n <= |backing|
    ensures Shifted(backing, k, h)[..n] == Shifted(backing[..n], k, h)
  {
    assert backing[..n][..k] == backing[..k];
  }

  /** Moving the tail from index `i` on down by one, element by element. */
  lemma TailDown(before: seq<Handler>, i: nat, n: nat, after: seq<Handler>)
    requires i < n <= |before| == |after|
    requires forall k :: 0 <= k < |after| ==> after[k] == before[if i <= k < n - 1 then k + 1 else k]
    ensures after == before[..i] + before[i + 1..n] + before[n - 1..]
  {
  }

  /** One iteration of the dispatch loop. */
  lemma DispatchOne(w: World, s: Session, backing: seq<Handler>, i: nat, v: Verdict, m: ClientMessage,
                    s': Session, backing': seq<Handler>, v': Verdict)
    requires i < |backing| == |backing'| && |s.handlers| <= |backing| && |s'.handlers| <= |backing'|
    requires if backing[i] == First then
               && v' == Verdict(true, false)
               && s' == InvokeFirst(s, m)
               && backing' == Shifted(backing, |s.handlers|, First)
             else
               && v' == w.plugin(|s.calls|, backing[i], m)
               && s' == s.(calls := s.calls + [Call(backing[i], m)])
               && backing' == backing
    ensures DispatchFrom(w, s, backing, i, v, m) ==
            if v'.failed || !v'.ready then (s', v') else DispatchFrom(w, s', backing', i + 1, v', m)
  {
  }

  /** A Go slice of handlers: the first `count` elements of the array behind it. */
  class HandlerSlice {
    var elements: array<Handler>
    var count: nat
    ghost var Contents: seq<Handler>

    ghost predicate Valid()
      reads this, elements
    {
      count <= elements.Length && Contents == elements[..count]
    }

    constructor (handler: Handler)
      ensures Valid() && fresh(elements) && Contents == [handler]
    {
      elements, count, Contents := new Handler[1](_ => handler), 1, [handler];
    }

    /** `append`, here always to a new array. */
    method Append(handler: Handler)
      requires Valid()
      modifies this
      ensures Valid() && fresh(elements) && Contents == old(Contents) + [handler]
    {
      var grown := new Handler[count + 1](_ => handler);
      forall i | 0 <= i < count {
        grown[i] := elements[i];
      }
      elements, count, Contents := grown, count + 1, Contents + [handler];
    }

    /** `append(s[:i], s[i+1:]...)` moves the tail down in the same array. */
    method RemoveAt(i: nat)
      requires Valid() && i < count
      modifies this`count, this`Contents, elements
      ensures Valid() && count == old(count) - 1
      ensures elements[..] == old(elements[..i] + elements[i + 1..count] + elements[count - 1..])
    {
      ghost var before := elements[..];
      for j := i to count - 1
        invariant count == old(count)
        invariant forall k :: 0 <= k < elements.Length ==> elements[k] == before[if i <= k < j then k + 1 else k]
      {
        elements[j] := elements[j + 1];
      }
      TailDown(before, i, count, elements[..]);
      assert before[..i] == old(elements[..i]) && before[i + 1..count] == old(elements[i + 1..count]);
      count := count - 1;
      Contents := elements[..count];
    }

    /** The search loop of deregisterOutputStreamHandler. */
    method Search(handler: Handler) returns (i: nat)
      requires Valid()
      ensures i == IndexOf(Contents, handler)
    {
      i := 0;
      while i < count && elements[i] != handler
        invariant i <= count && forall j :: 0 <= j < i ==> Contents[j] != handler
      {
        i := i + 1;
      }
    }

    /** deregisterOutputStreamHandler */
    method Deregister(handler: Handler)
      requires Valid()
      modifies this`count, this`Contents, elements
      ensures Valid()
      ensures elements[..] == Shifted(old(elements[..]), old(count), handler)
      ensures Contents == Removed(old(Contents), handler)
    {
      var i := Search(handler);
      if i < count {
        RemoveAt(i);
      }
    }
  }

  class DataChannel {
    const world: World
    const incoming: MapMessageBuffer<int, StreamingMessage>
    const outgoing: ListMessageBuffer<StreamingMessage>

    // sequence numbers
    var expectedSequenceNumber: int
    var streamDataSequenceNumber: int

    // retransmission timer
    var roundTripTime: real
    var roundTripTimeVariation: real
    var retransmissionTimeout: real

    // session
    var encryption: Option<Keys>
    var encryptionEnabled: bool
    var sessionType: SessionType
    var agentVersion: string

    const outputStreamHandlers: HandlerSlice
    var isSessionSpecificHandlerSet: bool

    // the resend scheduler has returned; the listener is still running
    var gaveUp: bool
    var listening: bool

    // how often the world was consulted
    var calls: seq<Call>
    var turn: nat

    // histories
    ghost var consumed: seq<ClientMessage>
    ghost var acks: seq<Ack>
    ghost var frames: seq<seq<byte>>
    ghost var submitted: seq<Submission>
    ghost var acked: set<int>
    ghost var evicted: set<int>

    ghost predicate Valid()
      reads this, incoming, outgoing, outputStreamHandlers, outputStreamHandlers.elements
    {
      // one proof obligation rather than one per part
      var parts :=
        && incoming.Valid() && Keyed(incoming.messages)
        && outgoing.Valid() && outgoing.capacity > 0
        && outputStreamHandlers.Valid();
      parts
    }

    ghost function SessionView(): Session
      reads this, outputStreamHandlers
    {
      Session(outputStreamHandlers.Contents, sessionType, isSessionSpecificHandlerSet, encryption, encryptionEnabled,
              agentVersion, calls)
    }

    ghost function SenderView(): Sender
      reads this, outgoing
    {
      Sender(streamDataSequenceNumber, outgoing.messages, outgoing.capacity,
             Timer(roundTripTime, roundTripTimeVariation, retransmissionTimeout), None, submitted, acked, evicted)
    }

    /** The abstract state, with the outcome of the operation in progress. */
    ghost function View(failed: bool): State
      reads this, incoming, outgoing, outputStreamHandlers
    {
      State(SessionView(), SenderView(), expectedSequenceNumber, incoming.messages, incoming.capacity, consumed, acks,
            frames, turn, gaveUp, failed)
    }

    /** NewDataChannel and the registration in Open. */
    constructor (world: World, incomingCapacity: nat, outgoingCapacity: nat)
      requires outgoingCapacity > 0
      ensures Valid() && listening && this.world == world
      ensures fresh(incoming) && fresh(outgoing) && fresh(outputStreamHandlers)
      ensures View(false) == Initial(incomingCapacity, outgoingCapacity)
    {
      this.world := world;
      incoming := new MapMessageBuffer<int, StreamingMessage>(incomingCapacity);
      outgoing := new ListMessageBuffer<StreamingMessage>(outgoingCapacity);
      expectedSequenceNumber, streamDataSequenceNumber := 0, 0;
      roundTripTime, roundTripTimeVariation, retransmissionTimeout := 100.0, 0.0, 200.0;
      encryption, encryptionEnabled, sessionType, agentVersion := None, false, Unset, "";
      outputStreamHandlers := new HandlerSlice(First);
      isSessionSpecificHandlerSet := false;
      gaveUp, listening, calls, turn := false, true, [], 0;
      consumed, acks, frames, submitted, acked, evicted := [], [], [], [], {}, {};
    }

    // ---------- Handlers ----------

    method RegisterOutputStreamHandler(handler: Handler, isSessionSpecificHandler: bool)
      requires Valid()
      modifies this`isSessionSpecificHandlerSet, outputStreamHandlers
      ensures Valid() && fresh(outputStreamHandlers.elements)
      ensures SessionView() == Registered(old(SessionView()), handler, isSessionSpecificHandler)
    {
      isSessionSpecificHandlerSet := isSessionSpecificHandler;
      outputStreamHandlers.Append(handler);
    }

    method FirstMessageHandler(m: ClientMessage) returns (v: Verdict)
      requires Valid()
      modifies this`sessionType, this`calls
      modifies outputStreamHandlers`count, outputStreamHandlers`Contents, outputStreamHandlers.elements
      ensures Valid() && v == Verdict(true, false)
      ensures outputStreamHandlers.elements[..] ==
              Shifted(old(outputStreamHandlers.elements[..]), old(outputStreamHandlers.count), First)
      ensures SessionView() == InvokeFirst(old(SessionView()), m)
    {
      outputStreamHandlers.Deregister(First);
      if sessionType == Unset {
        if m.payloadType == OUTPUT {
          sessionType := StandardStream;
        }
      }
      calls := calls + [Call(First, m)];
      return Verdict(true, false);
    }

    /** The range loop reads the array that backed the slice when it began, while handlers may shift it. */
    method ProcessOutputMessageWithHandlers(m: ClientMessage) returns (v: Verdict)
      requires Valid()
      modifies this`sessionType, this`calls
      modifies outputStreamHandlers`count, outputStreamHandlers`Contents, outputStreamHandlers.elements
      ensures Valid()
      ensures (SessionView(), v) == Dispatch(world, old(SessionView()), m)
    {
      v := Verdict(false, false);
      if sessionType != Unset && !isSessionSpecificHandlerSet {
        return;
      }
      var n := outputStreamHandlers.count;
      var i := 0;
      ghost var s0 := SessionView();
      while i < n
        invariant Valid() && i <= n <= outputStreamHandlers.elements.Length && outputStreamHandlers.count <= n
        invariant DispatchFrom(world, SessionView(), outputStreamHandlers.elements[..n], i, v, m) ==
                  Dispatch(world, s0, m)
      {
        ghost var s, backing, v0 := SessionView(), outputStreamHandlers.elements[..n], v;
        v := InvokeHandler(i, n, m);
        DispatchOne(world, s, backing, i, v0, m, SessionView(), outputStreamHandlers.elements[..n], v);
        if v.failed || !v.ready {
          return;
        }
        i := i + 1;
      }
    }

    /** One iteration: the handler at index `i` of the array behind the slice. */
    method InvokeHandler(i: nat, ghost n: nat, m: ClientMessage) returns (v: Verdict)
      requires Valid() && i < n <= outputStreamHandlers.elements.Length && outputStreamHandlers.count <= n
      modifies this`sessionType, this`calls
      modifies outputStreamHandlers`count, outputStreamHandlers`Contents, outputStreamHandlers.elements
      ensures Valid() && outputStreamHandlers.count <= n
      ensures var h := old(outputStreamHandlers.elements[i]);
              if h == First then
                && v == Verdict(true, false)
                && SessionView() == InvokeFirst(old(SessionView()), m)
                && outputStreamHandlers.elements[..n] ==
                   Shifted(old(outputStreamHandlers.elements[..n]), |old(outputStreamHandlers.Contents)|, First)
              else
                && v == world.plugin(|old(calls)|, h, m)
                && SessionView() == old(SessionView()).(calls := old(calls) + [Call(h, m)])
                && outputStreamHandlers.elements[..n] == old(outputStreamHandlers.elements[..n])
    {
      var handler := outputStreamHandlers.elements[i];
      if handler == First {
        ghost var backing := outputStreamHandlers.elements[..];
        ShiftedPrefix(backing, n, outputStreamHandlers.count, First);
        v := FirstMessageHandler(m);
        assert outputStreamHandlers.elements[..n] == outputStreamHandlers.elements[..][..n];
        assert backing[..n] == old(outputStreamHandlers.elements[..n]);
      } else {
        v := world.plugin(|calls|, handler, m);
        calls := calls + [Call(handler, m)];
      }
    }

    // ---------- Sending ----------

    /** The payload as it goes out, and the keys it was encrypted under. */
    method SealInput(payloadType: uint32, data: seq<byte>)
      returns (payload: Result<seq<byte>>, ghost keys: Option<Keys>)
      ensures (payload, keys) == Sealing(world, View(false), payloadType, data)
    {
      var inputData := data;
      if data == [10] {
        inputData := [13];
      }
      payload, keys := Ok(inputData), None;
      if encryptionEnabled && payloadType == OUTPUT {
        if encryption.None? {
          payload := Err(Panic);
        } else {
          keys := encryption;
          payload := Encrypt(world.aead, encryption.value, world.nonce(turn), inputData);
        }
      }
    }

    /** The message is on the wire: the counter moves on and the message enters the buffer. */
    method RecordSent(content: seq<byte>, at: real, ghost submission: Submission)
      requires Valid()
      modifies this`frames, this`submitted, this`evicted, this`streamDataSequenceNumber, outgoing
      ensures Valid()
      ensures SenderView() == Sent(old(SenderView()), content, at, submission) && frames == old(frames) + [content]
    {
      frames := frames + [content];
      var streamingMessage := StreamingMessage(content, streamDataSequenceNumber, at, 0);
      streamDataSequenceNumber, submitted := streamDataSequenceNumber + 1, submitted + [submission];
      if |outgoing.messages| == outgoing.capacity {
        evicted := evicted + {outgoing.messages[0].sequenceNumber};
      }
      var _ := outgoing.ForcePushBack(streamingMessage);
    }

    method SendInputDataMessage(payloadType: uint32, data: seq<byte>) returns (ok: bool)
      requires Valid()
      modifies this`turn, this`frames, this`submitted, this`evicted, this`streamDataSequenceNumber, outgoing
      ensures Valid() && View(!ok) == SendInput(world, old(View(false)), payloadType, data)
    {
      var payload, keys := SealInput(payloadType, data);
      var content := Transmit(payloadType, payload);
      ok := FinishSend(content, Submission(payloadType, data, keys, world.clock(turn)));
    }

    /** Serializes the message under the current number and sends it. */
    method Transmit(payloadType: uint32, payload: Result<seq<byte>>) returns (content: Option<seq<byte>>)
      ensures content == OnTheWire(world, View(false), payloadType, payload)
    {
      content := None;
      if payload.Ok? {
        var clientMessage := ClientMessage(0, INPUT_STREAM, 1, world.date(turn), Wrap64(streamDataSequenceNumber), 0,
                                           world.uuid(turn), [], payloadType, 0, payload.value);
        var serialized := world.encode(clientMessage);
        if serialized.Ok? && world.sendOk(turn) {
          content := Some(serialized.value);
        }
      }
    }

    method FinishSend(content: Option<seq<byte>>, ghost submission: Submission) returns (ok: bool)
      requires Valid()
      modifies this`turn, this`frames, this`submitted, this`evicted, this`streamDataSequenceNumber, outgoing
      ensures Valid() && View(!ok) == SendContent(world, old(View(false)), content, submission)
    {
      ghost var s := View(false);
      ok := content.Some?;
      if ok {
        RecordSent(content.value, world.clock(turn), submission);
        assert SenderView() == Sent(s.sender, content.value, world.clock(turn), submission);
      }
      turn := turn + 1;
    }

    method SendAcknowledgeMessage(m: ClientMessage) returns (ok: bool)
      requires Valid()
      modifies this`turn, this`acks
      ensures Valid() && View(!ok) == SendAck(world, old(View(false)), m)
    {
      ghost var s := View(false);
      ok := world.sendOk(turn);
      if ok {
        acks := acks + [AckOf(m)];
      }
      turn := turn + 1;
    }

    method CalculateRetransmissionTimeout(newRoundTripTime: real)
      modifies this`roundTripTime, this`roundTripTimeVariation, this`retransmissionTimeout
      ensures Timer(roundTripTime, roundTripTimeVariation, retransmissionTimeout) ==
              Sample(old(Timer(roundTripTime, roundTripTimeVariation, retransmissionTimeout)), newRoundTripTime)
    {
      roundTripTimeVariation := 0.75 * roundTripTimeVariation + 0.25 * Abs(roundTripTime - newRoundTripTime);
      roundTripTime := 0.875 * roundTripTime + 0.125 * newRoundTripTime;
      retransmissionTimeout := roundTripTime + Max(CLOCK_GRANULARITY, 4.0 * roundTripTimeVariation);
      if retransmissionTimeout > MAX_TIMEOUT {
        retransmissionTimeout := MAX_TIMEOUT;
      }
    }

    method ProcessAcknowledgedMessage(number: int, now: real)
      requires Valid()
      modifies this`roundTripTime, this`roundTripTimeVariation, this`retransmissionTimeout, this`acked, outgoing
      ensures Valid() && SenderView() == Acknowledged(old(SenderView()), number, now)
    {
      var removed := outgoing.RemoveIf(HasNumber(number));
      if removed.Some? {
        acked := acked + {number};
        CalculateRetransmissionTimeout(now - removed.value.lastSentTime);
      } else {
        RemoveNone(old(outgoing.messages), HasNumber(number));
      }
    }

    method SendAgain(content: seq<byte>)
      requires Valid()
      modifies this`turn, this`frames
      ensures Valid() && turn == old(turn) + 1
      ensures frames == if world.sendOk(old(turn)) then old(frames) + [content] else old(frames)
    {
      if world.sendOk(turn) {
        frames := frames + [content];
      }
      turn := turn + 1;
    }

    /** One round of resendStreamDataMessageScheduler. */
    method ResendRound(now: real)
      requires Valid()
      modifies this`turn, this`frames, this`gaveUp
      ensures Valid() && View(!listening) == ResendTick(world, old(View(!listening)), now)
    {
      ghost var s := View(!listening);
      var front := outgoing.Front();
      if !gaveUp && front.Some? && now - front.value.lastSentTime > retransmissionTimeout {
        var streamMessage := front.value;
        if streamMessage.resendAttempt >= RESEND_MAX_ATTEMPT {
          gaveUp := true;
        } else {
          // the assignments to the message reach only the copy
          streamMessage := streamMessage.(resendAttempt := streamMessage.resendAttempt + 1);
          SendAgain(streamMessage.content);
          streamMessage := streamMessage.(lastSentTime := now);
        }
      }
    }

    // ---------- Handshake ----------

    method ProcessKmsEncryptionAction(a: RequestedAction) returns (p: ProcessedAction)
      requires Valid()
      modifies this`turn, this`encryption, this`encryptionEnabled
      ensures Valid() && (View(false), p) == KmsAction(world, old(View(false)), a)
    {
      ghost var s := View(false);
      p := ProcessedAction(a.actionType, Failed, NoResult, Some(Invalid));
      var keyId := world.parseKms(a.parameters);
      if keyId.Some? {
        var key := world.dataKey(turn, keyId.value);
        turn := turn + 1;
        if key.Some? {
          encryption := Some(SplitKey(key.value.plainText));
          encryptionEnabled := true;
          p := ProcessedAction(a.actionType, Success, KmsResult(key.value.cipherText), None);
        }
      }
    }

    method ProcessSessionTypeAction(a: RequestedAction) returns (p: ProcessedAction)
      requires Valid()
      modifies this`sessionType
      ensures Valid() && (View(false), p) == SessionTypeAction(world, old(View(false)), a)
    {
      var name := world.parseSessionType(a.parameters);
      if name.None? || TypeOf(name.value) == Unset {
        return ProcessedAction(a.actionType, Failed, NoResult, Some(Invalid));
      }
      sessionType := TypeOf(name.value);
      return ProcessedAction(a.actionType, Success, NoResult, None);
    }

    method ProcessClientAction(a: RequestedAction) returns (p: ProcessedAction)
      requires Valid()
      modifies this`turn, this`encryption, this`encryptionEnabled, this`sessionType
      ensures Valid() && (View(false), p) == ProcessAction(world, old(View(false)), a)
    {
      match a.actionType
      case KmsEncryption => p := ProcessKmsEncryptionAction(a);
      case SessionTypeRequest => p := ProcessSessionTypeAction(a);
      case OtherAction(_) => p := ProcessedAction(a.actionType, NoStatus, StatusResult(Unsupported), Some(Invalid));
    }

    method ProcessClientActions(actions: seq<RequestedAction>) returns (response: HandshakeResponse)
      requires Valid()
      modifies this`turn, this`encryption, this`encryptionEnabled, this`sessionType
      ensures Valid()
      ensures (View(false), response) == ProcessActions(world, old(View(false)), actions, HandshakeResponse([], []))
    {
      response := HandshakeResponse([], []);
      ghost var s0 := View(false);
      for i := 0 to |actions|
        invariant Valid()
        invariant ProcessActions(world, View(false), actions[i..], response) ==
                  ProcessActions(world, s0, actions, HandshakeResponse([], []))
      {
        ghost var s := View(false);
        var p := ProcessClientAction(actions[i]);
        response := HandshakeResponse(response.processed + [p],
                                      if p.error.Some? then response.errors + [p.error.value] else response.errors);
        assert actions[i..][0] == actions[i] && actions[i..][1..] == actions[i + 1..];
      }
    }

    method HandleHandshakeRequest(m: ClientMessage) returns (ok: bool)
      requires Valid()
      modifies this`turn, this`frames, this`submitted, this`evicted, this`streamDataSequenceNumber
      modifies this`agentVersion, this`encryption, this`encryptionEnabled, this`sessionType, outgoing
      ensures Valid() && View(!ok) == Handshake(world, old(View(false)), m)
    {
      var request := world.parseHandshake(m.payload);
      if request.None? {
        return false;
      }
      agentVersion := request.value.agentVersion;
      var response := ProcessClientActions(request.value.actions);
      ok := SendInputDataMessage(HANDSHAKE_RESPONSE, world.responseJson(response));
    }

    /** The challenge decrypted and encrypted again. */
    method AnswerChallenge(m: ClientMessage) returns (answer: Option<seq<byte>>)
      ensures answer == ChallengeAnswer(world, View(false), m)
    {
      answer := None;
      var challenge := world.parseChallenge(m.payload);
      if challenge.Some? && encryption.Some? {
        var plain := Decrypt(world.aead, encryption.value, challenge.value);
        if plain.Ok? {
          var cipherText := Encrypt(world.aead, encryption.value, world.nonce(turn), plain.value);
          if cipherText.Ok? {
            answer := Some(cipherText.value);
          }
        }
      }
    }

    method HandleEncryptionChallengeRequest(m: ClientMessage) returns (ok: bool)
      requires Valid()
      modifies this`turn, this`frames, this`submitted, this`evicted, this`streamDataSequenceNumber, outgoing
      ensures Valid() && View(!ok) == Challenge(world, old(View(false)), m)
    {
      var answer := AnswerChallenge(m);
      ok := SendChallengeResponse(answer);
    }

    method SendChallengeResponse(answer: Option<seq<byte>>) returns (ok: bool)
      requires Valid()
      modifies this`turn, this`frames, this`submitted, this`evicted, this`streamDataSequenceNumber, outgoing
      ensures Valid() && View(!ok) == Answer(world, old(View(false)), answer)
    {
      ghost var s := View(false);
      ok := answer.Some?;
      if ok {
        turn := turn + 1;
        assert View(false) == s.(turn := s.turn + 1);
        ok := SendInputDataMessage(ENC_CHALLENGE_RESPONSE, world.challengeJson(answer.value));
      }
    }

    // ---------- Receiving ----------

    /** The message as handlers see it. */
    method OpenPayload(m: ClientMessage) returns (r: Result<ClientMessage>)
      ensures r == Opened(world, SessionView(), m)
    {
      r := Ok(m);
      if encryptionEnabled && (m.payloadType == OUTPUT || m.payloadType == STD_ERR || m.payloadType == EXIT_CODE) {
        if encryption.None? {
          return Err(Panic);
        }
        var plain := Decrypt(world.aead, encryption.value, m.payload);
        r := if plain.Err? then Err(plain.error) else Ok(m.(payload := plain.value));
      }
    }

    method HandOverToHandlers(m: ClientMessage) returns (v: Verdict)
      requires Valid()
      modifies this`sessionType, this`calls
      modifies outputStreamHandlers`count, outputStreamHandlers`Contents, outputStreamHandlers.elements
      ensures Valid() && (SessionView(), v) == HandOver(world, old(SessionView()), m)
    {
      var plain := OpenPayload(m);
      if plain.Ok? {
        v := ProcessOutputMessageWithHandlers(plain.value);
      } else {
        v := Verdict(false, true);
      }
    }

    method HandleDefaultOutputMessage(m: ClientMessage) returns (ok: bool)
      requires Valid()
      modifies this`turn, this`acks, this`sessionType, this`calls
      modifies outputStreamHandlers`count, outputStreamHandlers`Contents, outputStreamHandlers.elements
      ensures Valid() && View(!ok) == Default(world, old(View(false)), m)
    {
      ghost var s := View(false);
      var v := HandOverToHandlers(m);
      assert View(false) == s.(session := SessionView());
      ok := !v.failed;
      if ok && v.ready {
        ok := SendAcknowledgeMessage(m);
      }
    }

    /** The three control payload types: acknowledged first, then handled. */
    method HandleControlMessage(m: ClientMessage) returns (ok: bool)
      requires Valid() && Control(m.payloadType)
      modifies this`turn, this`acks, this`frames, this`submitted, this`evicted, this`streamDataSequenceNumber
      modifies this`agentVersion, this`encryption, this`encryptionEnabled, this`sessionType, outgoing
      ensures Valid() && View(!ok) == InOrder(world, old(View(false)), m)
    {
      ghost var s := View(false);
      ok := SendAcknowledgeMessage(m);
      if ok {
        assert View(false) == SendAck(world, s, m);
        if m.payloadType == HANDSHAKE_REQUEST {
          ok := HandleHandshakeRequest(m);
        } else if m.payloadType == HANDSHAKE_COMPLETE {
          ok := world.parseComplete(m.payload);
        } else {
          ok := HandleEncryptionChallengeRequest(m);
        }
      }
    }

    method HandleUnexpectedSequenceMessage(m: ClientMessage, raw: seq<byte>, now: real) returns (ok: bool)
      requires Valid()
      modifies this`turn, this`acks, incoming
      ensures Valid() && View(!ok) == Unexpected(world, old(View(false)), m, raw, now)
    {
      ghost var s := View(false);
      ok := true;
      if m.sequenceNumber > expectedSequenceNumber {
        var full := incoming.IsFull();
        if !full {
          ok := SendAcknowledgeMessage(m);
          if ok {
            assert View(false) == SendAck(world, s, m);
            var _ := incoming.SetUnlessFull(m.sequenceNumber, StreamingMessage(raw, m.sequenceNumber, now, 0));
          }
        }
      }
    }

    /** The expected number moves past `m`. */
    method MovePast(ghost m: ClientMessage)
      requires Valid()
      modifies this`expectedSequenceNumber, this`consumed
      ensures Valid() && View(false) == Advance(old(View(false)), m)
    {
      expectedSequenceNumber, consumed := expectedSequenceNumber + 1, consumed + [m];
    }

    method MovePastBuffered(number: int, ghost m: ClientMessage)
      requires Valid()
      modifies this`expectedSequenceNumber, this`consumed, incoming
      ensures Valid()
      ensures View(false) == Advance(old(View(false)), m).(incoming := old(incoming.messages) - {number})
    {
      MovePast(m);
      var _ := incoming.Remove(number);
    }

    method ProcessBufferedMessage(b: StreamingMessage) returns (ok: bool)
      requires Valid()
      modifies this`expectedSequenceNumber, this`consumed, this`sessionType, this`calls, incoming
      modifies outputStreamHandlers`count, outputStreamHandlers`Contents, outputStreamHandlers.elements
      ensures Valid() && View(!ok) == Buffered(world, old(View(false)), b)
    {
      ghost var s := View(false);
      var m := world.decode(b.content);
      ok := false;
      if m.Ok? {
        var v := HandOverToHandlers(m.value);
        assert View(false) == s.(session := SessionView());
        if !v.failed {
          ok := true;
          MovePastBuffered(b.sequenceNumber, m.value);
        }
      }
    }

    /** Drains the reorder buffer; its size is what decreases. */
    method ProcessIncomingMessageBufferItems() returns (ok: bool)
      requires Valid()
      modifies this`expectedSequenceNumber, this`consumed, this`sessionType, this`calls, incoming
      modifies outputStreamHandlers`count, outputStreamHandlers`Contents, outputStreamHandlers.elements
      ensures Valid() && View(!ok) == Drain(world, old(View(false)))
    {
      ok := true;
      ghost var s0 := View(false);
      while true
        invariant Valid() && Drain(world, View(false)) == Drain(world, s0)
        decreases |incoming.messages|
      {
        ghost var s := View(false);
        var item := incoming.Get(expectedSequenceNumber);
        if item.None? || item.value.content == [] {
          return true;
        }
        ok := ProcessBufferedMessage(item.value);
        if !ok {
          return false;
        }
        assert incoming.messages.Keys == s.incoming.Keys - {s.expected};
      }
    }

    /** The switch on the payload type. */
    method HandleInOrderMessage(m: ClientMessage) returns (ok: bool)
      requires Valid()
      modifies this`turn, this`acks, this`frames, this`submitted, this`evicted, this`streamDataSequenceNumber
      modifies this`agentVersion, this`encryption, this`encryptionEnabled, this`sessionType, this`calls, outgoing
      modifies outputStreamHandlers`count, outputStreamHandlers`Contents, outputStreamHandlers.elements
      ensures Valid() && View(!ok) == InOrder(world, old(View(false)), m)
    {
      if Control(m.payloadType) {
        ok := HandleControlMessage(m);
      } else {
        ok := HandleDefaultOutputMessage(m);
      }
    }

    method HandleOutputMessage(m: ClientMessage, raw: seq<byte>, now: real) returns (ok: bool)
      requires Valid()
      modifies this`turn, this`acks, this`frames, this`submitted, this`evicted, this`streamDataSequenceNumber
      modifies this`agentVersion, this`encryption, this`encryptionEnabled, this`sessionType, this`calls, outgoing
      modifies this`expectedSequenceNumber, this`consumed, incoming
      modifies outputStreamHandlers`count, outputStreamHandlers`Contents, outputStreamHandlers.elements
      ensures Valid() && View(!ok) == HandleOutput(world, old(View(false)), m, raw, now)
    {
      ghost var s := View(false);
      if m.sequenceNumber != expectedSequenceNumber {
        ok := HandleUnexpectedSequenceMessage(m, raw, now);
      } else {
        ok := HandleInOrderMessage(m);
        if ok {
          MovePast(m);
          ok := ProcessIncomingMessageBufferItems();
        }
      }
    }

    method OutputMessageHandler(raw: seq<byte>, now: real) returns (ok: bool)
      requires Valid()
      modifies this`turn, this`acks, this`frames, this`submitted, this`evicted, this`streamDataSequenceNumber
      modifies this`agentVersion, this`encryption, this`encryptionEnabled, this`sessionType, this`calls, outgoing
      modifies this`roundTripTime, this`roundTripTimeVariation, this`retransmissionTimeout, this`acked
      modifies this`expectedSequenceNumber, this`consumed, incoming
      modifies outputStreamHandlers`count, outputStreamHandlers`Contents, outputStreamHandlers.elements
      ensures Valid() && View(!ok) == Handle(world, old(View(false)), raw, now)
    {
      ghost var s := View(false);
      var decoded := world.decode(raw);
      if decoded.Err? || !world.validate(decoded.value) {
        return false;
      }
      var m := decoded.value;
      if m.messageType == OUTPUT_STREAM {
        ok := HandleOutputMessage(m, raw, now);
      } else if m.messageType == ACKNOWLEDGE {
        ok := HandleAcknowledgeMessage(m, now);
      } else {
        ok := m.messageType == CHANNEL_CLOSED ==> world.closed(m.payload);
      }
    }

    method HandleAcknowledgeMessage(m: ClientMessage, now: real) returns (ok: bool)
      requires Valid()
      modifies this`roundTripTime, this`roundTripTimeVariation, this`retransmissionTimeout, this`acked, outgoing
      ensures Valid() && View(!ok) == HandleAck(world, old(View(false)), m, now)
    {
      ghost var s := View(false);
      var number := world.parseAck(m.payload);
      ok := number.Some?;
      if ok {
        ProcessAcknowledgedMessage(number.value, now);
      }
    }

    /** One round of the listener: an error closes the channel and ends it. */
    method ListenOnce(read: Read, now: real)
      requires Valid()
      modifies this, incoming, outgoing
      modifies outputStreamHandlers`count, outputStreamHandlers`Contents, outputStreamHandlers.elements
      ensures Valid() && View(!listening) == Listen(world, old(View(!listening)), read, now)
    {
      if !listening {
        return;
      }
      var rawMessage := [];
      if read.Received? {
        rawMessage := read.raw;
      } else if read.EndOfFile? || !read.reconnected {
        listening := false;
        return;
      }
      listening := OutputMessageHandler(rawMessage, now);
    }
  }
}
