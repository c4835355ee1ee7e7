/** The handshake: its response, and what the session's type and encryption keep over every run. */
module Negotiation {
  import opened Wrappers
  import opened Bytes
  import opened Codec
  import opened Encryption
  import opened Protocol
  import opened Handlers
  import opened Delivery

  /** The entries that did not succeed. */
  function Unsuccessful(ps: seq<ProcessedAction>): nat {
    if ps == [] then 0
    else Unsuccessful(ps[..|ps| - 1]) + (if ps[|ps| - 1].status == Success then 0 else 1)
  }

  /** `ps` answers `actions` one for one, and `errors` counts those that did not succeed. */
  ghost predicate Answers(actions: seq<RequestedAction>, resp: HandshakeResponse) {
    && |resp.processed| == |actions|
    && (forall i :: 0 <= i < |actions| ==> resp.processed[i].actionType == actions[i].actionType)
    && |resp.errors| == Unsuccessful(resp.processed)
    && (forall i :: 0 <= i < |actions| ==> resp.processed[i].status != Unsupported)
  }

  lemma OneAnswer(w: World, s: State, a: RequestedAction)
    ensures var p := ProcessAction(w, s, a).1;
            && p.actionType == a.actionType
            && (p.error.None? <==> p.status == Success)
            && p.status != Unsupported
            && (a.actionType.OtherAction? <==> p.status == NoStatus)
  {
  }

  /**
   One entry per requested action, in order and of its type; as many errors as entries not marked successful.
   An unsupported action is one of these, although no entry ever carries the status Unsupported.
   */
  lemma {:induction false} ResponseAnswers(w: World, s: State, done: seq<RequestedAction>,
                                           actions: seq<RequestedAction>, resp: HandshakeResponse)
    requires Answers(done, resp)
    ensures Answers(done + actions, ProcessActions(w, s, actions, resp).1)
    decreases |actions|
  {
    if actions == [] {
      assert done + actions == done;
    } else {
      var (s', p) := ProcessAction(w, s, actions[0]);
      OneAnswer(w, s, actions[0]);
      var errors := if p.error.Some? then resp.errors + [p.error.value] else resp.errors;
      var resp' := HandshakeResponse(resp.processed + [p], errors);
      assert resp'.processed[..|resp.processed|] == resp.processed;
      ResponseAnswers(w, s', done + [actions[0]], actions[1..], resp');
      assert done + actions == done + [actions[0]] + actions[1..];
    }
  }

  // ---------- What the actions do ----------

  /** KMS is asked for a data key. */
  predicate Asked(w: World, a: RequestedAction) {
    a.actionType.KmsEncryption? && w.parseKms(a.parameters).Some?
  }

  /** What KMS answers to each action, if it is asked and answers; each time it is asked takes a turn. */
  function DataKeys(w: World, actions: seq<RequestedAction>, turn: nat): (keys: seq<Option<DataKey>>)
    ensures |keys| == |actions|
  {
    if actions == [] then []
    else if Asked(w, actions[0]) then
      [w.dataKey(turn, w.parseKms(actions[0].parameters).value)] + DataKeys(w, actions[1..], turn + 1)
    else [None] + DataKeys(w, actions[1..], turn)
  }

  /** The known session type an action asks for, if any: the three kinds of shell are one type. */
  function TypeFor(w: World, a: RequestedAction): Option<SessionType> {
    if !a.actionType.SessionTypeRequest? then None
    else
      match w.parseSessionType(a.parameters)
      case Some(StandardStreamName) => Some(StandardStream)
      case Some(InteractiveCommandsName) => Some(StandardStream)
      case Some(NonInteractiveCommandsName) => Some(StandardStream)
      case Some(PortName) => Some(Port)
      case _ => None
  }

  /** The entry for an action to which KMS answered with `key`, if it did. */
  predicate EntryFor(w: World, a: RequestedAction, key: Option<DataKey>, p: ProcessedAction) {
    && p.actionType == a.actionType
    && (p.status == Success <==> key.Some? || TypeFor(w, a).Some?)
    && (p.status == NoStatus <==> a.actionType.OtherAction?)
    && (p.status == Success || p.status == NoStatus || p.status == Failed)
    && (p.error.None? <==> p.status == Success)
    && p.result == (if key.Some? then KmsResult(key.value.cipherText)
                    else if a.actionType.OtherAction? then StatusResult(Unsupported) else NoResult)
  }

  ghost predicate Entries(w: World, actions: seq<RequestedAction>, turn: nat, ps: seq<ProcessedAction>) {
    |ps| == |actions| && forall i :: 0 <= i < |ps| ==> EntryFor(w, actions[i], DataKeys(w, actions, turn)[i], ps[i])
  }

  /** The keys of a data key: the first half decrypts, the second encrypts. */
  predicate KeysOf(key: DataKey, keys: Option<Keys>) {
    var half := |key.plainText| / 2;
    keys.Some? && keys.value.decryptionKey == key.plainText[..half] && keys.value.encryptionKey == key.plainText[half..]
  }

  ghost predicate LastKey(keys: seq<Option<DataKey>>, i: nat)
    requires i < |keys|
  {
    keys[i].Some? && forall j :: i < j < |keys| ==> keys[j].None?
  }

  /** Encryption is on with the last data key KMS answered with. */
  ghost predicate Installed(keys: seq<Option<DataKey>>, r: Session) {
    forall i :: 0 <= i < |keys| && LastKey(keys, i) ==> r.encryptionEnabled && KeysOf(keys[i].value, r.encrypter)
  }

  ghost predicate NoKey(keys: seq<Option<DataKey>>) {
    forall i :: 0 <= i < |keys| ==> keys[i].None?
  }

  /** The same, and encryption is as before if KMS never answered. */
  ghost predicate Rekeyed(keys: seq<Option<DataKey>>, before: Session, after: Session) {
    Installed(keys, after) && (NoKey(keys) ==> SameEncryption(before, after))
  }

  ghost predicate LastType(w: World, actions: seq<RequestedAction>, i: nat)
    requires i < |actions|
  {
    TypeFor(w, actions[i]).Some? && forall j :: i < j < |actions| ==> TypeFor(w, actions[j]).None?
  }

  /** The session type is the last known one asked for. */
  ghost predicate TypeChosen(w: World, actions: seq<RequestedAction>, chosen: SessionType) {
    forall i :: 0 <= i < |actions| && LastType(w, actions, i) ==> TypeFor(w, actions[i]) == Some(chosen)
  }

  ghost predicate NoType(w: World, actions: seq<RequestedAction>) {
    forall i :: 0 <= i < |actions| ==> TypeFor(w, actions[i]).None?
  }

  /** The same, and the session type is as before if none was asked for. */
  ghost predicate Typed(w: World, actions: seq<RequestedAction>, before: Session, after: Session) {
    TypeChosen(w, actions, after.sessionType) && (NoType(w, actions) ==> after.sessionType == before.sessionType)
  }

  /** The turn after an action. */
  function Later(w: World, a: RequestedAction, turn: nat): nat {
    if Asked(w, a) then turn + 1 else turn
  }

  /** One action: its turn, its entry, and what it changes. */
  lemma OneAction(w: World, s: State, a: RequestedAction)
    ensures var (r, p) := ProcessAction(w, s, a);
            var key := DataKeys(w, [a], s.turn)[0];
            && r.turn == Later(w, a, s.turn)
            && EntryFor(w, a, key, p)
            && (if key.Some? then r.session.encryptionEnabled && KeysOf(key.value, r.session.encrypter)
                else SameEncryption(s.session, r.session))
            && r.session.sessionType == (if TypeFor(w, a).Some? then TypeFor(w, a).value else s.session.sessionType)
  {
  }

  lemma RekeyedStep(keys: seq<Option<DataKey>>, s: Session, t: Session, r: Session)
    requires keys != [] && Rekeyed(keys[1..], t, r)
    requires if keys[0].Some? then t.encryptionEnabled && KeysOf(keys[0].value, t.encrypter) else SameEncryption(s, t)
    ensures Rekeyed(keys, s, r)
  {
    var rest := keys[1..];
    assert forall j :: 0 < j < |keys| ==> keys[j] == rest[j - 1];
    forall i | 0 <= i < |keys| && LastKey(keys, i)
      ensures r.encryptionEnabled && KeysOf(keys[i].value, r.encrypter)
    {
      if i > 0 {
        assert LastKey(rest, i - 1);
      } else {
        assert NoKey(rest);
      }
    }
    assert NoKey(keys) ==> NoKey(rest) && keys[0].None?;
  }

  lemma TypedStep(w: World, actions: seq<RequestedAction>, s: Session, t: Session, r: Session)
    requires actions != [] && Typed(w, actions[1..], t, r)
    requires t.sessionType == if TypeFor(w, actions[0]).Some? then TypeFor(w, actions[0]).value else s.sessionType
    ensures Typed(w, actions, s, r)
  {
    var rest := actions[1..];
    assert forall j :: 0 < j < |actions| ==> actions[j] == rest[j - 1];
    assert forall j :: 0 <= j < |rest| ==> rest[j] == actions[j + 1];
    forall i | 0 <= i < |actions| && LastType(w, actions, i)
      ensures TypeFor(w, actions[i]) == Some(r.sessionType)
    {
      if i > 0 {
        assert LastType(w, rest, i - 1);
      } else {
        assert NoType(w, rest);
      }
    }
    assert NoType(w, actions) ==> NoType(w, rest) && TypeFor(w, actions[0]).None?;
  }

  /** The first action and its key, apart from the others. */
  lemma FirstAction(w: World, actions: seq<RequestedAction>, turn: nat)
    requires actions != []
    ensures var keys := DataKeys(w, actions, turn);
            && keys[0] == DataKeys(w, [actions[0]], turn)[0]
            && keys[1..] == DataKeys(w, actions[1..], Later(w, actions[0], turn))
  {
  }

  lemma EntriesStep(w: World, actions: seq<RequestedAction>, turn: nat, ps: seq<ProcessedAction>)
    requires actions != [] && ps != [] && EntryFor(w, actions[0], DataKeys(w, [actions[0]], turn)[0], ps[0])
    requires Entries(w, actions[1..], Later(w, actions[0], turn), ps[1..])
    ensures Entries(w, actions, turn, ps)
  {
    FirstAction(w, actions, turn);
    var keys, rest := DataKeys(w, actions, turn), actions[1..];
    forall i | 0 <= i < |ps|
      ensures EntryFor(w, actions[i], keys[i], ps[i])
    {
      if i > 0 {
        assert EntryFor(w, rest[i - 1], keys[1..][i - 1], ps[1..][i - 1]);
      }
    }
  }

  /** What the actions make of session `s`, from `turn` on: session `r` and entries `ps`. */
  ghost predicate TookEffect(w: World, s: Session, turn: nat, actions: seq<RequestedAction>, r: Session,
                             ps: seq<ProcessedAction>)
  {
    // one proof obligation rather than one per part
    var parts :=
      && Entries(w, actions, turn, ps)
      && Rekeyed(DataKeys(w, actions, turn), s, r)
      && Typed(w, actions, s, r);
    parts
  }

  lemma TookEffectStep(w: World, s: State, actions: seq<RequestedAction>, t: State, r: Session,
                       ps: seq<ProcessedAction>)
    requires actions != [] && ps != [] && (t, ps[0]) == ProcessAction(w, s, actions[0])
    requires TookEffect(w, t.session, t.turn, actions[1..], r, ps[1..])
    ensures TookEffect(w, s.session, s.turn, actions, r, ps)
  {
    OneAction(w, s, actions[0]);
    FirstAction(w, actions, s.turn);
    EntriesStep(w, actions, s.turn, ps);
    RekeyedStep(DataKeys(w, actions, s.turn), s.session, t.session, r);
    TypedStep(w, actions, s.session, t.session, r);
  }

  /** Every action gets its entry; the last data key and the last known session type take effect. */
  lemma {:induction false} ActionsTakeEffect(w: World, s: State, actions: seq<RequestedAction>, resp: HandshakeResponse)
    returns (ps: seq<ProcessedAction>)
    ensures ProcessActions(w, s, actions, resp).1.processed == resp.processed + ps
    ensures TookEffect(w, s.session, s.turn, actions, ProcessActions(w, s, actions, resp).0.session, ps)
    decreases |actions|
  {
    ps := [];
    if actions != [] {
      var (t, p) := ProcessAction(w, s, actions[0]);
      var errors := if p.error.Some? then resp.errors + [p.error.value] else resp.errors;
      var qs := ActionsTakeEffect(w, t, actions[1..], HandshakeResponse(resp.processed + [p], errors));
      ps := [p] + qs;
      Regroup(resp.processed, p, qs);
      TookEffectStep(w, s, actions, t, ProcessActions(w, s, actions, resp).0.session, ps);
    }
  }

  lemma Regroup<T>(a: seq<T>, x: T, b: seq<T>)
    ensures (a + [x]) + b == a + ([x] + b)
    ensures ([x] + b)[1..] == b
  {
  }

  /** What a handshake request leaves, whether or not the response can be sent. */
  lemma PreparedTakesEffect(w: World, s: State, m: ClientMessage, req: HandshakeRequest)
    ensures var (t, resp) := Prepared(w, s, m, req);
            && t.session.agentVersion == req.agentVersion
            && TookEffect(w, s.session, s.turn + 1, req.actions, t.session, resp.processed)
  {
    var a := SendAck(w, s, m);
    assert a.turn == s.turn + 1 && a.session == s.session;
    VersionTakesEffect(w, a, req.agentVersion, req.actions);
  }

  lemma VersionTakesEffect(w: World, a: State, version: string, actions: seq<RequestedAction>)
    ensures var b := a.(session := a.session.(agentVersion := version));
            var (t, resp) := ProcessActions(w, b, actions, HandshakeResponse([], []));
            && t.session.agentVersion == version
            && TookEffect(w, a.session, a.turn, actions, t.session, resp.processed)
  {
    var b := a.(session := a.session.(agentVersion := version));
    var ps := ActionsTakeEffect(w, b, actions, HandshakeResponse([], []));
    var (t, resp) := ProcessActions(w, b, actions, HandshakeResponse([], []));
    FromVersion(w, a.session, version, a.turn, actions, t.session, ps);
    assert resp.processed == ps;
  }

  /** The agent version has no part in it. */
  lemma FromVersion(w: World, s: Session, version: string, turn: nat, actions: seq<RequestedAction>, r: Session,
                    ps: seq<ProcessedAction>)
    requires TookEffect(w, s.(agentVersion := version), turn, actions, r, ps)
    ensures TookEffect(w, s, turn, actions, r, ps)
  {
  }

  lemma HandshakeSession(w: World, s: State, m: ClientMessage, req: HandshakeRequest)
    requires w.sendOk(s.turn) && !s.failed && w.parseHandshake(m.payload) == Some(req) && m.payloadType == 5
    ensures InOrder(w, s, m).session == Prepared(w, s, m, req).0.session
  {
    assert InOrder(w, s, m) == Handshake(w, SendAck(w, s, m), m);
  }

  /**
   A handshake request in its turn that parses sets the agent version, installs the keys of the last data key KMS
   answered with and the last known session type, and nothing of it is undone by what is drained behind it. The
   response that is then sent tells the agent of each action.
   */
  lemma HandshakeTakesEffect(w: World, s: State, m: ClientMessage, req: HandshakeRequest, raw: seq<byte>, now: real)
    requires Keyed(s.incoming) && !s.failed && w.sendOk(s.turn) && w.parseHandshake(m.payload) == Some(req)
    requires w.decode(raw) == Ok(m) && w.validate(m) && m.messageType == OUTPUT_STREAM
    requires m.payloadType == 5 && m.sequenceNumber == s.expected
    ensures var t, r := InOrder(w, s, m).session, Step(w, s, Arrive(raw, now)).session;
            && TookEffect(w, s.session, s.turn + 1, req.actions, t, Prepared(w, s, m, req).1.processed)
            && (t.sessionType != Unset ==> r.sessionType == t.sessionType)
            && r.agentVersion == req.agentVersion
            && Rekeyed(DataKeys(w, req.actions, s.turn + 1), s.session, r)
  {
    PreparedTakesEffect(w, s, m, req);
    HandshakeSession(w, s, m, req);
    var t := InOrder(w, s, m);
    if !t.failed {
      DrainNegotiatesNothing(w, Advance(t, m));
    }
    SameKeysSame(DataKeys(w, req.actions, s.turn + 1), s.session, t.session, Step(w, s, Arrive(raw, now)).session);
  }

  lemma SameKeysSame(keys: seq<Option<DataKey>>, before: Session, t: Session, r: Session)
    requires Rekeyed(keys, before, t) && SameEncryption(t, r)
    ensures Rekeyed(keys, before, r)
  {
  }

  // ---------- A handshake is answered in its turn only ----------

  /** The state in which the response is sent, and the response. */
  function Prepared(w: World, s: State, m: ClientMessage, req: HandshakeRequest): (State, HandshakeResponse) {
    var s' := SendAck(w, s, m);
    ProcessActions(w, s'.(session := s'.session.(agentVersion := req.agentVersion)), req.actions,
                   HandshakeResponse([], []))
  }

  /** The request parses, the link works and the response can be serialized. */
  ghost predicate Answerable(w: World, s: State, m: ClientMessage, req: HandshakeRequest) {
    var (t, resp) := Prepared(w, s, m, req);
    && w.parseHandshake(m.payload) == Some(req)
    && w.sendOk(s.turn) && w.sendOk(t.turn)
    && w.encode(InputMessage(w, t, HANDSHAKE_RESPONSE, EnterKey(w.responseJson(resp)))).Ok?
  }

  /** The response as handed to SendInputDataMessage; it is never encrypted. */
  function ResponseFrom(w: World, t: State, resp: HandshakeResponse): Submission {
    Submission(6, w.responseJson(resp), None, w.clock(t.turn))
  }

  lemma HandshakeAnswered(w: World, s: State, m: ClientMessage, req: HandshakeRequest)
    requires !s.failed && m.payloadType == HANDSHAKE_REQUEST && Answerable(w, s, m, req)
    ensures var r, (t, resp) := InOrder(w, s, m), Prepared(w, s, m, req);
            && !r.failed && r.session == t.session && r.acks == s.acks + [AckOf(m)]
            && r.sender.submitted == s.sender.submitted + [ResponseFrom(w, t, resp)]
            && Answers(req.actions, resp)
  {
    var s' := SendAck(w, s, m);
    var t := s'.(session := s'.session.(agentVersion := req.agentVersion));
    ResponseAnswers(w, t, [], req.actions, HandshakeResponse([], []));
    assert [] + req.actions == req.actions;
    assert InOrder(w, s, m) == Handshake(w, s', m);
  }

  /**
   A handshake frame that arrives is answered exactly when its number is the expected one, and then with one entry
   per requested action; otherwise nothing is sent or negotiated, although the frame may be acknowledged.
   */
  lemma AnsweredIffInTurn(w: World, s: State, m: ClientMessage, req: HandshakeRequest, raw: seq<byte>, now: real)
    requires Keyed(s.incoming) && !s.failed && Answerable(w, s, m, req)
    requires w.decode(raw) == Ok(m) && w.validate(m) && m.messageType == OUTPUT_STREAM
    requires m.payloadType == HANDSHAKE_REQUEST
    ensures var r, (t, resp) := Step(w, s, Arrive(raw, now)), Prepared(w, s, m, req);
            && (m.sequenceNumber == s.expected <==>
                r.sender.submitted == s.sender.submitted + [ResponseFrom(w, t, resp)])
            && Answers(req.actions, resp)
            && (m.sequenceNumber != s.expected ==> SameSender(s, r) && r.session == s.session)
  {
    HandshakeAnswered(w, s, m, req);
  }

  // ---------- Every control message in its turn is acknowledged ----------

  /**
   A handshake request, a handshake completion or a challenge in its turn is acknowledged before anything else, so
   also when the handling then fails; if the acknowledgement cannot be sent nothing else happens. A request fails
   exactly when it cannot be answered, and a completion, which changes nothing else, exactly when it does not parse.
   */
  lemma ControlAcknowledged(w: World, s: State, m: ClientMessage, raw: seq<byte>, now: real)
    requires Keyed(s.incoming) && !s.failed && m.sequenceNumber == s.expected
    requires w.decode(raw) == Ok(m) && w.validate(m) && m.messageType == OUTPUT_STREAM
    requires m.payloadType == 5 || m.payloadType == 7 || m.payloadType == 8
    ensures var r, u := InOrder(w, s, m), Step(w, s, Arrive(raw, now));
            && r.acks == u.acks
            && (if w.sendOk(s.turn) then u.acks == s.acks + [Ack(m.messageType, m.messageId, m.sequenceNumber)]
                else u == Fail(s.(turn := s.turn + 1)))
            && (m.payloadType == 5 ==> (!r.failed <==> exists req :: Answerable(w, s, m, req)))
            && (m.payloadType == 7 && w.sendOk(s.turn) ==>
                  && (r.failed <==> !w.parseComplete(m.payload))
                  && r.session == s.session && SameSender(s, r))
  {
    var r := InOrder(w, s, m);
    if m.payloadType == 5 && w.sendOk(s.turn) && w.parseHandshake(m.payload).Some? {
      AnsweredIffAnswerable(w, s, m, w.parseHandshake(m.payload).value);
    }
  }

  lemma AnsweredIffAnswerable(w: World, s: State, m: ClientMessage, req: HandshakeRequest)
    requires !s.failed && m.payloadType == 5 && w.sendOk(s.turn) && w.parseHandshake(m.payload) == Some(req)
    ensures !InOrder(w, s, m).failed <==> Answerable(w, s, m, req)
  {
    assert InOrder(w, s, m) == Handshake(w, SendAck(w, s, m), m);
  }

  /** The state in which the response to a challenge is sent. */
  function Challenged(w: World, s: State, m: ClientMessage): State {
    SendAck(w, s, m).(turn := s.turn + 2)
  }

  /**
   A challenge the agent has sealed for this end is answered with the same text, sealed for the agent, which reads it;
   nothing can prevent that but the link and a response that cannot be serialized.
   */
  lemma ChallengeAnswered(w: World, s: State, m: ClientMessage, keys: Keys, nonce: Nonce, plain: seq<byte>)
    requires w.aead.Lawful() && !s.failed && m.payloadType == 8 && w.sendOk(s.turn)
    requires s.session.encrypter == Some(keys) && ValidKey(keys.encryptionKey) && ValidKey(keys.decryptionKey)
    requires w.parseChallenge(m.payload) == Some(nonce + w.aead.seal(keys.decryptionKey, nonce, plain))
    ensures var r, at := InOrder(w, s, m), s.turn + 2;
            var own := w.nonce(s.turn + 1);
            var answer := own + w.aead.seal(keys.encryptionKey, own, plain);
            && Decrypted(w.aead, keys.Peer(), answer) == Ok(plain)
            && (!r.failed <==>
                && w.sendOk(at)
                && w.encode(InputMessage(w, Challenged(w, s, m), 9, EnterKey(w.challengeJson(answer)))).Ok?)
            && (!r.failed ==>
                r.sender.submitted == s.sender.submitted + [Submission(9, w.challengeJson(answer), None, w.clock(at))])
  {
    var sealed := w.aead.seal(keys.decryptionKey, nonce, plain);
    assert (nonce + sealed)[..NONCE_SIZE] == nonce && (nonce + sealed)[NONCE_SIZE..] == sealed;
    var a := SendAck(w, s, m);
    PeerOpens(w.aead, keys, w.nonce(a.turn), plain);
    assert InOrder(w, s, m) == Challenge(w, a, m);
  }

  /** A challenge that does not parse, that comes without keys or that was not sealed for this end ends the listener. */
  lemma ChallengeRefused(w: World, s: State, m: ClientMessage)
    requires !s.failed && m.payloadType == 8
    requires w.parseChallenge(m.payload).None? || s.session.encrypter.None?
             || Decrypted(w.aead, s.session.encrypter.value, w.parseChallenge(m.payload).value).Err?
    ensures InOrder(w, s, m).failed && SameSender(s, InOrder(w, s, m))
  {
  }

  /** A control message that arrives ahead of its turn: acknowledged, then drained, and never acted upon. */
  lemma BufferedControlIsLost(w: World, m0: ClientMessage, m1: ClientMessage, raw0: seq<byte>, raw1: seq<byte>,
                              now: real, inCap: nat, outCap: nat)
    requires inCap > 0 && w.decode([]).Err? && w.sendOk(0) && w.sendOk(1)
    requires w.decode(raw0) == Ok(m0) && w.validate(m0) && m0.messageType == OUTPUT_STREAM && m0.sequenceNumber == 0
    requires w.decode(raw1) == Ok(m1) && w.validate(m1) && m1.messageType == OUTPUT_STREAM && m1.sequenceNumber == 1
    requires m0.payloadType == OUTPUT && Control(m1.payloadType)
    ensures var s := Initial(inCap, outCap);
            var r := Run(w, s, [Arrive(raw1, now), Arrive(raw0, now)]);
            && !r.failed && r.consumed == [m0, m1] && r.acks == [AckOf(m1), AckOf(m0)]
            && r.sender == s.sender && r.frames == [] && Unnegotiated(s.session, r.session)
            && r.session.calls == [Call(First, m0)]
  {
    var s := Initial(inCap, outCap);
    var es := [Arrive(raw1, now), Arrive(raw0, now)];
    RunTwo(w, s, es);
    var a := Step(w, s, es[0]);
    var b := StreamingMessage(raw1, 1, now, 0);
    assert a == s.(turn := 1, acks := [AckOf(m1)], incoming := map[1 := b]);
    FirstTakesIt(w, a, m0);
    var t := Advance(InOrder(w, a, m0), m0);
    assert Buffered(w, t, b) == Advance(t, m1).(incoming := map[]);
    assert Drain(w, t) == Buffered(w, t, b);
  }

  /** The first output message of a shell session that nobody negotiated. */
  lemma FirstTakesIt(w: World, s: State, m: ClientMessage)
    requires !s.failed && s.session == Initial(0, 0).session && m.payloadType == OUTPUT && w.sendOk(s.turn)
    ensures InOrder(w, s, m) ==
            s.(turn := s.turn + 1, acks := s.acks + [AckOf(m)],
               session := s.session.(handlers := [], sessionType := StandardStream, calls := [Call(First, m)]))
  {
    assert Dispatch(w, s.session, m) == DispatchFrom(w, s.session, [First], 0, Verdict(false, false), m);
    assert Removed([First], First) == [];
  }

  // ---------- Over every run ----------

  /** Encryption is never on without keys, and a session type once set stays set. */
  ghost predicate Sound(before: Session, after: Session) {
    && (after.encryptionEnabled ==> after.encrypter.Some?)
    && (before.sessionType != Unset ==> after.sessionType != Unset)
    && (before.encryptionEnabled ==> after.encryptionEnabled)
  }

  ghost predicate HasKeys(s: Session) {
    s.encryptionEnabled ==> s.encrypter.Some?
  }

  lemma {:induction false} ActionsSound(w: World, s: State, actions: seq<RequestedAction>, resp: HandshakeResponse)
    requires HasKeys(s.session)
    ensures Sound(s.session, ProcessActions(w, s, actions, resp).0.session)
    decreases |actions|
  {
    if actions != [] {
      var (s', p) := ProcessAction(w, s, actions[0]);
      var errors := if p.error.Some? then resp.errors + [p.error.value] else resp.errors;
      ActionsSound(w, s', actions[1..], HandshakeResponse(resp.processed + [p], errors));
    }
  }

  /**
   Draining negotiates nothing, whatever the payload types: a handshake or challenge that was buffered goes to the
   stream handlers instead.
   */
  lemma {:induction false} DrainNegotiatesNothing(w: World, s: State)
    requires Keyed(s.incoming)
    ensures Unnegotiated(s.session, Drain(w, s).session)
    decreases |s.incoming|
  {
    if !s.failed && s.expected in s.incoming && s.incoming[s.expected].content != [] {
      var b := s.incoming[s.expected];
      var s' := Buffered(w, s, b);
      BufferedSound(w, s, b);
      if !s'.failed {
        assert s'.incoming.Keys == s.incoming.Keys - {s.expected};
        DrainNegotiatesNothing(w, s');
      }
    }
  }

  lemma BufferedSound(w: World, s: State, b: StreamingMessage)
    ensures Unnegotiated(s.session, Buffered(w, s, b).session)
  {
    if w.decode(b.content).Ok? {
      HandOverExtends(w, s.session, w.decode(b.content).value);
    }
  }

  lemma InOrderSound(w: World, s: State, m: ClientMessage)
    requires HasKeys(s.session)
    ensures Sound(s.session, InOrder(w, s, m).session)
  {
    if !Control(m.payloadType) {
      HandOverExtends(w, s.session, m);
    } else if m.payloadType == HANDSHAKE_REQUEST {
      HandshakeSound(w, SendAck(w, s, m), m);
    }
  }

  lemma HandshakeSound(w: World, s: State, m: ClientMessage)
    requires HasKeys(s.session)
    ensures Sound(s.session, Handshake(w, s, m).session)
  {
    if w.parseHandshake(m.payload).Some? {
      var req := w.parseHandshake(m.payload).value;
      var s' := s.(session := s.session.(agentVersion := req.agentVersion));
      ActionsSound(w, s', req.actions, HandshakeResponse([], []));
    }
  }

  lemma StepSound(w: World, s: State, e: Event)
    requires Keyed(s.incoming) && HasKeys(s.session)
    ensures Sound(s.session, Step(w, s, e).session)
  {
    if e.Arrive? && !s.failed && w.decode(e.raw).Ok? {
      var m := w.decode(e.raw).value;
      if w.validate(m) && m.messageType == OUTPUT_STREAM {
        OutputSound(w, s, m, e.raw, e.now);
      }
    }
  }

  lemma OutputSound(w: World, s: State, m: ClientMessage, raw: seq<byte>, now: real)
    requires Keyed(s.incoming) && HasKeys(s.session)
    ensures Sound(s.session, HandleOutput(w, s, m, raw, now).session)
  {
    if m.sequenceNumber == s.expected {
      InOrderSound(w, s, m);
      var s' := InOrder(w, s, m);
      if !s'.failed {
        DrainNegotiatesNothing(w, Advance(s', m));
      }
    }
  }

  /** From any point of any run to any later point: encryption implies keys, and what was settled stays settled. */
  lemma {:induction false} RunSound(w: World, s: State, es: seq<Event>)
    requires Keyed(s.incoming) && HasKeys(s.session)
    ensures Sound(s.session, Run(w, s, es).session)
    decreases |es|
  {
    if es != [] {
      StepSound(w, s, es[0]);
      RunSound(w, Step(w, s, es[0]), es[1..]);
    }
  }

  /** So opening a message never dereferences a missing encrypter, in any state reachable from the start. */
  lemma OpeningHasKeys(w: World, inCap: nat, outCap: nat, es: seq<Event>)
    ensures HasKeys(Run(w, Initial(inCap, outCap), es).session)
  {
    RunSound(w, Initial(inCap, outCap), es);
  }
}
