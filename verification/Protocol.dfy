/**
 The data channel as a state machine on values: what each operation of DataChannel does to its state.

 Everything the channel cannot determine itself is a parameter in `World`: the codec, the link, clocks and
 random values, the handlers' answers, and JSON payloads as already parsed. Answers that may vary from one
 use to the next are indexed by how often the world was consulted, so a statement for all worlds covers
 every behaviour of the environment.
 */
module Protocol {
  import opened Wrappers
  import opened Bytes
  import opened Fields
  import opened Codec
  import opened Encryption
  import opened Buffers
  import opened Estimator

  const OUTPUT := 1
  const HANDSHAKE_REQUEST := 5
  const HANDSHAKE_RESPONSE := 6
  const HANDSHAKE_COMPLETE := 7
  const ENC_CHALLENGE_REQUEST := 8
  const ENC_CHALLENGE_RESPONSE := 9
  const STD_ERR := 11
  const EXIT_CODE := 12

  const RESEND_MAX_ATTEMPT := 3000

  // ---------- Data ----------

  datatype StreamingMessage = StreamingMessage(
    content: seq<byte>, sequenceNumber: int, lastSentTime: real, resendAttempt: nat)

  /** `First` is firstMessageHandler; the others are registered by session plugins. */
  datatype Handler = First | Plugin(id: nat)

  datatype Verdict = Verdict(ready: bool, failed: bool)

  /** One invocation of a handler. */
  datatype Call = Call(handler: Handler, message: ClientMessage)

  datatype SessionType = Unset | StandardStream | Port

  /** Handlers, session type and encryption, and the log of handler calls. */
  datatype Session = Session(
    handlers: seq<Handler>,
    sessionType: SessionType,
    specificHandlerSet: bool,
    encrypter: Option<Keys>,
    encryptionEnabled: bool,
    agentVersion: string,
    calls: seq<Call>)

  /** What a caller handed to SendInputDataMessage, the keys it was encrypted under, if any, and when it was sent. */
  datatype Submission = Submission(payloadType: uint32, data: seq<byte>, keys: Option<Keys>, at: real)

  /** A message that was transmitted but is not in the outgoing buffer yet. */
  datatype InFlight = InFlight(message: StreamingMessage, submission: Submission, counted: bool)

  /**
   The sending side. `submitted[k]` is what went out under number k; `acked` and `evicted` are the numbers
   that left the buffer, through an acknowledgement or to make room.
   */
  datatype Sender = Sender(
    next: int,
    outgoing: seq<StreamingMessage>,
    capacity: nat,
    timer: Timer,
    inFlight: Option<InFlight>,
    submitted: seq<Submission>,
    acked: set<int>,
    evicted: set<int>)

  datatype Ack = Ack(messageType: seq<byte>, messageId: Uuid, sequenceNumber: int)

  /** The whole channel. `consumed` logs the messages the expected number has passed. */
  datatype State = State(
    session: Session,
    sender: Sender,
    expected: int,
    incoming: map<int, StreamingMessage>,
    capacity: nat,
    consumed: seq<ClientMessage>,
    acks: seq<Ack>,
    frames: seq<seq<byte>>,
    turn: nat,
    gaveUp: bool,
    failed: bool)

  datatype ActionType = KmsEncryption | SessionTypeRequest | OtherAction(name: string)

  datatype RequestedAction = RequestedAction(actionType: ActionType, parameters: seq<byte>)

  datatype HandshakeRequest = HandshakeRequest(agentVersion: string, actions: seq<RequestedAction>)

  datatype ActionStatus = NoStatus | Success | Failed | Unsupported

  datatype ActionResult = NoResult | KmsResult(cipherTextKey: seq<byte>) | StatusResult(status: ActionStatus)

  datatype ProcessedAction = ProcessedAction(
    actionType: ActionType, status: ActionStatus, result: ActionResult, error: Option<Error>)

  datatype HandshakeResponse = HandshakeResponse(processed: seq<ProcessedAction>, errors: seq<Error>)

  datatype DataKey = DataKey(cipherText: seq<byte>, plainText: seq<byte>)

  datatype World = World(
    // the codec
    decode: seq<byte> -> Result<ClientMessage>,
    encode: ClientMessage -> Result<seq<byte>>,
    validate: ClientMessage -> bool,
    aead: Aead,
    // the link, random values and the clock, by turn
    sendOk: nat -> bool,
    uuid: nat -> Uuid,
    date: nat -> uint64,
    nonce: nat -> Nonce,
    clock: nat -> real,
    // the plugins' answers, by number of the call
    plugin: (nat, Handler, ClientMessage) -> Verdict,
    // JSON payloads; `closed` also covers the stop handler
    parseAck: seq<byte> -> Option<int>,
    parseHandshake: seq<byte> -> Option<HandshakeRequest>,
    parseComplete: seq<byte> -> bool,
    parseChallenge: seq<byte> -> Option<seq<byte>>,
    closed: seq<byte> -> bool,
    parseKms: seq<byte> -> Option<string>,
    parseSessionType: seq<byte> -> Option<PluginName>,
    responseJson: HandshakeResponse -> seq<byte>,
    challengeJson: seq<byte> -> seq<byte>,
    // KMS, by turn
    dataKey: (nat, string) -> Option<DataKey>)

  // ---------- Handlers ----------

  /** The first index from `from` on that holds `h`, or the length. */
  function IndexFrom(hs: seq<Handler>, h: Handler, from: nat): (i: nat)
    requires from <= |hs|
    ensures from <= i <= |hs| && (i < |hs| ==> hs[i] == h)
    ensures forall j :: from <= j < i ==> hs[j] != h
    decreases |hs| - from
  {
    if from == |hs| || hs[from] == h then from else IndexFrom(hs, h, from + 1)
  }

  function IndexOf(hs: seq<Handler>, h: Handler): (i: nat)
    ensures i <= |hs| && (i < |hs| ==> hs[i] == h)
    ensures forall j :: 0 <= j < i ==> hs[j] != h
  {
    IndexFrom(hs, h, 0)
  }

  function Removed(hs: seq<Handler>, h: Handler): seq<Handler> {
    var i := IndexOf(hs, h);
    if i == |hs| then hs else hs[..i] + hs[i + 1..]
  }

  /**
   The array behind the handler slice after removing `h` from the first `n` elements: what follows moves
   down by one, in place, and the old last element stays where it was.
   */
  function Shifted(backing: seq<Handler>, n: nat, h: Handler): (r: seq<Handler>)
    requires n <= |backing|
    ensures |r| == |backing|
  {
    var i := IndexOf(backing[..n], h);
    if i == n then backing else backing[..i] + backing[i + 1..n] + backing[n - 1..]
  }

  /** firstMessageHandler: deregisters itself and may take the message as the start of a shell session. */
  function InvokeFirst(s: Session, m: ClientMessage): Session {
    s.(handlers := Removed(s.handlers, First),
       sessionType := if s.sessionType == Unset && m.payloadType == OUTPUT then StandardStream else s.sessionType,
       calls := s.calls + [Call(First, m)])
  }

  /** Continues the range loop at index `i` of the array that backed the slice when the loop began. */
  function DispatchFrom(w: World, s: Session, backing: seq<Handler>, i: nat, v: Verdict, m: ClientMessage)
    : (r: (Session, Verdict))
    requires i <= |backing| && |s.handlers| <= |backing|
    decreases |backing| - i
  {
    if i == |backing| then (s, v)
    else if backing[i] == First then
      DispatchFrom(w, InvokeFirst(s, m), Shifted(backing, |s.handlers|, First), i + 1, Verdict(true, false), m)
    else
      var v' := w.plugin(|s.calls|, backing[i], m);
      var s' := s.(calls := s.calls + [Call(backing[i], m)]);
      if v'.failed || !v'.ready then (s', v') else DispatchFrom(w, s', backing, i + 1, v', m)
  }

  /** processOutputMessageWithHandlers */
  function Dispatch(w: World, s: Session, m: ClientMessage): (Session, Verdict) {
    if s.sessionType != Unset && !s.specificHandlerSet then (s, Verdict(false, false))
    else DispatchFrom(w, s, s.handlers, 0, Verdict(false, false), m)
  }

  function Registered(s: Session, h: Handler, specific: bool): Session {
    s.(handlers := s.handlers + [h], specificHandlerSet := specific)
  }

  predicate Encrypts(payloadType: uint32) {
    payloadType == OUTPUT || payloadType == STD_ERR || payloadType == EXIT_CODE
  }

  /** The message as handlers see it. A missing encrypter would be a nil dereference. */
  function Opened(w: World, s: Session, m: ClientMessage): Result<ClientMessage> {
    if s.encryptionEnabled && Encrypts(m.payloadType) then
      match s.encrypter
      case None => Err(Panic)
      case Some(keys) =>
        match Decrypted(w.aead, keys, m.payload)
        case Err(e) => Err(e)
        case Ok(plain) => Ok(m.(payload := plain))
    else Ok(m)
  }

  // ---------- Sending ----------

  /** A lone newline is sent as a carriage return. */
  function EnterKey(data: seq<byte>): seq<byte> {
    if data == [10] then [13] else data
  }

  /** Phase one of a send: the number is loaded and the message is on the wire. */
  function Transmitted(s: Sender, content: seq<byte>, at: real, sub: Submission): Sender {
    s.(inFlight := Some(InFlight(StreamingMessage(content, s.next, at, 0), sub, false)))
  }

  /** Phase two: the counter moves on. */
  function Counted(s: Sender): Sender
    requires s.inFlight.Some?
  {
    s.(next := s.next + 1, submitted := s.submitted + [s.inFlight.value.submission],
       inFlight := Some(s.inFlight.value.(counted := true)))
  }

  /** Phase three: the message enters the buffer, the oldest making room. */
  function Recorded(s: Sender): Sender
    requires s.inFlight.Some?
  {
    s.(outgoing := Pushed(s.outgoing, s.capacity, s.inFlight.value.message),
       evicted := if |s.outgoing| == s.capacity && s.outgoing != [] then s.evicted + {s.outgoing[0].sequenceNumber}
                  else s.evicted,
       inFlight := None)
  }

  function Sent(s: Sender, content: seq<byte>, at: real, sub: Submission): Sender {
    Recorded(Counted(Transmitted(s, content, at, sub)))
  }

  function HasNumber(number: int): StreamingMessage -> bool {
    (m: StreamingMessage) => m.sequenceNumber == number
  }

  /** processAcknowledgedMessage at time `now` */
  function Acknowledged(s: Sender, number: int, now: real): Sender {
    match Find(s.outgoing, HasNumber(number))
    case None => s
    case Some(m) =>
      s.(outgoing := RemoveFirst(s.outgoing, HasNumber(number)), acked := s.acked + {number},
         timer := Sample(s.timer, now - m.lastSentTime))
  }

  function Fail(s: State): State {
    s.(failed := true)
  }

  /** The payload to send and the keys used, if encryption applies. */
  function Sealing(w: World, s: State, payloadType: uint32, data: seq<byte>): (Result<seq<byte>>, Option<Keys>) {
    if s.session.encryptionEnabled && payloadType == OUTPUT then
      match s.session.encrypter
      case None => (Err(Panic), None)
      case Some(keys) => (Encrypted(w.aead, keys, w.nonce(s.turn), EnterKey(data)), Some(keys))
    else (Ok(EnterKey(data)), None)
  }

  /** A 64-bit counter's value: it wraps around at either end of the range. */
  function Wrap64(n: int): (v: int64)
    ensures -0x8000_0000_0000_0000 <= n <= MAX_INT64 ==> v == n
    ensures (n - v) % TWO_64 == 0
    decreases if n > MAX_INT64 then n - MAX_INT64
              else if n < -0x8000_0000_0000_0000 then -0x8000_0000_0000_0000 - n
              else 0
  {
    if n > MAX_INT64 then Wrap64(n - TWO_64)
    else if n < -0x8000_0000_0000_0000 then Wrap64(n + TWO_64)
    else n
  }

  function InputMessage(w: World, s: State, payloadType: uint32, payload: seq<byte>): ClientMessage {
    ClientMessage(0, INPUT_STREAM, 1, w.date(s.turn), Wrap64(s.sender.next), 0, w.uuid(s.turn), [], payloadType, 0,
                  payload)
  }

  /** The receiving side is the same in both states. */
  predicate SameReceiver(s: State, r: State) {
    r.expected == s.expected && r.incoming == s.incoming && r.capacity == s.capacity && r.consumed == s.consumed
  }

  /** The sending side is the same in both states. */
  predicate SameSender(s: State, r: State) {
    r.sender == s.sender && r.frames == s.frames && r.gaveUp == s.gaveUp
  }

  /** On the sending side nothing but submissions happened. */
  predicate OnlySent(s: State, r: State) {
    && s.sender.submitted <= r.sender.submitted
    && r.sender.acked == s.sender.acked
    && r.sender.timer == s.sender.timer
  }

  /** The bytes that reach the wire, if serializing and sending succeed. */
  function OnTheWire(w: World, s: State, payloadType: uint32, payload: Result<seq<byte>>): Option<seq<byte>> {
    if payload.Err? then None
    else
      match w.encode(InputMessage(w, s, payloadType, payload.value))
      case Err(_) => None
      case Ok(content) => if w.sendOk(s.turn) then Some(content) else None
  }

  /** The rest of a send, once it is known what reached the wire; `failed` reports its error. */
  function SendContent(w: World, s: State, content: Option<seq<byte>>, sub: Submission): (r: State)
    ensures SameReceiver(s, r) && r.acks == s.acks && r.session == s.session && (s.failed ==> r.failed)
    ensures r.gaveUp == s.gaveUp && OnlySent(s, r)
  {
    var s' := s.(turn := s.turn + 1);
    match content
    case None => Fail(s')
    case Some(bytes) => s'.(frames := s.frames + [bytes], sender := Sent(s.sender, bytes, w.clock(s.turn), sub))
  }

  /** SendInputDataMessage, uninterrupted. */
  function SendInput(w: World, s: State, payloadType: uint32, data: seq<byte>): (r: State)
    ensures SameReceiver(s, r) && r.acks == s.acks && r.session == s.session && (s.failed ==> r.failed)
    ensures r.gaveUp == s.gaveUp && OnlySent(s, r)
  {
    var (payload, keys) := Sealing(w, s, payloadType, data);
    SendContent(w, s, OnTheWire(w, s, payloadType, payload), Submission(payloadType, data, keys, w.clock(s.turn)))
  }

  /** sendAcknowledgeMessage */
  function SendAck(w: World, s: State, m: ClientMessage): (r: State)
    ensures SameReceiver(s, r) && r.session == s.session && SameSender(s, r)
    ensures r == Fail(s.(turn := s.turn + 1)) || (!s.failed ==> !r.failed && r.acks == s.acks + [AckOf(m)])
  {
    var s' := s.(turn := s.turn + 1);
    if w.sendOk(s.turn) then s'.(acks := s.acks + [AckOf(m)]) else Fail(s')
  }

  function AckOf(m: ClientMessage): Ack {
    Ack(m.messageType, m.messageId, m.sequenceNumber)
  }

  /** One round of the resend scheduler: it works on a copy of the front, so the buffer keeps its entry. */
  function ResendTick(w: World, s: State, now: real): State {
    if s.gaveUp || s.sender.outgoing == [] then s
    else
      var front := s.sender.outgoing[0];
      if now - front.lastSentTime <= s.sender.timer.timeout then s
      else if front.resendAttempt >= RESEND_MAX_ATTEMPT then s.(gaveUp := true)
      else
        s.(turn := s.turn + 1, frames := if w.sendOk(s.turn) then s.frames + [front.content] else s.frames)
  }

  // ---------- Handshake ----------

  /** Nothing but the session type, the encryption and the turn differs. */
  predicate OnlyNegotiated(s: State, r: State) {
    r == s.(turn := r.turn, session := s.session.(sessionType := r.session.sessionType,
                                                  encrypter := r.session.encrypter,
                                                  encryptionEnabled := r.session.encryptionEnabled))
  }

  /** ProcessKMSEncryptionHandshakeAction */
  function KmsAction(w: World, s: State, a: RequestedAction): (State, ProcessedAction) {
    match w.parseKms(a.parameters)
    case None => (s, ProcessedAction(a.actionType, Failed, NoResult, Some(Invalid)))
    case Some(keyId) =>
      match w.dataKey(s.turn, keyId)
      case None => (s.(turn := s.turn + 1), ProcessedAction(a.actionType, Failed, NoResult, Some(Invalid)))
      case Some(key) =>
        (s.(turn := s.turn + 1,
            session := s.session.(encrypter := Some(SplitKey(key.plainText)), encryptionEnabled := true)),
         ProcessedAction(a.actionType, Success, KmsResult(key.cipherText), None))
  }

  datatype PluginName =
    | StandardStreamName
    | InteractiveCommandsName
    | NonInteractiveCommandsName
    | PortName
    | OtherPlugin(name: string)

  function TypeOf(name: PluginName): SessionType {
    match name
    case StandardStreamName => StandardStream
    case InteractiveCommandsName => StandardStream
    case NonInteractiveCommandsName => StandardStream
    case PortName => Port
    case OtherPlugin(_) => Unset
  }

  /** ProcessSessionTypeHandshakeAction */
  function SessionTypeAction(w: World, s: State, a: RequestedAction): (State, ProcessedAction) {
    match w.parseSessionType(a.parameters)
    case None => (s, ProcessedAction(a.actionType, Failed, NoResult, Some(Invalid)))
    case Some(name) =>
      if TypeOf(name) == Unset then (s, ProcessedAction(a.actionType, Failed, NoResult, Some(Invalid)))
      else
        (s.(session := s.session.(sessionType := TypeOf(name))),
         ProcessedAction(a.actionType, Success, NoResult, None))
  }

  /** An unsupported action is marked in its result; its status is left unset. */
  function ProcessAction(w: World, s: State, a: RequestedAction): (r: (State, ProcessedAction))
    ensures OnlyNegotiated(s, r.0)
  {
    match a.actionType
    case KmsEncryption => KmsAction(w, s, a)
    case SessionTypeRequest => SessionTypeAction(w, s, a)
    case OtherAction(_) => (s, ProcessedAction(a.actionType, NoStatus, StatusResult(Unsupported), Some(Invalid)))
  }

  function ProcessActions(w: World, s: State, actions: seq<RequestedAction>, resp: HandshakeResponse)
    : (r: (State, HandshakeResponse))
    ensures OnlyNegotiated(s, r.0)
    decreases |actions|
  {
    if actions == [] then (s, resp)
    else
      var (s', p) := ProcessAction(w, s, actions[0]);
      var errors := if p.error.Some? then resp.errors + [p.error.value] else resp.errors;
      ProcessActions(w, s', actions[1..], HandshakeResponse(resp.processed + [p], errors))
  }

  /** handleHandshakeRequest */
  function Handshake(w: World, s: State, m: ClientMessage): (r: State)
    ensures SameReceiver(s, r) && r.acks == s.acks && (s.failed ==> r.failed)
    ensures r.session.calls == s.session.calls && r.session.handlers == s.session.handlers
    ensures OnlySent(s, r)
  {
    match w.parseHandshake(m.payload)
    case None => Fail(s)
    case Some(req) =>
      var s' := s.(session := s.session.(agentVersion := req.agentVersion));
      var (s'', resp) := ProcessActions(w, s', req.actions, HandshakeResponse([], []));
      SendInput(w, s'', HANDSHAKE_RESPONSE, w.responseJson(resp))
  }

  /** The challenge decrypted and encrypted again; a missing encrypter would be a nil dereference. */
  function ChallengeAnswer(w: World, s: State, m: ClientMessage): Option<seq<byte>> {
    if w.parseChallenge(m.payload).None? || s.session.encrypter.None? then None
    else
      match Decrypted(w.aead, s.session.encrypter.value, w.parseChallenge(m.payload).value)
      case Err(_) => None
      case Ok(plain) =>
        match Encrypted(w.aead, s.session.encrypter.value, w.nonce(s.turn), plain)
        case Err(_) => None
        case Ok(answer) => Some(answer)
  }

  /** handleEncryptionChallengeRequest */
  function Challenge(w: World, s: State, m: ClientMessage): (r: State)
    ensures SameReceiver(s, r) && r.acks == s.acks && (s.failed ==> r.failed) && r.session == s.session
    ensures OnlySent(s, r)
  {
    Answer(w, s, ChallengeAnswer(w, s, m))
  }

  function Answer(w: World, s: State, answer: Option<seq<byte>>): (r: State)
    ensures SameReceiver(s, r) && r.acks == s.acks && (s.failed ==> r.failed) && r.session == s.session
    ensures OnlySent(s, r)
  {
    match answer
    case None => Fail(s)
    case Some(text) => SendInput(w, s.(turn := s.turn + 1), ENC_CHALLENGE_RESPONSE, w.challengeJson(text))
  }

  // ---------- Receiving ----------

  /** A message opened and handed to the handlers; a failed decryption counts as a failure. */
  function HandOver(w: World, s: Session, m: ClientMessage): (Session, Verdict) {
    match Opened(w, s, m)
    case Err(_) => (s, Verdict(false, true))
    case Ok(plain) => Dispatch(w, s, plain)
  }

  /** handleDefaultOutputMessage: acknowledged only when a handler took it. */
  function Default(w: World, s: State, m: ClientMessage): (r: State)
    ensures SameReceiver(s, r) && SameSender(s, r) && (s.failed ==> r.failed)
    ensures r.acks == s.acks || r.acks == s.acks + [AckOf(m)]
  {
    var (session, v) := HandOver(w, s.session, m);
    var s' := s.(session := session);
    if v.failed then Fail(s')
    else if !v.ready then s'
    else SendAck(w, s', m)
  }

  /** Payload types that concern the channel itself. */
  predicate Control(payloadType: uint32) {
    payloadType == HANDSHAKE_REQUEST || payloadType == HANDSHAKE_COMPLETE || payloadType == ENC_CHALLENGE_REQUEST
  }

  /** The switch on the payload type of a message that arrived in its turn. */
  function InOrder(w: World, s: State, m: ClientMessage): (r: State)
    ensures SameReceiver(s, r) && (s.failed ==> r.failed)
    ensures r.acks == s.acks || r.acks == s.acks + [AckOf(m)]
    ensures Control(m.payloadType) ==> r.session.calls == s.session.calls && r.session.handlers == s.session.handlers
    ensures !Control(m.payloadType) ==> r == Default(w, s, m)
    ensures OnlySent(s, r)
  {
    if Control(m.payloadType) then
      var s' := SendAck(w, s, m);
      if s'.failed then s'
      else if m.payloadType == HANDSHAKE_REQUEST then Handshake(w, s', m)
      else if m.payloadType == HANDSHAKE_COMPLETE then (if w.parseComplete(m.payload) then s' else Fail(s'))
      else Challenge(w, s', m)
    else Default(w, s, m)
  }

  /** handleUnexpectedSequenceMessage */
  function Unexpected(w: World, s: State, m: ClientMessage, raw: seq<byte>, now: real): State {
    if m.sequenceNumber > s.expected && |s.incoming| != s.capacity then
      var s' := SendAck(w, s, m);
      if s'.failed then s'
      else s'.(incoming := s.incoming[m.sequenceNumber as int := StreamingMessage(raw, m.sequenceNumber, now, 0)])
    else s
  }

  /** The expected number moves past `m`. */
  function Advance(s: State, m: ClientMessage): State {
    s.(expected := s.expected + 1, consumed := s.consumed + [m])
  }

  /** processBufferedMessage: every payload type goes to the handlers, ready or not, without acknowledgement. */
  function Buffered(w: World, s: State, b: StreamingMessage): (r: State)
    ensures r.capacity == s.capacity && r.acks == s.acks && SameSender(s, r) && (s.failed ==> r.failed)
    ensures r.failed && !s.failed ==> r.expected == s.expected && r.incoming == s.incoming
    ensures !r.failed ==> r.expected == s.expected + 1 && r.incoming == s.incoming - {b.sequenceNumber}
  {
    match w.decode(b.content)
    case Err(_) => Fail(s)
    case Ok(m) =>
      var (session, v) := HandOver(w, s.session, m);
      var s' := s.(session := session);
      if v.failed then Fail(s')
      else Advance(s', m).(incoming := s.incoming - {b.sequenceNumber})
  }

  /** Every entry of the reorder buffer is stored under its own number. */
  ghost predicate Keyed(incoming: map<int, StreamingMessage>) {
    forall k :: k in incoming ==> incoming[k].sequenceNumber == k
  }

  /** ProcessIncomingMessageBufferItems. Content is never nil for an entry that was decoded before. */
  function Drain(w: World, s: State): (r: State)
    requires Keyed(s.incoming)
    ensures Keyed(r.incoming) && r.capacity == s.capacity && r.acks == s.acks && SameSender(s, r)
    decreases |s.incoming|
  {
    if s.failed || s.expected !in s.incoming || s.incoming[s.expected].content == [] then s
    else
      var s' := Buffered(w, s, s.incoming[s.expected]);
      if s'.failed then s'
      else
        assert s'.incoming.Keys == s.incoming.Keys - {s.expected};
        Drain(w, s')
  }

  /** handleOutputMessage */
  function HandleOutput(w: World, s: State, m: ClientMessage, raw: seq<byte>, now: real): (r: State)
    requires Keyed(s.incoming)
    ensures Keyed(r.incoming) && r.capacity == s.capacity
  {
    if m.sequenceNumber != s.expected then Unexpected(w, s, m, raw, now)
    else
      var s' := InOrder(w, s, m);
      if s'.failed then s' else Drain(w, Advance(s', m))
  }

  /** handleAcknowledgeMessage */
  function HandleAck(w: World, s: State, m: ClientMessage, now: real): State {
    match w.parseAck(m.payload)
    case None => Fail(s)
    case Some(number) => s.(sender := Acknowledged(s.sender, number, now))
  }

  /** outputMessageHandler */
  function Handle(w: World, s: State, raw: seq<byte>, now: real): (r: State)
    requires Keyed(s.incoming)
    ensures Keyed(r.incoming) && r.capacity == s.capacity
  {
    match w.decode(raw)
    case Err(_) => Fail(s)
    case Ok(m) =>
      if !w.validate(m) then Fail(s)
      else if m.messageType == OUTPUT_STREAM then HandleOutput(w, s, m, raw, now)
      else if m.messageType == ACKNOWLEDGE then HandleAck(w, s, m, now)
      else if m.messageType == CHANNEL_CLOSED then (if w.closed(m.payload) then s else Fail(s))
      else s
  }

  /** What the listener gets from the link: a frame, the end, or an error after which it tries to reconnect. */
  datatype Read = Received(raw: seq<byte>) | EndOfFile | Broken(reconnected: bool)

  /** One round of listen: after a reconnect it goes on with the nil frame of the failed read. */
  function Listen(w: World, s: State, read: Read, now: real): (r: State)
    requires Keyed(s.incoming)
    ensures Keyed(r.incoming)
  {
    if s.failed then s
    else
      match read
      case Received(raw) => Handle(w, s, raw, now)
      case EndOfFile => Fail(s)
      case Broken(reconnected) => if reconnected then Handle(w, s, [], now) else Fail(s)
  }

  // ---------- Runs ----------

  datatype Event =
    | Arrive(raw: seq<byte>, now: real)
    | Send(payloadType: uint32, data: seq<byte>)
    | Tick(now: real)
    | Register(handler: Handler, specific: bool)

  /** After a failure the listener has stopped; the rest of the program may still call. */
  function Step(w: World, s: State, e: Event): (r: State)
    requires Keyed(s.incoming)
    ensures Keyed(r.incoming) && r.capacity == s.capacity
  {
    match e
    case Arrive(raw, now) => if s.failed then s else Handle(w, s, raw, now)
    case Send(payloadType, data) => SendInput(w, s, payloadType, data).(failed := s.failed)
    case Tick(now) => ResendTick(w, s, now)
    case Register(h, specific) => s.(session := Registered(s.session, h, specific))
  }

  function Run(w: World, s: State, es: seq<Event>): (r: State)
    requires Keyed(s.incoming)
    ensures Keyed(r.incoming) && r.capacity == s.capacity
    decreases |es|
  {
    if es == [] then s else Run(w, Step(w, s, es[0]), es[1..])
  }

  /** NewDataChannel followed by the registration in Open. */
  function Initial(incomingCapacity: nat, outgoingCapacity: nat): (s: State)
    ensures Keyed(s.incoming)
  {
    State(Session([First], Unset, false, None, false, "", []),
          Sender(0, [], outgoingCapacity, INITIAL, None, [], {}, {}),
          0, map[], incomingCapacity, [], [], [], 0, false, false)
  }
}
