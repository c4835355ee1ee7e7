/**
 The ClientMessage frame: a fixed header of 120 bytes followed by the payload.

   | HL | MessageType | Ver | CreatedDate | Seq | Flags | MessageID | Digest | PayType | PayLen | Payload |
   0    4             36    40            48    56      64          80       112       116      120
 */
module Codec {
  import opened Wrappers
  import opened Bytes
  import opened Fields

  const HL_OFFSET := 0
  const MESSAGE_TYPE_OFFSET := 4
  const MESSAGE_TYPE_LENGTH := 32
  const SCHEMA_VERSION_OFFSET := 36
  const CREATED_DATE_OFFSET := 40
  const SEQUENCE_NUMBER_OFFSET := 48
  const FLAGS_OFFSET := 56
  const MESSAGE_ID_OFFSET := 64
  const PAYLOAD_DIGEST_OFFSET := 80
  const PAYLOAD_DIGEST_LENGTH := 32
  const PAYLOAD_TYPE_OFFSET := 112
  const PAYLOAD_LENGTH_OFFSET := 116
  const PAYLOAD_LENGTH_LENGTH := 4
  const PAYLOAD_OFFSET := 120

  // The message types, in ASCII.
  // "input_stream_data"
  const INPUT_STREAM: seq<byte> :=
    [105, 110, 112, 117, 116, 95, 115, 116, 114, 101, 97, 109, 95, 100, 97, 116, 97]
  // "output_stream_data"
  const OUTPUT_STREAM: seq<byte> :=
    [111, 117, 116, 112, 117, 116, 95, 115, 116, 114, 101, 97, 109, 95, 100, 97, 116, 97]
  // "acknowledge"
  const ACKNOWLEDGE: seq<byte> := [97, 99, 107, 110, 111, 119, 108, 101, 100, 103, 101]
  // "channel_closed"
  const CHANNEL_CLOSED: seq<byte> := [99, 104, 97, 110, 110, 101, 108, 95, 99, 108, 111, 115, 101, 100]
  // "start_publication"
  const START_PUBLICATION: seq<byte> := [115, 116, 97, 114, 116, 95, 112, 117, 98, 108, 105, 99, 97, 116, 105, 111, 110]
  // "pause_publication"
  const PAUSE_PUBLICATION: seq<byte> := [112, 97, 117, 115, 101, 95, 112, 117, 98, 108, 105, 99, 97, 116, 105, 111, 110]

  type Digest = d: seq<byte> | |d| == 32 witness seq(32, _ => 0)

  /** SHA-256 is a parameter: any function to 32 bytes. */
  type Sha = seq<byte> -> Digest

  /** A message as a value, the way Go passes it to handlers. Go strings are byte sequences. */
  datatype ClientMessage = ClientMessage(
    headerLength: uint32,
    messageType: seq<byte>,
    schemaVersion: uint32,
    createdDate: uint64,
    sequenceNumber: int64,
    flags: uint64,
    messageId: Uuid,
    payloadDigest: seq<byte>,
    payloadType: uint32,
    payloadLength: uint32,
    payload: seq<byte>)

  // ---------- Specification ----------

  /** The fields up to the message id, in the order in which they are read. */
  datatype Front = Front(
    messageType: seq<byte>, schemaVersion: uint32, createdDate: uint64, sequenceNumber: int64, flags: uint64)

  /** The other fields of the header. */
  datatype Back = Back(
    messageId: Uuid, payloadDigest: seq<byte>, payloadType: uint32, payloadLength: uint32, headerLength: uint32)

  function DecodeFront(input: seq<byte>): Result<Front> {
    var messageType :- GetString(input, MESSAGE_TYPE_OFFSET, MESSAGE_TYPE_LENGTH);
    var schemaVersion :- GetUInteger(input, SCHEMA_VERSION_OFFSET);
    var createdDate :- GetULong(input, CREATED_DATE_OFFSET);
    var sequenceNumber :- GetLong(input, SEQUENCE_NUMBER_OFFSET);
    var flags :- GetULong(input, FLAGS_OFFSET);
    Ok(Front(messageType, schemaVersion, createdDate, sequenceNumber, flags))
  }

  function DecodeBack(input: seq<byte>): (r: Result<Back>)
    ensures r.Ok? ==> r.value.headerLength <= MAX_INT32
  {
    var messageId :- GetUuid(input, MESSAGE_ID_OFFSET);
    var digest :- GetBytes(input, PAYLOAD_DIGEST_OFFSET, PAYLOAD_DIGEST_LENGTH);
    var payloadType :- GetUInteger(input, PAYLOAD_TYPE_OFFSET);
    var payloadLength :- GetUInteger(input, PAYLOAD_LENGTH_OFFSET);
    var headerLength :- GetUInteger(input, HL_OFFSET);
    Ok(Back(messageId, digest, payloadType, payloadLength, headerLength))
  }

  /** The message a frame stands for, or why it stands for none. */
  function Decode(input: seq<byte>): Result<ClientMessage> {
    var f :- DecodeFront(input);
    var b :- DecodeBack(input);
    // the header length is at most MaxInt32, so the uint32 sum does not wrap
    if b.headerLength + PAYLOAD_LENGTH_LENGTH > |input| then Err(Panic)
    else
      Ok(ClientMessage(b.headerLength, f.messageType, f.schemaVersion, f.createdDate, f.sequenceNumber, f.flags,
                       b.messageId, b.payloadDigest, b.payloadType, b.payloadLength,
                       input[b.headerLength + PAYLOAD_LENGTH_LENGTH..]))
  }

  /** Exactly the messages that serialize. */
  predicate Encodable(m: ClientMessage) {
    && |m.messageType| <= MESSAGE_TYPE_LENGTH
    && m.schemaVersion <= MAX_INT32
    && m.createdDate <= MAX_INT64
    && m.flags <= MAX_INT64
    && m.messageId != NIL_UUID
    && m.payloadType <= MAX_INT32
    && 1 <= |m.payload| <= MAX_INT32
  }

  predicate FrontWritable(m: ClientMessage) {
    |m.messageType| <= MESSAGE_TYPE_LENGTH && m.schemaVersion <= MAX_INT32 && m.createdDate <= MAX_INT64
    && m.flags <= MAX_INT64
  }

  predicate BackWritable(m: ClientMessage) {
    m.messageId != NIL_UUID && m.payloadType <= MAX_INT32 && m.payloadLength <= MAX_INT32
  }

  /** The first half of the header, up to the message id. */
  function HeaderFront(m: ClientMessage): (h: seq<byte>)
    requires FrontWritable(m)
    ensures |h| == 64
  {
    IntegerToBytes(116) + Pad(m.messageType, 32) + IntegerToBytes(m.schemaVersion) + LongToBytes(m.createdDate)
    + LongToBytes(m.sequenceNumber) + LongToBytes(m.flags)
  }

  /** The second half of the header. */
  function HeaderBack(sha: Sha, m: ClientMessage): (h: seq<byte>)
    requires BackWritable(m)
    ensures |h| == 56
  {
    Swapped(m.messageId) + sha(m.payload) + IntegerToBytes(m.payloadType) + IntegerToBytes(m.payloadLength)
  }

  function Frame(sha: Sha, m: ClientMessage): (f: seq<byte>)
    requires Encodable(m)
    ensures |f| == PAYLOAD_OFFSET + |m.payload|
  {
    HeaderFront(m) + HeaderBack(sha, Sealed(sha, m)) + m.payload
  }

  function Encode(sha: Sha, m: ClientMessage): (r: Result<seq<byte>>) {
    if Encodable(m) then Ok(Frame(sha, m)) else Err(Invalid)
  }

  /** The message with the fields that serialization computes. */
  function Sealed(sha: Sha, m: ClientMessage): ClientMessage
    requires Encodable(m)
  {
    m.(headerLength := 116, payloadDigest := sha(m.payload), payloadLength := |m.payload|)
  }

  function ValidMessage(sha: Sha, m: ClientMessage): (r: Result<()>)
  {
    if m.messageType == START_PUBLICATION || m.messageType == PAUSE_PUBLICATION then Ok(())
    else if m.headerLength == 0 || m.messageType == [] || m.createdDate == 0 then Err(Invalid)
    else if m.payloadLength != 0 && sha(m.payload) != m.payloadDigest then Err(Invalid)
    else Ok(())
  }

  // ---------- The code ----------

  /** A ClientMessage reached through a pointer receiver. */
  class ClientMessageRef {
    var headerLength: uint32
    var messageType: seq<byte>
    var schemaVersion: uint32
    var createdDate: uint64
    var sequenceNumber: int64
    var flags: uint64
    var messageId: Uuid
    var payloadDigest: seq<byte>
    var payloadType: uint32
    var payloadLength: uint32
    var payload: seq<byte>

    function Value(): ClientMessage
      reads this
    {
      ClientMessage(headerLength, messageType, schemaVersion, createdDate, sequenceNumber, flags, messageId,
                    payloadDigest, payloadType, payloadLength, payload)
    }

    constructor (m: ClientMessage)
      ensures Value() == m
    {
      headerLength, messageType, schemaVersion := m.headerLength, m.messageType, m.schemaVersion;
      createdDate, sequenceNumber, flags := m.createdDate, m.sequenceNumber, m.flags;
      messageId, payloadDigest := m.messageId, m.payloadDigest;
      payloadType, payloadLength, payload := m.payloadType, m.payloadLength, m.payload;
    }

    /** On success every field is overwritten: nothing of an earlier message is left. */
    method Deserialize(input: seq<byte>) returns (r: Result<()>)
      modifies this
      ensures match Decode(input) case Ok(m) => r.Ok? && Value() == m case Err(e) => r == Err(e)
    {
      var _ :- ReadFront(input);
      var _ :- ReadBack(input);
      if headerLength + PAYLOAD_LENGTH_LENGTH > |input| {
        return Err(Panic);
      }
      payload := input[headerLength + PAYLOAD_LENGTH_LENGTH..];
      return Ok(());
    }

    /** Message type to flags. */
    method ReadFront(input: seq<byte>) returns (r: Result<()>)
      modifies this`messageType, this`schemaVersion, this`createdDate, this`sequenceNumber, this`flags
      ensures match DecodeFront(input)
              case Ok(f) => r.Ok? && f == Front(messageType, schemaVersion, createdDate, sequenceNumber, flags)
              case Err(e) => r == Err(e)
    {
      messageType :- GetString(input, MESSAGE_TYPE_OFFSET, MESSAGE_TYPE_LENGTH);
      schemaVersion :- GetUInteger(input, SCHEMA_VERSION_OFFSET);
      createdDate :- GetULong(input, CREATED_DATE_OFFSET);
      sequenceNumber :- GetLong(input, SEQUENCE_NUMBER_OFFSET);
      flags :- GetULong(input, FLAGS_OFFSET);
      return Ok(());
    }

    /** Message id to payload length, then the header length. */
    method ReadBack(input: seq<byte>) returns (r: Result<()>)
      modifies this`messageId, this`payloadDigest, this`payloadType, this`payloadLength, this`headerLength
      ensures match DecodeBack(input)
              case Ok(b) => r.Ok? && b == Back(messageId, payloadDigest, payloadType, payloadLength, headerLength)
              case Err(e) => r == Err(e)
    {
      messageId :- GetUuid(input, MESSAGE_ID_OFFSET);
      payloadDigest :- GetBytes(input, PAYLOAD_DIGEST_OFFSET, PAYLOAD_DIGEST_LENGTH);
      payloadType :- GetUInteger(input, PAYLOAD_TYPE_OFFSET);
      payloadLength :- GetUInteger(input, PAYLOAD_LENGTH_OFFSET);
      headerLength :- GetUInteger(input, HL_OFFSET);
      return Ok(());
    }

    /** Writes the header field by field, front to back, then the payload. */
    method Serialize(sha: Sha) returns (r: Result<seq<byte>>)
      requires |payload| <= MAX_INT64
      modifies this`payloadLength
      ensures r.Ok? <==> Encodable(old(Value()))
      ensures r.Ok? ==> r.value == Frame(sha, old(Value()))
      ensures payloadLength == if |payload| <= MAX_UINT32 then |payload| else old(payloadLength)
    {
      var length :- SafeUint32(|payload|);
      payloadLength := length;
      // uint32 arithmetic: the total wraps for payloads within 120 bytes of 4 GiB
      var total := (PAYLOAD_LENGTH_OFFSET + PAYLOAD_LENGTH_LENGTH + length) % TWO_32;
      assert |payload| <= MAX_INT32 ==> total == PAYLOAD_OFFSET + |payload|;
      var result := new byte[total](_ => 0);

      var _ :- PutHeader(sha, result);
      ghost var header := result[..120];
      var _ :- PutBytes(result, PAYLOAD_OFFSET, PAYLOAD_OFFSET + length - 1, payload);
      assert result[..] == header + payload;
      return Ok(result[..]);
    }

    /** Bytes 0 to 119. */
    method PutHeader(sha: Sha, result: array<byte>) returns (r: Result<()>)
      modifies result
      ensures r.Ok? <==> result.Length >= 120 && FrontWritable(Value()) && BackWritable(Value())
      ensures r.Ok? ==> result[..120] == HeaderFront(Value()) + HeaderBack(sha, Value())
    {
      var _ :- PutFront(result);
      ghost var front := result[..64];
      var _ :- PutBack(sha, result);
      assert result[..120] == front + result[64..120];
      return Ok(());
    }

    /** Header length to flags: bytes 0 to 63. */
    method PutFront(result: array<byte>) returns (r: Result<()>)
      modifies result
      ensures r.Ok? <==> result.Length >= 64 && FrontWritable(Value())
      ensures r.Ok? ==> result[..64] == HeaderFront(Value())
    {
      var _ :- PutUInteger(result, HL_OFFSET, PAYLOAD_LENGTH_OFFSET);
      var _ :- PutString(result, MESSAGE_TYPE_OFFSET, MESSAGE_TYPE_OFFSET + MESSAGE_TYPE_LENGTH - 1, messageType);
      assert result[..36] == IntegerToBytes(116) + Pad(messageType, 32);
      var _ :- PutUInteger(result, SCHEMA_VERSION_OFFSET, schemaVersion);
      assert result[..40] == IntegerToBytes(116) + Pad(messageType, 32) + IntegerToBytes(schemaVersion);
      ghost var done := result[..40];
      var _ :- PutULong(result, CREATED_DATE_OFFSET, createdDate);
      var _ :- PutLong(result, SEQUENCE_NUMBER_OFFSET, sequenceNumber);
      var _ :- PutULong(result, FLAGS_OFFSET, flags);
      assert result[..64] == done + LongToBytes(createdDate) + LongToBytes(sequenceNumber) + LongToBytes(flags);
      return Ok(());
    }

    /** Message id to payload length: bytes 64 to 119. */
    method PutBack(sha: Sha, result: array<byte>) returns (r: Result<()>)
      requires result.Length >= 64
      modifies result
      ensures r.Ok? <==> result.Length >= 120 && BackWritable(Value())
      ensures result[..64] == old(result[..64])
      ensures r.Ok? ==> result[64..120] == HeaderBack(sha, Value())
    {
      var _ :- PutUuid(result, MESSAGE_ID_OFFSET, messageId);
      var _ :- PutBytes(result, PAYLOAD_DIGEST_OFFSET, PAYLOAD_DIGEST_OFFSET + PAYLOAD_DIGEST_LENGTH - 1, sha(payload));
      assert result[64..112] == Swapped(messageId) + sha(payload);
      var _ :- PutUInteger(result, PAYLOAD_TYPE_OFFSET, payloadType);
      var _ :- PutUInteger(result, PAYLOAD_LENGTH_OFFSET, payloadLength);
      assert result[64..120] == result[64..112] + IntegerToBytes(payloadType) + IntegerToBytes(payloadLength);
      return Ok(());
    }

    method Validate(sha: Sha) returns (r: Result<()>)
      ensures r == ValidMessage(sha, Value())
    {
      if START_PUBLICATION == messageType || PAUSE_PUBLICATION == messageType {
        return Ok(());
      }
      if headerLength == 0 {
        return Err(Invalid);
      }
      if messageType == [] {
        return Err(Invalid);
      }
      if createdDate == 0 {
        return Err(Invalid);
      }
      if payloadLength != 0 {
        if sha(payload) != payloadDigest {
          return Err(Invalid);
        }
      }
      return Ok(());
    }
  }
}
