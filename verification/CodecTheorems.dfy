/** What decoding recovers from encoding, and the other way round. */
module CodecTheorems {
  import opened Wrappers
  import opened Bytes
  import opened Fields
  import opened Codec

  /** Where each field lies in a frame. */
  lemma FrontFields(m: ClientMessage, h: seq<byte>)
    requires FrontWritable(m) && HeaderFront(m) <= h
    ensures h[0..4] == IntegerToBytes(116)
    ensures h[4..36] == Pad(m.messageType, 32)
    ensures h[36..40] == IntegerToBytes(m.schemaVersion)
    ensures h[40..48] == LongToBytes(m.createdDate)
    ensures h[48..56] == LongToBytes(m.sequenceNumber)
    ensures h[56..64] == LongToBytes(m.flags)
  {
    var f := HeaderFront(m);
    assert forall i, j :: 0 <= i <= j <= 64 ==> h[i..j] == f[i..j];
  }

  lemma BackFields(sha: Sha, m: ClientMessage, b: seq<byte>)
    requires BackWritable(m) && b == HeaderBack(sha, m)
    ensures b[0..16] == Swapped(m.messageId)
    ensures b[16..48] == sha(m.payload)
    ensures b[48..52] == IntegerToBytes(m.payloadType)
    ensures b[52..56] == IntegerToBytes(m.payloadLength)
  {
  }

  lemma FrameFields(sha: Sha, m: ClientMessage, f: seq<byte>)
    requires Encodable(m) && f == Frame(sha, m)
    ensures HeaderFront(m) <= f
    ensures f[64..80] == Swapped(m.messageId)
    ensures f[80..112] == sha(m.payload)
    ensures f[112..116] == IntegerToBytes(m.payloadType)
    ensures f[116..120] == IntegerToBytes(|m.payload|)
    ensures f[120..] == m.payload
  {
    var b := HeaderBack(sha, Sealed(sha, m));
    BackFields(sha, Sealed(sha, m), b);
    assert f[64..120] == b;
    assert f[64..80] == f[64..120][0..16];
    assert f[80..112] == f[64..120][16..48];
    assert f[112..116] == f[64..120][48..52];
    assert f[116..120] == f[64..120][52..56];
  }

  lemma NumbersInverse(m: ClientMessage)
    requires Encodable(m)
    ensures BytesToInteger(IntegerToBytes(116)) == 116
    ensures BytesToInteger(IntegerToBytes(m.schemaVersion)) == m.schemaVersion
    ensures BytesToLong(LongToBytes(m.createdDate)) == m.createdDate
    ensures BytesToLong(LongToBytes(m.sequenceNumber)) == m.sequenceNumber
    ensures BytesToLong(LongToBytes(m.flags)) == m.flags
    ensures BytesToInteger(IntegerToBytes(m.payloadType)) == m.payloadType
    ensures BytesToInteger(IntegerToBytes(|m.payload|)) == |m.payload|
  {
    IntegerInverse(116, [0, 0, 0, 0]);
    IntegerInverse(m.schemaVersion, [0, 0, 0, 0]);
    LongInverse(m.createdDate, [0, 0, 0, 0, 0, 0, 0, 0]);
    LongInverse(m.sequenceNumber, [0, 0, 0, 0, 0, 0, 0, 0]);
    LongInverse(m.flags, [0, 0, 0, 0, 0, 0, 0, 0]);
    IntegerInverse(m.payloadType, [0, 0, 0, 0]);
    IntegerInverse(|m.payload|, [0, 0, 0, 0]);
  }

  /** Decoding a frame gives back every field; only the text of the type may have been trimmed. */
  lemma DecodeFrame(sha: Sha, m: ClientMessage)
    requires Encodable(m)
    ensures Decode(Frame(sha, m)) == Ok(Sealed(sha, m).(messageType := FieldText(Pad(m.messageType, 32))))
  {
    var f := Frame(sha, m);
    FrameFields(sha, m, f);
    FrontFields(m, f);
    NumbersInverse(m);
    UuidInverse(f, 64);
    assert Swapped(Swapped(m.messageId)) == m.messageId;
  }

  /** The round trip loses nothing exactly when the message type is storable. */
  lemma RoundTrip(sha: Sha, m: ClientMessage)
    requires Encodable(m)
    ensures Decode(Frame(sha, m)) == Ok(Sealed(sha, m)) <==> Storable(m.messageType, 32)
  {
    DecodeFrame(sha, m);
    TextInverse(m.messageType, 32);
  }

  /** Two messages with the same frame agree on everything that is sent. */
  lemma FrameInjective(sha: Sha, m: ClientMessage, n: ClientMessage)
    requires Encodable(m) && Encodable(n) && Storable(m.messageType, 32) && Storable(n.messageType, 32)
    requires Frame(sha, m) == Frame(sha, n)
    ensures Sealed(sha, m) == Sealed(sha, n)
  {
    RoundTrip(sha, m);
    RoundTrip(sha, n);
  }

  /** A sent message passes validation exactly when it has a date and a type, or is a publication notice. */
  lemma SentIsValid(sha: Sha, m: ClientMessage)
    requires Encodable(m) && Storable(m.messageType, 32)
    ensures Decode(Frame(sha, m)).Ok?
    ensures ValidMessage(sha, Decode(Frame(sha, m)).value).Ok? <==>
            m.messageType == START_PUBLICATION || m.messageType == PAUSE_PUBLICATION
            || (m.messageType != [] && m.createdDate != 0)
  {
    RoundTrip(sha, m);
  }

  /** The header fields that must be non-negative are, as two's-complement integers. */
  predicate HeaderReadable(raw: seq<byte>)
    requires |raw| >= 120
  {
    && BytesToInteger(raw[36..40]) >= 0
    && BytesToLong(raw[40..48]) >= 0
    && BytesToLong(raw[56..64]) >= 0
    && BytesToInteger(raw[112..116]) >= 0
    && BytesToInteger(raw[116..120]) >= 0
    && BytesToInteger(raw[0..4]) >= 0
  }

  lemma FrontOutcome(raw: seq<byte>)
    ensures |raw| >= 120 ==>
              (DecodeFront(raw).Ok? <==>
               BytesToInteger(raw[36..40]) >= 0 && BytesToLong(raw[40..48]) >= 0 && BytesToLong(raw[56..64]) >= 0)
    ensures DecodeFront(raw).Err? ==> DecodeFront(raw).error != Panic
  {
  }

  lemma BackOutcome(raw: seq<byte>)
    ensures DecodeBack(raw).Ok? <==>
            && |raw| >= 120
            && BytesToInteger(raw[112..116]) >= 0
            && BytesToInteger(raw[116..120]) >= 0
            && BytesToInteger(raw[0..4]) >= 0
    ensures DecodeBack(raw).Ok? ==> DecodeBack(raw).value.headerLength == BytesToInteger(raw[0..4])
    ensures DecodeBack(raw).Err? ==> DecodeBack(raw).error != Panic
  {
  }

  /** Exactly which inputs decode, and exactly which make the decoder's unchecked slice panic. */
  lemma DecodeOutcome(raw: seq<byte>)
    ensures Decode(raw).Ok? <==>
            |raw| >= 120 && HeaderReadable(raw) && BytesToInteger(raw[0..4]) + 4 <= |raw|
    ensures Decode(raw) == Err(Panic) <==>
            |raw| >= 120 && HeaderReadable(raw) && BytesToInteger(raw[0..4]) + 4 > |raw|
  {
    FrontOutcome(raw);
    BackOutcome(raw);
  }

  /** A frame of 120 bytes that declares a header of 117 is such an input. */
  lemma PanickingFrame()
    ensures Decode(IntegerToBytes(117) + seq(116, _ => 0)) == Err(Panic)
  {
    var raw := IntegerToBytes(117) + seq(116, _ => 0);
    assert raw[0..4] == IntegerToBytes(117);
    IntegerInverse(117, raw[0..4]);
    assert raw[36] == 0 && raw[40] == 0 && raw[56] == 0 && raw[112] == 0 && raw[116] == 0;
    SignBit(raw[36..40]);
    SignBit(raw[40..48]);
    SignBit(raw[56..64]);
    SignBit(raw[112..116]);
    SignBit(raw[116..120]);
    DecodeOutcome(raw);
  }

  /** What each field of a decoded message was read from. */
  predicate ReadFrom(m: ClientMessage, raw: seq<byte>) {
    && |raw| >= 120
    && m.headerLength + 4 <= |raw|
    && m.headerLength == BytesToInteger(raw[0..4])
    && m.messageType == FieldText(raw[4..36])
    && m.schemaVersion == BytesToInteger(raw[36..40])
    && m.createdDate == BytesToLong(raw[40..48])
    && m.sequenceNumber == BytesToLong(raw[48..56])
    && m.flags == BytesToLong(raw[56..64])
    && m.messageId == Swapped(raw[64..80])
    && m.payloadDigest == raw[80..112]
    && m.payloadType == BytesToInteger(raw[112..116])
    && m.payloadLength == BytesToInteger(raw[116..120])
    && m.payload == raw[m.headerLength + 4..]
  }

  lemma DecodeReads(raw: seq<byte>)
    requires Decode(raw).Ok?
    ensures ReadFrom(Decode(raw).value, raw)
  {
    UuidInverse(raw, 64);
  }

  /** Frames in the form that serialization produces. */
  predicate Canonical(sha: Sha, raw: seq<byte>) {
    && 120 < |raw| <= 120 + MAX_INT32
    && raw[0..4] == IntegerToBytes(116)
    && |FieldText(raw[4..36])| <= 32
    && raw[4..36] == Pad(FieldText(raw[4..36]), 32)
    && raw[64..80] != NIL_UUID
    && raw[80..112] == sha(raw[120..])
    && raw[116..120] == IntegerToBytes(|raw| - 120)
  }

  /** Re-encoding a decoded frame gives the identical bytes exactly for the canonical frames. */
  lemma ReEncode(sha: Sha, raw: seq<byte>)
    requires Decode(raw).Ok?
    ensures Encode(sha, Decode(raw).value) == Ok(raw) <==> Canonical(sha, raw)
  {
    DecodeReads(raw);
    ReEncodeRead(sha, raw, Decode(raw).value);
  }

  lemma ReEncodeRead(sha: Sha, raw: seq<byte>, m: ClientMessage)
    requires ReadFrom(m, raw)
    ensures Encode(sha, m) == Ok(raw) <==> Canonical(sha, raw)
  {
    if Canonical(sha, raw) {
      CanonicalReEncodes(sha, raw, m);
    }
    if Encode(sha, m) == Ok(raw) {
      FrameFields(sha, m, raw);
      FrontFields(m, raw);
      SwappedNil(m.messageId);
    }
  }

  lemma SwappedNil(u: Uuid)
    ensures Swapped(u) == NIL_UUID <==> u == NIL_UUID
  {
    var s := Swapped(u);
    assert u == s[8..] + s[..8];
    if s == NIL_UUID {
      assert u == NIL_UUID;
    }
    if u == NIL_UUID {
      assert s == NIL_UUID;
    }
  }

  lemma CanonicalReEncodes(sha: Sha, raw: seq<byte>, m: ClientMessage)
    requires ReadFrom(m, raw) && Canonical(sha, raw)
    ensures Encode(sha, m) == Ok(raw)
  {
    NumbersReEncode(raw, m);
    SwappedNil(m.messageId);
    assert Swapped(m.messageId) == raw[64..80];
    FrontIsSlice(raw, m);
    BackIsSlice(sha, raw, m);
    ThreeParts(raw);
  }

  lemma ThreeParts(raw: seq<byte>)
    requires |raw| >= 120
    ensures raw == raw[..64] + raw[64..120] + raw[120..]
  {
  }

  lemma NumbersReEncode(raw: seq<byte>, m: ClientMessage)
    requires ReadFrom(m, raw)
    ensures m.schemaVersion <= MAX_INT32 && IntegerToBytes(m.schemaVersion) == raw[36..40]
    ensures m.createdDate <= MAX_INT64 && LongToBytes(m.createdDate) == raw[40..48]
    ensures LongToBytes(m.sequenceNumber) == raw[48..56]
    ensures m.flags <= MAX_INT64 && LongToBytes(m.flags) == raw[56..64]
    ensures m.payloadType <= MAX_INT32 && IntegerToBytes(m.payloadType) == raw[112..116]
    ensures raw[0..4] == IntegerToBytes(116) ==> m.headerLength == 116
  {
    IntegerInverse(116, raw[36..40]);
    IntegerInverse(0, raw[112..116]);
    LongInverse(0, raw[40..48]);
    LongInverse(0, raw[48..56]);
    LongInverse(0, raw[56..64]);
  }

  lemma FrontIsSlice(raw: seq<byte>, m: ClientMessage)
    requires |raw| >= 120 && Encodable(m)
    requires raw[0..4] == IntegerToBytes(116) && raw[4..36] == Pad(m.messageType, 32)
    requires raw[36..40] == IntegerToBytes(m.schemaVersion) && raw[40..48] == LongToBytes(m.createdDate)
    requires raw[48..56] == LongToBytes(m.sequenceNumber) && raw[56..64] == LongToBytes(m.flags)
    ensures HeaderFront(m) == raw[..64]
  {
    assert raw[..64] == raw[0..4] + raw[4..36] + raw[36..40] + raw[40..48] + raw[48..56] + raw[56..64];
  }

  lemma BackIsSlice(sha: Sha, raw: seq<byte>, m: ClientMessage)
    requires |raw| >= 120 && Encodable(m)
    requires raw[64..80] == Swapped(m.messageId) && raw[80..112] == sha(m.payload)
    requires raw[112..116] == IntegerToBytes(m.payloadType) && raw[116..120] == IntegerToBytes(|m.payload|)
    ensures HeaderBack(sha, Sealed(sha, m)) == raw[64..120]
  {
    assert raw[64..120] == raw[64..80] + raw[80..112] + raw[112..116] + raw[116..120];
  }

  /** Byte by byte, a UUID is stored with its halves exchanged and each half in order. */
  lemma StoredUuid(sha: Sha, m: ClientMessage, i: nat)
    requires Encodable(m) && i < 8
    ensures Frame(sha, m)[64 + i] == m.messageId[8 + i]
    ensures Frame(sha, m)[72 + i] == m.messageId[i]
  {
    var f := Frame(sha, m);
    FrameFields(sha, m, f);
    assert f[64..80][i] == f[64 + i] && f[64..80][8 + i] == f[72 + i];
  }

  /** The message types by name. */
  lemma MessageTypeNames()
    ensures INPUT_STREAM == Ascii("input_stream_data") && OUTPUT_STREAM == Ascii("output_stream_data")
    ensures ACKNOWLEDGE == Ascii("acknowledge") && CHANNEL_CLOSED == Ascii("channel_closed")
    ensures START_PUBLICATION == Ascii("start_publication") && PAUSE_PUBLICATION == Ascii("pause_publication")
  {
  }

  function Ascii(s: string): (b: seq<byte>)
    requires forall i :: 0 <= i < |s| ==> s[i] < 128 as char
    ensures |b| == |s| && forall i :: 0 <= i < |s| ==> b[i] == s[i] as int
  {
    seq(|s|, i requires 0 <= i < |s| => s[i] as int)
  }

  /**
   The frames a receiver accepts, byte by byte: they decode, and unless they are publication notices they have a header
   length, a type and a date, and the digest of their payload wherever a payload length is declared.
   */
  predicate Accepted(sha: Sha, raw: seq<byte>) {
    && |raw| >= 120 && HeaderReadable(raw)
    && BytesToInteger(raw[0..4]) + 4 <= |raw|
    && (FieldText(raw[4..36]) == START_PUBLICATION || FieldText(raw[4..36]) == PAUSE_PUBLICATION ||
        (&& BytesToInteger(raw[0..4]) != 0
         && FieldText(raw[4..36]) != []
         && BytesToLong(raw[40..48]) != 0
         && (BytesToInteger(raw[116..120]) != 0 ==> raw[80..112] == sha(raw[BytesToInteger(raw[0..4]) + 4..]))))
  }

  /** A frame decodes and passes validation exactly when it is accepted; in particular its digest must be right. */
  lemma AcceptedExactly(sha: Sha, raw: seq<byte>)
    ensures (Decode(raw).Ok? && ValidMessage(sha, Decode(raw).value).Ok?) <==> Accepted(sha, raw)
  {
    DecodeOutcome(raw);
    if Decode(raw).Ok? {
      DecodeReads(raw);
    }
  }
}
