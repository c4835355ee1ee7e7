/**
 Field readers (pure) and field writers (in place on a byte array) of the `message` package,
 with the range checks of the `util` package.
 */
module Fields {
  import opened Wrappers
  import opened Bytes

  const INTEGER_LENGTH := 4
  const LONG_LENGTH := 8
  const UUID_LENGTH := 16

  type Uuid = u: seq<byte> | |u| == 16 witness seq(16, _ => 0)

  const NIL_UUID: Uuid := [0, 0, 0, 0, 0, 0, 0, 0, 0, 0, 0, 0, 0, 0, 0, 0]

  // ---------- util/safe.go, at the instantiations the codec uses ----------

  /** `SafeUint32[int]` */
  function SafeUint32(value: int64): (r: Result<uint32>)
    ensures r.Ok? <==> 0 <= value <= MAX_UINT32
    ensures r.Ok? ==> r.value == value
  {
    if value < 0 then Err(Negative)
    else if value > MAX_UINT32 then Err(Overflow)
    else Ok(value)
  }

  /** `SafeInt32[uint32]` */
  function SafeInt32(value: uint32): (r: Result<int32>)
    ensures r.Ok? <==> value <= MAX_INT32
    ensures r.Ok? ==> r.value == value
  {
    if value > MAX_INT32 then Err(Overflow) else Ok(value)
  }

  /** `SafeInt64[uint64]` */
  function SafeInt64(value: uint64): (r: Result<int64>)
    ensures r.Ok? <==> value <= MAX_INT64
    ensures r.Ok? ==> r.value == value
  {
    if value > MAX_INT64 then Err(Overflow) else Ok(value)
  }

  // ---------- Trimming ----------

  predicate IsNul(b: byte) { b == 0 }

  /** The ASCII white space that `strings.TrimSpace` removes. */
  predicate IsSpace(b: byte) { 9 <= b <= 13 || b == 32 }

  function TrimLeft(s: seq<byte>, cut: byte -> bool): seq<byte> {
    if s != [] && cut(s[0]) then TrimLeft(s[1..], cut) else s
  }

  function TrimRight(s: seq<byte>, cut: byte -> bool): seq<byte> {
    if s != [] && cut(s[|s| - 1]) then TrimRight(s[..|s| - 1], cut) else s
  }

  function Trim(s: seq<byte>, cut: byte -> bool): seq<byte> {
    TrimRight(TrimLeft(s, cut), cut)
  }

  /** What `GetString` makes of the bytes of a field. */
  function FieldText(field: seq<byte>): seq<byte> {
    Trim(Trim(field, IsNul), IsSpace)
  }

  // ---------- Readers ----------

  function GetString(bytes: seq<byte>, offset: int, length: int): (r: Result<seq<byte>>)
    requires length >= 0
    ensures r.Ok? <==> 0 <= offset < |bytes| && offset + length <= |bytes|
    ensures r.Ok? ==> r.value == FieldText(bytes[offset..offset + length])
  {
    if offset > |bytes| - 1 || offset + length - 1 > |bytes| - 1 || offset < 0 then Err(OffsetOutside)
    else Ok(FieldText(bytes[offset..offset + length]))
  }

  function GetInteger(bytes: seq<byte>, offset: int): Result<int32> {
    if offset > |bytes| - 1 || offset + INTEGER_LENGTH > |bytes| || offset < 0 then Err(OffsetOutside)
    else Ok(BytesToInteger(bytes[offset..offset + INTEGER_LENGTH]))
  }

  function GetUInteger(bytes: seq<byte>, offset: int): (r: Result<uint32>)
    ensures r.Ok? ==> r.value <= MAX_INT32
  {
    var v :- GetInteger(bytes, offset);
    if v < 0 then Err(Negative) else Ok(v)
  }

  function GetLong(bytes: seq<byte>, offset: int): Result<int64> {
    if offset > |bytes| - 1 || offset + LONG_LENGTH > |bytes| || offset < 0 then Err(OffsetOutside)
    else Ok(BytesToLong(bytes[offset..offset + LONG_LENGTH]))
  }

  function GetULong(bytes: seq<byte>, offset: int): (r: Result<uint64>)
    ensures r.Ok? ==> r.value <= MAX_INT64
  {
    var v :- GetLong(bytes, offset);
    if v < 0 then Err(Negative) else Ok(v)
  }

  /** The halves of a UUID are stored least significant first. */
  function GetUuid(bytes: seq<byte>, offset: int): Result<Uuid> {
    if offset > |bytes| - 1 || offset + UUID_LENGTH - 1 > |bytes| - 1 || offset < 0 then Err(OffsetOutside)
    else
      var least := GetLong(bytes, offset).value;
      var most := GetLong(bytes, offset + LONG_LENGTH).value;
      Ok(LongToBytes(most) + LongToBytes(least))
  }

  function GetBytes(bytes: seq<byte>, offset: int, length: int): (r: Result<seq<byte>>)
    requires length >= 0
    ensures r.Ok? <==> 0 <= offset < |bytes| && offset + length <= |bytes|
    ensures r.Ok? ==> r.value == bytes[offset..offset + length]
  {
    if offset > |bytes| - 1 || offset + length - 1 > |bytes| - 1 || offset < 0 then Err(OffsetOutside)
    else Ok(bytes[offset..offset + length])
  }

  // ---------- Writers ----------

  /** `buf` with the bytes from `offset` on replaced by `bytes`. */
  function Patch(buf: seq<byte>, offset: int, bytes: seq<byte>): (r: seq<byte>)
    requires 0 <= offset && offset + |bytes| <= |buf|
    ensures |r| == |buf|
  {
    buf[..offset] + bytes + buf[offset + |bytes|..]
  }

  lemma PatchTwice(buf: seq<byte>, offset: int, a: seq<byte>, b: seq<byte>)
    requires 0 <= offset && offset + |a| + |b| <= |buf|
    ensures Patch(Patch(buf, offset, a), offset + |a|, b) == Patch(buf, offset, a + b)
  {
  }

  function Spaces(n: nat): (r: seq<byte>)
    ensures |r| == n && forall i :: 0 <= i < n ==> r[i] == 32
  {
    seq(n, _ => 32)
  }

  /** A text field: the text followed by spaces. */
  function Pad(text: seq<byte>, width: nat): (r: seq<byte>)
    requires |text| <= width
    ensures |r| == width
  {
    text + Spaces(width - |text|)
  }

  lemma PatchPad(buf: seq<byte>, offset: int, text: seq<byte>, width: nat)
    requires 0 <= offset && offset + width <= |buf| && |text| <= width
    ensures Patch(Patch(buf, offset, Spaces(width)), offset, text) == Patch(buf, offset, Pad(text, width))
  {
  }

  /** A UUID as stored: halves swapped. */
  function Swapped(u: Uuid): (r: Uuid) {
    u[8..] + u[..8]
  }

  /** Go's `copy(buf[offset:offset+len(bytes)], bytes)`. */
  method Copy(buf: array<byte>, offset: int, bytes: seq<byte>)
    requires 0 <= offset && offset + |bytes| <= buf.Length
    modifies buf
    ensures buf[..] == Patch(old(buf[..]), offset, bytes)
  {
    forall i | 0 <= i < |bytes| {
      buf[offset + i] := bytes[i];
    }
  }

  method PutInteger(buf: array<byte>, offset: int, value: int32) returns (r: Result<()>)
    modifies buf
    ensures r.Ok? <==> 0 <= offset && offset + INTEGER_LENGTH <= buf.Length
    ensures buf[..] == if r.Ok? then Patch(old(buf[..]), offset, IntegerToBytes(value)) else old(buf[..])
  {
    if offset > buf.Length - 1 || offset + INTEGER_LENGTH > buf.Length || offset < 0 {
      return Err(OffsetOutside);
    }
    Copy(buf, offset, IntegerToBytes(value));
    return Ok(());
  }

  method PutUInteger(buf: array<byte>, offset: int, value: uint32) returns (r: Result<()>)
    modifies buf
    ensures r.Ok? <==> value <= MAX_INT32 && 0 <= offset && offset + INTEGER_LENGTH <= buf.Length
    ensures buf[..] == if r.Ok? then Patch(old(buf[..]), offset, IntegerToBytes(value)) else old(buf[..])
  {
    var safe := SafeInt32(value);
    if safe.Err? {
      return Err(safe.error);
    }
    r := PutInteger(buf, offset, safe.value);
  }

  method PutLong(buf: array<byte>, offset: int, value: int64) returns (r: Result<()>)
    modifies buf
    ensures r.Ok? <==> 0 <= offset && offset + LONG_LENGTH <= buf.Length
    ensures buf[..] == if r.Ok? then Patch(old(buf[..]), offset, LongToBytes(value)) else old(buf[..])
  {
    if offset > buf.Length - 1 || offset + LONG_LENGTH > buf.Length || offset < 0 {
      return Err(OffsetOutside);
    }
    Copy(buf, offset, LongToBytes(value));
    return Ok(());
  }

  method PutULong(buf: array<byte>, offset: int, value: uint64) returns (r: Result<()>)
    modifies buf
    ensures r.Ok? <==> value <= MAX_INT64 && 0 <= offset && offset + LONG_LENGTH <= buf.Length
    ensures buf[..] == if r.Ok? then Patch(old(buf[..]), offset, LongToBytes(value)) else old(buf[..])
  {
    var safe := SafeInt64(value);
    if safe.Err? {
      return Err(safe.error);
    }
    r := PutLong(buf, offset, safe.value);
  }

  method PutString(buf: array<byte>, start: int, end: int, text: seq<byte>) returns (r: Result<()>)
    modifies buf
    ensures r.Ok? <==> 0 <= start <= end < buf.Length && |text| <= end - start + 1
    ensures buf[..] == if r.Ok? then Patch(old(buf[..]), start, Pad(text, end - start + 1)) else old(buf[..])
  {
    if start > buf.Length - 1 || end > buf.Length - 1 || start > end || start < 0 {
      return Err(OffsetOutside);
    }
    if end - start + 1 < |text| {
      return Err(NotEnoughSpace);
    }
    for i := start to end + 1
      invariant forall j :: start <= j < i ==> buf[j] == 32
      invariant forall j :: 0 <= j < buf.Length && !(start <= j < i) ==> buf[j] == old(buf[j])
    {
      buf[i] := 32;
    }
    ghost var width := end - start + 1;
    assert buf[..] == Patch(old(buf[..]), start, Spaces(width));
    PatchPad(old(buf[..]), start, text, width);
    Copy(buf, start, text);
    return Ok(());
  }

  method PutBytes(buf: array<byte>, start: int, end: int, bytes: seq<byte>) returns (r: Result<()>)
    modifies buf
    ensures r.Ok? <==> 0 <= start <= end < buf.Length && |bytes| == end - start + 1
    ensures buf[..] == if r.Ok? then Patch(old(buf[..]), start, bytes) else old(buf[..])
  {
    if start > buf.Length - 1 || end > buf.Length - 1 || start > end || start < 0 {
      return Err(OffsetOutside);
    }
    if end - start + 1 != |bytes| {
      return Err(NotEnoughSpace);
    }
    Copy(buf, start, bytes);
    return Ok(());
  }

  method PutUuid(buf: array<byte>, offset: int, id: Uuid) returns (r: Result<()>)
    modifies buf
    ensures r.Ok? <==> id != NIL_UUID && 0 <= offset && offset + UUID_LENGTH <= buf.Length
    ensures buf[..] == if r.Ok? then Patch(old(buf[..]), offset, Swapped(id)) else old(buf[..])
  {
    if id == NIL_UUID {
      return Err(NilInput);
    }
    if offset > buf.Length - 1 || offset + UUID_LENGTH - 1 > buf.Length - 1 || offset < 0 {
      return Err(OffsetOutside);
    }
    var least := BytesToLong(id[LONG_LENGTH..LONG_LENGTH + LONG_LENGTH]);
    var most := BytesToLong(id[0..LONG_LENGTH]);
    ghost var before := buf[..];
    var _ := PutLong(buf, offset, least);
    var _ := PutLong(buf, offset + LONG_LENGTH, most);
    LongInverse(least, id[8..16]);
    LongInverse(most, id[0..8]);
    PatchTwice(before, offset, id[8..16], id[0..8]);
    assert id[8..16] + id[0..8] == Swapped(id);
    return Ok(());
  }

  // ---------- What the readers recover from what the writers wrote ----------

  /** Unsigned reads succeed exactly inside the input and without the sign bit; the value is what the bytes encode. */
  lemma UnsignedInverse(bytes: seq<byte>, offset: int)
    ensures var r := GetUInteger(bytes, offset);
            && (r.Ok? <==> 0 <= offset && offset + INTEGER_LENGTH <= |bytes| && bytes[offset] < 128)
            && (r.Ok? ==> IntegerToBytes(r.value) == bytes[offset..offset + INTEGER_LENGTH])
    ensures var r := GetULong(bytes, offset);
            && (r.Ok? <==> 0 <= offset && offset + LONG_LENGTH <= |bytes| && bytes[offset] < 128)
            && (r.Ok? ==> LongToBytes(r.value) == bytes[offset..offset + LONG_LENGTH])
  {
    if 0 <= offset && offset + INTEGER_LENGTH <= |bytes| {
      SignBit(bytes[offset..offset + INTEGER_LENGTH]);
      IntegerInverse(0, bytes[offset..offset + INTEGER_LENGTH]);
    }
    if 0 <= offset && offset + LONG_LENGTH <= |bytes| {
      SignBit(bytes[offset..offset + LONG_LENGTH]);
      LongInverse(0, bytes[offset..offset + LONG_LENGTH]);
    }
  }

  /** Reading a stored UUID gives it back, and storing a read UUID gives the bytes back. */
  lemma UuidInverse(bytes: seq<byte>, offset: int)
    requires 0 <= offset && offset + UUID_LENGTH <= |bytes|
    ensures GetUuid(bytes, offset).Ok?
    ensures GetUuid(bytes, offset).value == Swapped(bytes[offset..offset + 16])
    ensures Swapped(GetUuid(bytes, offset).value) == bytes[offset..offset + 16]
  {
    var least, most := bytes[offset..offset + 8], bytes[offset + 8..offset + 16];
    LongInverse(0, least);
    LongInverse(0, most);
  }

  /**
   Texts that survive being stored in a field of `width` bytes: no NUL and no tab, line feed, vertical tab, form feed,
   carriage return or space at the start, none but NUL at the end, and not NUL either when the field is full.
   */
  predicate Storable(text: seq<byte>, width: nat) {
    && |text| <= width
    && (text != [] ==>
          && text[0] !in {0, 9, 10, 11, 12, 13, 32}
          && text[|text| - 1] !in {9, 10, 11, 12, 13, 32}
          && (|text| == width ==> text[|text| - 1] != 0))
  }

  lemma {:induction false} TrimRightSpaces(text: seq<byte>, n: nat)
    ensures TrimRight(text + Spaces(n), IsSpace) == TrimRight(text, IsSpace)
  {
    if n == 0 {
      assert text + Spaces(n) == text;
    } else {
      TrimRightSpaces(text, n - 1);
      var s := text + Spaces(n);
      assert s[..|s| - 1] == text + Spaces(n - 1);
    }
  }

  lemma {:induction false} TrimRightIsPrefix(s: seq<byte>, cut: byte -> bool)
    ensures TrimRight(s, cut) <= s
    ensures TrimRight(s, cut) != [] ==> !cut(TrimRight(s, cut)[|TrimRight(s, cut)| - 1])
  {
    if s != [] && cut(s[|s| - 1]) {
      TrimRightIsPrefix(s[..|s| - 1], cut);
    }
  }

  lemma {:induction false} TrimLeftIsSuffix(s: seq<byte>, cut: byte -> bool)
    ensures |TrimLeft(s, cut)| <= |s| && TrimLeft(s, cut) == s[|s| - |TrimLeft(s, cut)|..]
    ensures TrimLeft(s, cut) != [] ==> !cut(TrimLeft(s, cut)[0])
  {
    if s != [] && cut(s[0]) {
      TrimLeftIsSuffix(s[1..], cut);
    }
  }

  /** Trimming yields a slice, and what the slice may start and end with. */
  lemma TrimShape(s: seq<byte>, cut: byte -> bool) returns (i: nat)
    ensures var d := Trim(s, cut);
            && i + |d| <= |s|
            && d == s[i..i + |d|]
            && (d != [] ==> !cut(d[|d| - 1]))
            && (d != [] ==> !cut(d[0]))
  {
    var a := TrimLeft(s, cut);
    TrimLeftIsSuffix(s, cut);
    TrimRightIsPrefix(a, cut);
    i := |s| - |a|;
  }

  lemma SliceOfSlice(s: seq<byte>, a: nat, b: nat, c: nat, d: nat)
    requires a <= b <= |s| && c <= d <= b - a
    ensures s[a..b][c..d] == s[a + c..a + d]
  {
    var t := s[a..b];
    forall i | 0 <= i < d - c
      ensures t[c..d][i] == s[a + c..a + d][i]
    {
      assert t[c..d][i] == t[c + i] == s[a + (c + i)];
    }
  }

  /** The text of a field is a slice of it, and what the slice may start and end with. */
  lemma FieldTextShape(field: seq<byte>) returns (i: nat)
    ensures var d := FieldText(field);
            && i + |d| <= |field|
            && d == field[i..i + |d|]
            && (d != [] ==> !IsSpace(d[0]) && !IsSpace(d[|d| - 1]))
            && (d != [] && i == 0 ==> !IsNul(d[0]))
            && (d != [] && |d| == |field| ==> !IsNul(d[|d| - 1]))
  {
    var inner := Trim(field, IsNul);
    var j := TrimShape(field, IsNul);
    var k := TrimShape(inner, IsSpace);
    i := j + k;
    SliceOfSlice(field, j, j + |inner|, k, k + |FieldText(field)|);
  }

  lemma StorableSurvives(text: seq<byte>, width: nat)
    requires width > 0 && Storable(text, width)
    ensures FieldText(Pad(text, width)) == text
  {
    var field := Pad(text, width);
    TrimRightSpaces(text, width - |text|);
    if text == [] {
      var i := FieldTextShape(field);
    } else if |text| == width {
      assert field == text;
    } else {
      assert field[|field| - 1] == 32;
    }
  }

  /** A text stored in a field is read back unchanged exactly when it is storable. */
  lemma TextInverse(text: seq<byte>, width: nat)
    requires |text| <= width && width > 0
    ensures FieldText(Pad(text, width)) == text <==> Storable(text, width)
  {
    if Storable(text, width) {
      StorableSurvives(text, width);
    }
    if FieldText(Pad(text, width)) == text != [] {
      var i := FieldTextShape(Pad(text, width));
      // Were anything trimmed on the left, the last byte of the text would be a padding space.
      assert i == 0;
    }
  }
}
