/** Machine integers, bytes, and the big-endian two's-complement forms of `encoding/binary`. */
module Bytes {

  type byte = x: int | 0 <= x < 256

  const MAX_INT32 := 0x7fff_ffff
  const MAX_UINT32 := 0xffff_ffff
  const MAX_INT64 := 0x7fff_ffff_ffff_ffff
  const MAX_UINT64 := 0xffff_ffff_ffff_ffff

  type int32 = x: int | -0x8000_0000 <= x <= MAX_INT32
  type uint32 = x: int | 0 <= x <= MAX_UINT32
  type int64 = x: int | -0x8000_0000_0000_0000 <= x <= MAX_INT64
  type uint64 = x: int | 0 <= x <= MAX_UINT64

  const TWO_32 := 0x1_0000_0000
  const TWO_64 := 0x1_0000_0000_0000_0000

  function Pow256(n: nat): (p: nat)
    ensures p > 0
  {
    if n == 0 then 1 else 256 * Pow256(n - 1)
  }

  /** The `n` low-order bytes of `v`, most significant first. */
  function ToBytes(v: nat, n: nat): (b: seq<byte>)
    ensures |b| == n
  {
    if n == 0 then [] else ToBytes(v / 256, n - 1) + [v % 256]
  }

  function FromBytes(b: seq<byte>): (v: nat)
    ensures v < Pow256(|b|)
  {
    if b == [] then 0 else FromBytes(b[..|b| - 1]) * 256 + b[|b| - 1]
  }

  lemma {:induction false} FromToBytes(v: nat, n: nat)
    requires v < Pow256(n)
    ensures FromBytes(ToBytes(v, n)) == v
  {
    if n > 0 {
      FromToBytes(v / 256, n - 1);
      var b := ToBytes(v, n);
      assert b[..|b| - 1] == ToBytes(v / 256, n - 1);
    }
  }

  lemma {:induction false} ToFromBytes(b: seq<byte>)
    ensures ToBytes(FromBytes(b), |b|) == b
  {
    if b != [] {
      var init := b[..|b| - 1];
      ToFromBytes(init);
      assert FromBytes(b) / 256 == FromBytes(init) && FromBytes(b) % 256 == b[|b| - 1];
      assert b == init + [b[|b| - 1]];
    }
  }

  lemma Powers()
    ensures Pow256(4) == TWO_32 && Pow256(8) == TWO_64
  {
    assert Pow256(2) == 65536;
    assert Pow256(4) == 256 * (256 * Pow256(2));
    assert Pow256(6) == 256 * (256 * Pow256(4));
    assert Pow256(8) == 256 * (256 * Pow256(6));
  }

  /** `IntegerToBytes`: a signed 32-bit integer in two's complement. */
  function IntegerToBytes(v: int32): (b: seq<byte>)
    ensures |b| == 4
  {
    ToBytes(if v < 0 then v + TWO_32 else v, 4)
  }

  function BytesToInteger(b: seq<byte>): (v: int32)
    requires |b| == 4
  {
    Powers();
    var u := FromBytes(b);
    if u > MAX_INT32 then u - TWO_32 else u
  }

  /** `LongToBytes`: a signed 64-bit integer in two's complement. */
  function LongToBytes(v: int64): (b: seq<byte>)
    ensures |b| == 8
  {
    ToBytes(if v < 0 then v + TWO_64 else v, 8)
  }

  function BytesToLong(b: seq<byte>): (v: int64)
    requires |b| == 8
  {
    Powers();
    var u := FromBytes(b);
    if u > MAX_INT64 then u - TWO_64 else u
  }

  /** The 32-bit writer and reader are mutually inverse. */
  lemma IntegerInverse(v: int32, b: seq<byte>)
    requires |b| == 4
    ensures BytesToInteger(IntegerToBytes(v)) == v
    ensures IntegerToBytes(BytesToInteger(b)) == b
  {
    Powers();
    FromToBytes(if v < 0 then v + TWO_32 else v, 4);
    ToFromBytes(b);
  }

  /** The 64-bit writer and reader are mutually inverse. */
  lemma LongInverse(v: int64, b: seq<byte>)
    requires |b| == 8
    ensures BytesToLong(LongToBytes(v)) == v
    ensures LongToBytes(BytesToLong(b)) == b
  {
    Powers();
    FromToBytes(if v < 0 then v + TWO_64 else v, 8);
    ToFromBytes(b);
  }

  /** The leading byte decides between which multiples of its weight the value lies. */
  lemma {:induction false} LeadingByte(b: seq<byte>)
    requires b != []
    ensures b[0] * Pow256(|b| - 1) <= FromBytes(b) < (b[0] + 1) * Pow256(|b| - 1)
  {
    if |b| > 1 {
      var init := b[..|b| - 1];
      LeadingByte(init);
      Scale(b[0], Pow256(|b| - 2));
      Scale(b[0] as int + 1, Pow256(|b| - 2));
    } else {
      assert FromBytes(b[..0]) == 0;
    }
  }

  lemma Scale(x: nat, p: nat)
    ensures x * (256 * p) == (x * p) * 256
  {
  }

  /** A number read is negative exactly when its leading bit is set. */
  lemma SignBit(b: seq<byte>)
    ensures |b| == 4 ==> (BytesToInteger(b) < 0 <==> b[0] >= 128)
    ensures |b| == 8 ==> (BytesToLong(b) < 0 <==> b[0] >= 128)
  {
    Powers();
    if |b| == 4 || |b| == 8 {
      LeadingByte(b);
      assert Pow256(4) == 256 * Pow256(3) && Pow256(8) == 256 * Pow256(7);
    }
  }

  /** What four bytes stand for: the first is the most significant and carries the sign. */
  lemma IntegerValue(b: seq<byte>)
    requires |b| == 4
    ensures BytesToInteger(b) == Value4(b[0], b[1], b[2], b[3]) - if b[0] >= 128 then TWO_32 else 0
  {
    SignBit(b);
    FourBytes(b);
    Powers();
  }

  function Value4(b0: int, b1: int, b2: int, b3: int): int {
    b0 * 0x100_0000 + b1 * 0x1_0000 + b2 * 0x100 + b3
  }

  lemma FourBytes(b: seq<byte>)
    requires |b| == 4
    ensures FromBytes(b) == Value4(b[0], b[1], b[2], b[3])
  {
    assert b[..3][..2] == b[..2] && b[..2][..1] == b[..1] && b[..1][..0] == [];
    var b0: int, b1: int, b2: int := b[0], b[1], b[2];
    assert FromBytes(b[..1]) == b0;
    assert FromBytes(b[..2]) == b0 * 256 + b1;
    assert FromBytes(b[..3]) == (b0 * 256 + b1) * 256 + b2;
  }

  /** What eight bytes stand for: the first four are the more significant half and carry the sign. */
  lemma LongValue(b: seq<byte>)
    requires |b| == 8
    ensures BytesToLong(b) == BytesToInteger(b[..4]) * TWO_32 + Value4(b[4], b[5], b[6], b[7])
  {
    SignBit(b);
    SignBit(b[..4]);
    Powers();
    OneMoreByte(b, 4);
    OneMoreByte(b, 5);
    OneMoreByte(b, 6);
    OneMoreByte(b, 7);
    assert b[..8] == b;
  }

  lemma OneMoreByte(b: seq<byte>, k: nat)
    requires k < |b|
    ensures FromBytes(b[..k + 1]) == FromBytes(b[..k]) * 256 + b[k]
  {
    assert b[..k + 1][..k] == b[..k];
  }
}
