/**
 * Fixed-width big-endian integers, as Java's `ByteBuffer` writes them by default:
 * unsigned values of any width and two's-complement 32-bit `int`s and 64-bit
 * `long`s.
 */
module Bytes {

  type byte = x: int | 0 <= x < 256

  /** Java's `int`. */
  type int32 = x: int | -0x8000_0000 <= x < 0x8000_0000

  /** Java's `long`. */
  type int64 = x: int | -0x8000_0000_0000_0000 <= x < 0x8000_0000_0000_0000

  function Pow256(n: nat): (r: nat)
    ensures r >= 1
  {
    if n == 0 then 1 else 256 * Pow256(n - 1)
  }

  lemma DivStaysBelow(x: nat, n: nat)
    requires n > 0 && x < Pow256(n)
    ensures x / 256 < Pow256(n - 1)
  {
  }

  /** The `n`-byte big-endian encoding of `x`, most significant byte first. */
  function ToBigEndian(x: nat, n: nat): (r: seq<byte>)
    requires x < Pow256(n)
    ensures |r| == n
  {
    if n == 0 then []
    else
      DivStaysBelow(x, n);
      ToBigEndian(x / 256, n - 1) + [x % 256]
  }

  /** The unsigned value of a big-endian byte sequence. */
  function FromBigEndian(bs: seq<byte>): (r: nat)
    ensures r < Pow256(|bs|)
  {
    if bs == [] then 0
    else
      var hi := FromBigEndian(bs[..|bs| - 1]);
      assert hi * 256 <= (Pow256(|bs| - 1) - 1) * 256;
      hi * 256 + bs[|bs| - 1]
  }

  lemma {:induction false} FromToBigEndian(x: nat, n: nat)
    requires x < Pow256(n)
    ensures FromBigEndian(ToBigEndian(x, n)) == x
  {
    if n > 0 {
      DivStaysBelow(x, n);
      var bs := ToBigEndian(x, n);
      assert bs[..n - 1] == ToBigEndian(x / 256, n - 1);
      FromToBigEndian(x / 256, n - 1);
    }
  }

  lemma {:induction false} ToFromBigEndian(bs: seq<byte>)
    ensures ToBigEndian(FromBigEndian(bs), |bs|) == bs
  {
    if bs != [] {
      var n := |bs|;
      var hi := FromBigEndian(bs[..n - 1]);
      var x := FromBigEndian(bs);
      assert x / 256 == hi && x % 256 == bs[n - 1];
      ToFromBigEndian(bs[..n - 1]);
      assert bs == bs[..n - 1] + [bs[n - 1]];
    }
  }

  /** Java's `putInt`: four bytes of the two's-complement value, big-endian. */
  function EncodeInt(x: int32): (r: seq<byte>)
    ensures |r| == 4
  {
    ToBigEndian(if x < 0 then x + 0x1_0000_0000 else x, 4)
  }

  /** Java's `getInt`: reads four big-endian bytes as a two's-complement value. */
  function DecodeInt(bs: seq<byte>): (r: int32)
    requires |bs| == 4
  {
    var u := FromBigEndian(bs);
    if u >= 0x8000_0000 then u - 0x1_0000_0000 else u
  }

  lemma IntRoundTrip(x: int32)
    ensures DecodeInt(EncodeInt(x)) == x
  {
    FromToBigEndian(if x < 0 then x + 0x1_0000_0000 else x, 4);
  }

  lemma IntBytesRoundTrip(bs: seq<byte>)
    requires |bs| == 4
    ensures EncodeInt(DecodeInt(bs)) == bs
  {
    ToFromBigEndian(bs);
  }

  /** Java's `putLong`: eight bytes of the two's-complement value, big-endian. */
  function EncodeLong(x: int64): (r: seq<byte>)
    ensures |r| == 8
  {
    assert Pow256(8) == 0x1_0000_0000_0000_0000;
    ToBigEndian(if x < 0 then x + 0x1_0000_0000_0000_0000 else x, 8)
  }

  /** Java's `getLong`: reads eight big-endian bytes as a two's-complement value. */
  function DecodeLong(bs: seq<byte>): (r: int64)
    requires |bs| == 8
  {
    assert Pow256(8) == 0x1_0000_0000_0000_0000;
    var u := FromBigEndian(bs);
    if u >= 0x8000_0000_0000_0000 then u - 0x1_0000_0000_0000_0000 else u
  }

  lemma LongRoundTrip(x: int64)
    ensures DecodeLong(EncodeLong(x)) == x
  {
    assert Pow256(8) == 0x1_0000_0000_0000_0000;
    FromToBigEndian(if x < 0 then x + 0x1_0000_0000_0000_0000 else x, 8);
  }

  lemma LongBytesRoundTrip(bs: seq<byte>)
    requires |bs| == 8
    ensures EncodeLong(DecodeLong(bs)) == bs
  {
    assert Pow256(8) == 0x1_0000_0000_0000_0000;
    ToFromBigEndian(bs);
  }
}
