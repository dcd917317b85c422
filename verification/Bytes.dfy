/**
 Bytes and the fixed-width integer encodings used on the wire: big-endian
 `u32` lengths and stream ids in HIP/1, little-endian `u64` lengths on the
 worker pipes.
 */
module Bytes {
  import opened Common

  type byte = b: int | 0 <= b < 256

  const TWO32: nat := 0x1_0000_0000
  const TWO64: nat := 0x1_0000_0000_0000_0000

  function Pow256(k: nat): (p: nat)
    ensures p > 0
  {
    if k == 0 then 1 else 256 * Pow256(k - 1)
  }

  function BigEndian(n: nat, width: nat): (bs: seq<byte>)
    ensures |bs| == width
  {
    if width == 0 then [] else BigEndian(n / 256, width - 1) + [n % 256]
  }

  function FromBigEndian(bs: seq<byte>): nat {
    if bs == [] then 0 else 256 * FromBigEndian(bs[..|bs| - 1]) + bs[|bs| - 1]
  }

  function LittleEndian(n: nat, width: nat): (bs: seq<byte>)
    ensures |bs| == width
  {
    if width == 0 then [] else [n % 256] + LittleEndian(n / 256, width - 1)
  }

  function FromLittleEndian(bs: seq<byte>): nat {
    if bs == [] then 0 else bs[0] + 256 * FromLittleEndian(bs[1..])
  }

  // ---------------------------------------------------------------- digits by position

  /** The first byte of a big-endian field is the most significant one. */
  lemma {:induction false} BigEndianDigit(n: nat, width: nat, i: nat)
    requires i < width
    ensures BigEndian(n, width)[i] == n / Pow256(width - 1 - i) % 256
  {
    if i < width - 1 {
      BigEndianDigit(n / 256, width - 1, i);
      DivTwice(n, 256, Pow256(width - 2 - i));
    }
  }

  /** The first byte of a little-endian field is the least significant one. */
  lemma {:induction false} LittleEndianDigit(n: nat, width: nat, i: nat)
    requires i < width
    ensures LittleEndian(n, width)[i] == n / Pow256(i) % 256
  {
    if i > 0 {
      LittleEndianDigit(n / 256, width - 1, i - 1);
      DivTwice(n, 256, Pow256(i - 1));
    }
  }

  /** Bytes weighted by position, the first one most. */
  function BigTerms(bs: seq<byte>): seq<nat> {
    seq(|bs|, i requires 0 <= i < |bs| => bs[i] * Pow256(|bs| - 1 - i))
  }

  /** Bytes weighted by position, the first one least. */
  function LittleTerms(bs: seq<byte>): seq<nat> {
    seq(|bs|, i requires 0 <= i < |bs| => bs[i] * Pow256(i))
  }

  lemma BigTermsSnoc(init: seq<byte>, last: byte)
    ensures BigTerms(init + [last]) == Scaled(BigTerms(init), 256) + [last]
  {
    var bs := init + [last];
    forall i | 0 <= i < |init| ensures BigTerms(bs)[i] == 256 * BigTerms(init)[i] {
      var p := Pow256(|init| - 1 - i);
      assert Pow256(|bs| - 1 - i) == 256 * p;
      assert bs[i] * (256 * p) == 256 * (bs[i] * p);
    }
    assert Pow256(0) == 1 && BigTerms(bs)[|init|] == last;
  }

  lemma {:induction false} BigEndianSum(bs: seq<byte>)
    ensures FromBigEndian(bs) == Sum(BigTerms(bs))
  {
    if bs != [] {
      hide BigTerms, Sum, Scaled;
      var init, last := bs[..|bs| - 1], bs[|bs| - 1];
      BigEndianSum(init);
      BigTermsSnoc(init, last);
      SumScale(BigTerms(init), 256);
      SumSnoc(Scaled(BigTerms(init), 256), last);
      assert bs == init + [last];
    }
  }

  lemma {:induction false} LittleEndianSum(bs: seq<byte>)
    ensures FromLittleEndian(bs) == Sum(LittleTerms(bs))
  {
    if bs != [] {
      var rest := bs[1..];
      LittleEndianSum(rest);
      SumScale(LittleTerms(rest), 256);
      assert LittleTerms(bs)[1..] == Scaled(LittleTerms(rest), 256) by {
        forall i | 0 <= i < |rest| ensures LittleTerms(bs)[1..][i] == 256 * LittleTerms(rest)[i] {
          assert rest[i] * (256 * Pow256(i)) == 256 * (rest[i] * Pow256(i));
        }
      }
      assert LittleTerms(bs)[0] == bs[0];
    }
  }

  // ---------------------------------------------------------------- round trips

  lemma {:induction false} BigEndianRoundTrip(n: nat, width: nat)
    requires n < Pow256(width)
    ensures FromBigEndian(BigEndian(n, width)) == n
  {
    if width > 0 {
      BigEndianRoundTrip(n / 256, width - 1);
      var bs := BigEndian(n, width);
      assert bs[..|bs| - 1] == BigEndian(n / 256, width - 1);
    }
  }

  /** Every field is the encoding of the number it reads as. */
  lemma {:induction false} BigEndianReadsBack(bs: seq<byte>)
    ensures BigEndian(FromBigEndian(bs), |bs|) == bs && FromBigEndian(bs) < Pow256(|bs|)
  {
    if bs != [] {
      BigEndianReadsBack(bs[..|bs| - 1]);
      assert bs == bs[..|bs| - 1] + [bs[|bs| - 1]];
    }
  }

  lemma {:induction false} LittleEndianRoundTrip(n: nat, width: nat)
    requires n < Pow256(width)
    ensures FromLittleEndian(LittleEndian(n, width)) == n
  {
    if width > 0 {
      LittleEndianRoundTrip(n / 256, width - 1);
      var bs := LittleEndian(n, width);
      assert bs[1..] == LittleEndian(n / 256, width - 1);
    }
  }

  lemma {:induction false} LittleEndianReadsBack(bs: seq<byte>)
    ensures LittleEndian(FromLittleEndian(bs), |bs|) == bs && FromLittleEndian(bs) < Pow256(|bs|)
  {
    if bs != [] {
      LittleEndianReadsBack(bs[1..]);
      assert bs == [bs[0]] + bs[1..];
    }
  }

  lemma WidthLimits()
    ensures Pow256(4) == TWO32
    ensures Pow256(8) == TWO64
  {
    assert Pow256(4) == 256 * Pow256(3) == 256 * 256 * Pow256(2);
    assert Pow256(8) == 256 * 256 * 256 * 256 * Pow256(4);
  }
}
