/**
 * Bytes and fixed-width integers.
 *
 * The class-file reader and the interpreter read big-endian unsigned fields
 * (u1, u2, u4, u8) and compute with Java's 32- and 64-bit two's-complement
 * integers. Dafny integers are unbounded, so every wrap-around is written out
 * here, and Java's integer division, which truncates toward zero, is defined
 * on top of Dafny's Euclidean operators.
 */
module Bytes {

  type byte = x: int | 0 <= x < 256

  const TWO_31: int := 0x8000_0000
  const TWO_32: int := 0x1_0000_0000
  const TWO_63: int := 0x8000_0000_0000_0000
  const TWO_64: int := 0x1_0000_0000_0000_0000

  predicate IsInt32(x: int) { -TWO_31 <= x < TWO_31 }

  predicate IsInt64(x: int) { -TWO_63 <= x < TWO_63 }

  function Pow256(w: nat): (r: nat)
    ensures r > 0
  {
    if w == 0 then 1 else 256 * Pow256(w - 1)
  }

  /** The unsigned value of a big-endian byte string. */
  function FromBE(bs: seq<byte>): (r: nat)
    ensures r < Pow256(|bs|)
  {
    if bs == [] then 0 else FromBE(bs[..|bs| - 1]) * 256 + bs[|bs| - 1]
  }

  /** The low w bytes of n, most significant first. */
  function ToBE(n: nat, w: nat): (r: seq<byte>)
    ensures |r| == w
  {
    if w == 0 then [] else ToBE(n / 256, w - 1) + [n % 256]
  }

  lemma {:induction false} FromToBE(n: nat, w: nat)
    requires n < Pow256(w)
    ensures FromBE(ToBE(n, w)) == n
  {
    if w > 0 {
      var r := ToBE(n, w);
      assert r[..|r| - 1] == ToBE(n / 256, w - 1);
      assert n / 256 < Pow256(w - 1);
      FromToBE(n / 256, w - 1);
    }
  }

  lemma {:induction false} ToFromBE(bs: seq<byte>)
    ensures ToBE(FromBE(bs), |bs|) == bs
  {
    if bs != [] {
      var init := bs[..|bs| - 1];
      var n := FromBE(bs);
      assert n / 256 == FromBE(init) && n % 256 == bs[|bs| - 1];
      ToFromBE(init);
      assert bs == init + [bs[|bs| - 1]];
    }
  }

  lemma Pow256Widths()
    ensures Pow256(2) == 0x1_0000 && Pow256(4) == TWO_32 && Pow256(8) == TWO_64
  {
    assert Pow256(4) == 256 * 256 * Pow256(2);
    assert Pow256(8) == 256 * 256 * 256 * 256 * Pow256(4);
  }

  /** Two's-complement reading of the low 32 bits of x, as a Java int cast does. */
  function Int32(x: int): (r: int)
    ensures IsInt32(r) && (r - x) % TWO_32 == 0
  {
    var m := x % TWO_32;
    if m >= TWO_31 then m - TWO_32 else m
  }

  /** Two's-complement reading of the low 64 bits of x, as Java long arithmetic does. */
  function Int64(x: int): (r: int)
    ensures IsInt64(r) && (r - x) % TWO_64 == 0
  {
    var m := x % TWO_64;
    if m >= TWO_63 then m - TWO_64 else m
  }

  /** A Java (byte) cast: the low 8 bits, sign-extended. */
  function Int8(x: int): (r: int)
    ensures -128 <= r < 128 && (r - x) % 256 == 0
  {
    var m := x % 256;
    if m >= 128 then m - 256 else m
  }

  /** A Java (short) cast: the low 16 bits, sign-extended. */
  function Int16(x: int): (r: int)
    ensures -0x8000 <= r < 0x8000 && (r - x) % 0x1_0000 == 0
  {
    var m := x % 0x1_0000;
    if m >= 0x8000 then m - 0x1_0000 else m
  }

  /** A Java (char) cast: the low 16 bits, zero-extended. */
  function Uint16(x: int): (r: int)
    ensures 0 <= r < 0x1_0000 && (r - x) % 0x1_0000 == 0
  {
    x % 0x1_0000
  }

  lemma WrapIdentity(x: int)
    ensures IsInt32(x) ==> Int32(x) == x
    ensures IsInt64(x) ==> Int64(x) == x
    ensures -128 <= x < 128 ==> Int8(x) == x
    ensures -0x8000 <= x < 0x8000 ==> Int16(x) == x
  {
  }

  /** Java's long to byte[8] conversion: the two's-complement image, big-endian. */
  function LongToBytes(v: int): (r: seq<byte>)
    requires IsInt64(v)
    ensures |r| == 8
  {
    ToBE(v % TWO_64, 8)
  }

  /** Java's byte[8] to long conversion. */
  function BytesToLong(bs: seq<byte>): (r: int)
    requires |bs| == 8
    ensures IsInt64(r)
  {
    Int64(FromBE(bs))
  }

  /** A long survives the trip through its byte image. */
  lemma LongRoundTrip(v: int)
    requires IsInt64(v)
    ensures BytesToLong(LongToBytes(v)) == v
  {
    Pow256Widths();
    FromToBE(v % TWO_64, 8);
  }

  /** And every eight-byte image is the image of the long it decodes to. */
  lemma BytesRoundTrip(bs: seq<byte>)
    requires |bs| == 8
    ensures LongToBytes(BytesToLong(bs)) == bs
  {
    Pow256Widths();
    ToFromBE(bs);
    assert BytesToLong(bs) % TWO_64 == FromBE(bs);
  }

  /** The unsigned value of four big-endian bytes, digit by digit. */
  lemma FromBE4(bs: seq<byte>)
    requires |bs| == 4
    ensures FromBE(bs) == bs[0] as int * 0x100_0000 + bs[1] as int * 0x1_0000 + bs[2] as int * 0x100 + bs[3]
  {
    assert bs[..3][..2] == bs[..2] && bs[..2][..1] == bs[..1] && bs[..1][..0] == [];
    assert FromBE(bs[..1]) == bs[0];
    assert FromBE(bs[..2]) == bs[0] as int * 0x100 + bs[1];
    assert FromBE(bs[..3]) == bs[0] as int * 0x1_0000 + bs[1] as int * 0x100 + bs[2];
  }

  /** A big-endian signed 32-bit integer read from four bytes: the first byte is the most significant. */
  function Int32BE(bs: seq<byte>): (r: int)
    requires |bs| == 4
    ensures IsInt32(r)
    ensures (r - (bs[0] as int * 0x100_0000 + bs[1] as int * 0x1_0000 + bs[2] as int * 0x100 + bs[3] as int)) % TWO_32 == 0
  {
    FromBE4(bs);
    Int32(FromBE(bs))
  }

  /** A little-endian signed 32-bit integer read from four bytes: the last byte is the most significant. */
  function Int32LE(bs: seq<byte>): (r: int)
    requires |bs| == 4
    ensures IsInt32(r)
    ensures (r - (bs[3] as int * 0x100_0000 + bs[2] as int * 0x1_0000 + bs[1] as int * 0x100 + bs[0] as int)) % TWO_32 == 0
  {
    FromBE4([bs[3], bs[2], bs[1], bs[0]]);
    Int32(FromBE([bs[3], bs[2], bs[1], bs[0]]))
  }

  function Abs(x: int): nat { if x < 0 then -x else x }

  /**
   * Java's integer quotient: the one whose remainder is smaller than the
   * divisor in magnitude and never has the opposite sign of the dividend,
   * that is, the exact quotient rounded toward zero.
   */
  function TruncDiv(a: int, b: int): (q: int)
    requires b != 0
    ensures Abs(a - b * q) < Abs(b)
    ensures a >= 0 ==> a - b * q >= 0
    ensures a <= 0 ==> a - b * q <= 0
  {
    var n: int := Abs(a) / Abs(b);
    var q := if (a < 0) != (b < 0) then -n else n;
    QuotientOfMagnitudes(a, b, n, q);
    q
  }

  /** Java's integer remainder: what the quotient leaves, smaller than the divisor and with the sign of the dividend. */
  function TruncRem(a: int, b: int): (r: int)
    requires b != 0
    ensures a == b * TruncDiv(a, b) + r
    ensures Abs(r) < Abs(b)
    ensures a >= 0 ==> r >= 0
    ensures a <= 0 ==> r <= 0
  {
    a - b * TruncDiv(a, b)
  }

  lemma DivModFacts(x: nat, y: nat)
    requires y > 0
    ensures x == y * (x / y) + x % y && 0 <= x % y < y
  {
  }

  /** The quotient of the magnitudes, given the sign the operands' signs call for, leaves a remainder of the dividend's sign below the divisor. */
  lemma QuotientOfMagnitudes(a: int, b: int, n: int, q: int)
    requires b != 0 && n == Abs(a) / Abs(b) && q == if (a < 0) != (b < 0) then -n else n
    ensures Abs(a - b * q) < Abs(b)
    ensures a >= 0 ==> a - b * q >= 0
    ensures a <= 0 ==> a - b * q <= 0
  {
    var A, B := Abs(a), Abs(b);
    var m: int := A % B;
    DivModFacts(A, B);
    var p: int := B * n;
    assert A == p + m;
    if b > 0 {
      assert b == B;
      assert b * q == (if a < 0 then -p else p);
    } else {
      assert b == -B;
      assert b * q == (if a < 0 then -p else p);
    }
  }

  /** A nonzero multiple of b is at least as large as b. */
  lemma {:induction false} MultipleAtLeast(b: int, d: int)
    requires d != 0
    ensures Abs(b * d) >= Abs(b)
    ensures d > 0 ==> (b >= 0 ==> b * d >= b) && (b <= 0 ==> b * d <= b)
    ensures d < 0 ==> (b >= 0 ==> b * d <= -b) && (b <= 0 ==> b * d >= -b)
    decreases Abs(d)
  {
    if d > 1 {
      MultipleAtLeast(b, d - 1);
      assert b * d == b * (d - 1) + b;
    } else if d < -1 {
      MultipleAtLeast(b, d + 1);
      assert b * d == b * (d + 1) - b;
    }
  }

  /**
   * The rule fixes the quotient: any q whose remainder is below the divisor
   * and has the dividend's sign is TruncDiv(a, b).
   */
  lemma {:induction false} TruncDivUnique(a: int, b: int, q: int)
    requires b != 0
    requires Abs(a - b * q) < Abs(b)
    requires a >= 0 ==> a - b * q >= 0
    requires a <= 0 ==> a - b * q <= 0
    ensures q == TruncDiv(a, b)
  {
    var t := TruncDiv(a, b);
    var r, r' := a - b * q, a - b * t;
    var d := q - t;
    Distribute(b, q, t);
    assert b * d == r' - r;
    assert Abs(r' - r) < Abs(b);
    if d != 0 {
      MultipleAtLeast(b, d);
    }
  }

  lemma Distribute(b: int, q: int, t: int)
    ensures b * (q - t) == b * q - b * t
  {
  }

}
