/** Byte strings and the renderings the audit digest writes: Go's byte order on strings, the
    big-endian length prefix, strconv's decimal form and the hexadecimal form of a head. */
module Bytes {

  type byte = b: int | 0 <= b < 256

  /** A Go string: its length is a Go int, so it fits the 8-byte prefix the digest writes. */
  type Str = s: seq<byte> | |s| < 0x8000_0000_0000_0000 witness []

  type Int64 = n: int | -0x8000_0000_0000_0000 <= n < 0x8000_0000_0000_0000

  // --- Go's `<` on strings -------------------------------------------------------------------

  predicate Less(a: seq<byte>, b: seq<byte>) {
    if b == [] then false
    else if a == [] then true
    else if a[0] != b[0] then a[0] < b[0]
    else Less(a[1..], b[1..])
  }

  lemma {:induction false} LessIrreflexive(a: seq<byte>)
    ensures !Less(a, a)
  {
    if a != [] { LessIrreflexive(a[1..]); }
  }

  lemma {:induction false} LessTransitive(a: seq<byte>, b: seq<byte>, c: seq<byte>)
    requires Less(a, b) && Less(b, c)
    ensures Less(a, c)
  {
    if a != [] && a[0] == b[0] == c[0] { LessTransitive(a[1..], b[1..], c[1..]); }
  }

  lemma {:induction false} LessTotal(a: seq<byte>, b: seq<byte>)
    ensures a == b || Less(a, b) || Less(b, a)
  {
    if a != [] && b != [] && a[0] == b[0] {
      LessTotal(a[1..], b[1..]);
      assert a == [a[0]] + a[1..] && b == [b[0]] + b[1..];
    }
  }

  // --- binary.BigEndian.PutUint64 ------------------------------------------------------------

  function BigEndian(n: nat, width: nat): (s: seq<byte>)
    ensures |s| == width
  {
    if width == 0 then [] else BigEndian(n / 256, width - 1) + [n % 256]
  }

  function Pow256(k: nat): nat {
    if k == 0 then 1 else 256 * Pow256(k - 1)
  }

  lemma {:induction false} BigEndianInjective(n: nat, m: nat, width: nat)
    requires n < Pow256(width) && m < Pow256(width)
    requires BigEndian(n, width) == BigEndian(m, width)
    ensures n == m
  {
    if width > 0 {
      var a, b := BigEndian(n / 256, width - 1), BigEndian(m / 256, width - 1);
      assert BigEndian(n, width)[..width - 1] == a && BigEndian(m, width)[..width - 1] == b;
      assert BigEndian(n, width)[width - 1] == n % 256 && BigEndian(m, width)[width - 1] == m % 256;
      BigEndianInjective(n / 256, m / 256, width - 1);
    }
  }

  // --- strconv.FormatInt(x, 10) --------------------------------------------------------------

  const MINUS: byte := 45
  const ZERO: byte := 48

  function Digits(n: nat): (s: seq<byte>)
    ensures |s| > 0
    ensures forall i :: 0 <= i < |s| ==> s[i] >= ZERO
  {
    if n < 10 then [ZERO + n] else Digits(n / 10) + [ZERO + n % 10]
  }

  function Value(s: seq<byte>): int {
    if s == [] then 0 else Value(s[..|s| - 1]) * 10 + (s[|s| - 1] - ZERO)
  }

  lemma {:induction false} ValueOfDigits(n: nat)
    ensures Value(Digits(n)) == n
  {
    var s := Digits(n);
    if n >= 10 {
      ValueOfDigits(n / 10);
      assert s[..|s| - 1] == Digits(n / 10);
    } else {
      assert s[..0] == [];
    }
  }

  function Pow10(k: nat): nat {
    if k == 0 then 1 else 10 * Pow10(k - 1)
  }

  lemma {:induction false} DigitsShort(n: nat, k: nat)
    requires k > 0 && n < Pow10(k)
    ensures |Digits(n)| <= k
  {
    if n >= 10 {
      assert k > 1 by { assert Pow10(1) == 10; }
      DigitsShort(n / 10, k - 1);
    }
  }

  function Abs(x: int): nat {
    if x < 0 then -x else x
  }

  function FormatInt(x: Int64): (s: seq<byte>) {
    if x < 0 then [MINUS] + Digits(Abs(x)) else Digits(x)
  }

  lemma FormatIntInjective(x: Int64, y: Int64)
    requires FormatInt(x) == FormatInt(y)
    ensures x == y
  {
    assert FormatInt(x)[0] == MINUS <==> x < 0;
    assert FormatInt(y)[0] == MINUS <==> y < 0;
    if x < 0 {
      assert FormatInt(x)[1..] == Digits(Abs(x)) && FormatInt(y)[1..] == Digits(Abs(y));
    }
    ValueOfDigits(Abs(x));
    ValueOfDigits(Abs(y));
  }

  /** The decimal form is itself a Go string: far shorter than the prefix can express. */
  lemma FormatIntFits(x: Int64)
    ensures |FormatInt(x)| <= 21
  {
    assert Pow10(4) == 10000;
    assert Pow10(8) == 1_0000_0000;
    assert Pow10(12) == 1_0000_0000_0000;
    assert Pow10(16) == 1_0000_0000_0000_0000;
    assert Pow10(20) == 1_0000_0000_0000_0000_0000;
    DigitsShort(Abs(x), 20);
  }

  lemma Pow256Of8()
    ensures Pow256(8) == 0x1_0000_0000_0000_0000
  {
    assert Pow256(2) == 0x1_0000;
    assert Pow256(4) == 0x1_0000_0000;
    assert Pow256(6) == 0x1_0000_0000_0000;
  }

  function Decimal(x: Int64): (s: Str) {
    FormatIntFits(x);
    FormatInt(x)
  }

  // --- hex.EncodeToString --------------------------------------------------------------------

  function HexDigit(n: int): (c: byte)
    requires 0 <= n < 16
    ensures c == ZERO + n || c == 87 + n
    ensures n < 10 <==> c == ZERO + n
  {
    if n < 10 then ZERO + n else 87 + n
  }

  function Hex(s: seq<byte>): (h: seq<byte>)
    ensures |h| == 2 * |s|
  {
    if s == [] then [] else [HexDigit(s[0] / 16), HexDigit(s[0] % 16)] + Hex(s[1..])
  }

  lemma {:induction false} HexInjective(a: seq<byte>, b: seq<byte>)
    requires Hex(a) == Hex(b)
    ensures a == b
  {
    assert |a| == |b|;
    if a != [] {
      assert Hex(a)[0] == Hex(b)[0] && Hex(a)[1] == Hex(b)[1];
      assert Hex(a)[2..] == Hex(a[1..]) && Hex(b)[2..] == Hex(b[1..]);
      HexInjective(a[1..], b[1..]);
      assert a == [a[0]] + a[1..] && b == [b[0]] + b[1..];
    }
  }

  // --- the digest's length-prefixed field -----------------------------------------------------

  function Field(s: Str): (f: seq<byte>) {
    BigEndian(|s|, 8) + s
  }

  /** A field read off the front of two equal byte strings is the same field, and so is what follows
      it: no byte can be shifted from a field into its neighbour. */
  lemma FieldPrefixFree(a: Str, b: Str, x: seq<byte>, y: seq<byte>)
    requires Field(a) + x == Field(b) + y
    ensures a == b && x == y
  {
    var s := Field(a) + x;
    assert s[..8] == BigEndian(|a|, 8) && (Field(b) + y)[..8] == BigEndian(|b|, 8);
    Pow256Of8();
    BigEndianInjective(|a|, |b|, 8);
    assert s[8..8 + |a|] == a && (Field(b) + y)[8..8 + |b|] == b;
    assert s[8 + |a|..] == x && (Field(b) + y)[8 + |b|..] == y;
  }
}
