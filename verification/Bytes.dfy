/** Byte strings and the printers and readers the onboarding digests are built from:
    decimal numbers, lower-case hexadecimal, big-endian lengths and hyphenated UUIDs.
    Every printer has a reader that undoes it. */
module Bytes {
  type Byte = x: int | 0 <= x < 256
  type Bytes = seq<Byte>

  datatype Option<+T> = None | Some(value: T)

  const NUL: Byte := 0
  const DOT: Byte := 46
  const MINUS: Byte := 45
  const ZERO: Byte := 48

  /** The bytes of an ASCII literal. */
  function Ascii(s: string): (b: Bytes) {
    seq(|s|, i requires 0 <= i < |s| => s[i] as int % 256)
  }

  // Decimal

  function Decimal(n: nat): (s: Bytes)
    ensures s != [] && forall i :: 0 <= i < |s| ==> ZERO <= s[i] < ZERO + 10
  {
    if n < 10 then [ZERO + n] else Decimal(n / 10) + [ZERO + n % 10]
  }

  function DecimalValue(s: Bytes): int {
    if s == [] then 0 else 10 * DecimalValue(s[..|s| - 1]) + s[|s| - 1] - ZERO
  }

  function SignedDecimal(n: int): (s: Bytes) {
    if n < 0 then [MINUS] + Decimal(-n) else Decimal(n)
  }

  function SignedValue(s: Bytes): int {
    if s != [] && s[0] == MINUS then -DecimalValue(s[1..]) else DecimalValue(s)
  }

  lemma {:induction false} DecimalRoundTrip(n: nat)
    ensures DecimalValue(Decimal(n)) == n
  {
    if n < 10 {
      assert [ZERO + n][..0] == [];
      assert DecimalValue([ZERO + n][..0]) == 0;
    } else {
      DecimalRoundTrip(n / 10);
      assert Decimal(n)[..|Decimal(n)| - 1] == Decimal(n / 10);
    }
  }

  lemma SignedDecimalRoundTrip(n: int)
    ensures SignedValue(SignedDecimal(n)) == n
  {
    if n < 0 {
      DecimalRoundTrip(-n);
      assert SignedDecimal(n)[1..] == Decimal(-n);
    } else {
      DecimalRoundTrip(n);
    }
  }

  // Hexadecimal

  predicate IsLowerHex(b: Byte) {
    48 <= b <= 57 || 97 <= b <= 102
  }

  predicate AllLowerHex(s: Bytes) {
    forall i :: 0 <= i < |s| ==> IsLowerHex(s[i])
  }

  function HexDigit(n: int): (b: Byte)
    requires 0 <= n < 16
    ensures IsLowerHex(b)
  {
    if n < 10 then 48 + n else 87 + n
  }

  /** The value of a hexadecimal digit in either case. */
  function HexDigitValue(b: Byte): (n: Option<int>)
    ensures n.Some? ==> 0 <= n.value < 16
    ensures IsLowerHex(b) ==> n.Some? && HexDigit(n.value) == b
  {
    if 48 <= b <= 57 then Some(b - 48)
    else if 97 <= b <= 102 then Some(b - 87)
    else if 65 <= b <= 70 then Some(b - 55)
    else None
  }

  function Hex(b: Bytes): (s: Bytes)
    ensures |s| == 2 * |b| && AllLowerHex(s)
  {
    if b == [] then [] else [HexDigit(b[0] / 16), HexDigit(b[0] % 16)] + Hex(b[1..])
  }

  function Unhex(s: Bytes): (b: Option<Bytes>)
    ensures b.Some? ==> |s| == 2 * |b.value|
  {
    if s == [] then Some([])
    else if |s| == 1 then None
    else
      match (HexDigitValue(s[0]), HexDigitValue(s[1]), Unhex(s[2..]))
      case (Some(high), Some(low), Some(rest)) => Some([16 * high + low] + rest)
      case _ => None
  }

  lemma {:induction false} HexRoundTrip(b: Bytes)
    ensures Unhex(Hex(b)) == Some(b)
  {
    if b != [] {
      HexRoundTrip(b[1..]);
      assert Hex(b)[2..] == Hex(b[1..]);
      assert b == [b[0]] + b[1..];
    }
  }

  /** Lower-case hexadecimal of even length is exactly what the printer produces. */
  lemma {:induction false} UnhexRoundTrip(s: Bytes)
    requires |s| % 2 == 0 && AllLowerHex(s)
    ensures Unhex(s).Some? && Hex(Unhex(s).value) == s
  {
    if s != [] {
      UnhexRoundTrip(s[2..]);
      var rest := Unhex(s[2..]).value;
      var b := Unhex(s).value;
      assert b[1..] == rest;
      assert s == [s[0], s[1]] + s[2..];
    }
  }

  // Big-endian numbers of a fixed width

  function Power256(width: nat): (p: nat)
    ensures p > 0
  {
    if width == 0 then 1 else 256 * Power256(width - 1)
  }

  /** The k-th byte of n, counted from the least significant. */
  function ByteOf(n: nat, k: nat): Byte {
    if k == 0 then n % 256 else ByteOf(n / 256, k - 1)
  }

  function BigEndian(n: nat, width: nat): (s: Bytes)
    ensures |s| == width
  {
    seq(width, i requires 0 <= i < width => ByteOf(n, width - 1 - i))
  }

  function BigEndianValue(s: Bytes): (n: nat) {
    if s == [] then 0 else 256 * BigEndianValue(s[..|s| - 1]) + s[|s| - 1]
  }

  lemma {:induction false} BigEndianRoundTrip(n: nat, width: nat)
    requires n < Power256(width)
    ensures BigEndianValue(BigEndian(n, width)) == n
  {
    if width > 0 {
      BigEndianRoundTrip(n / 256, width - 1);
      var high, low := BigEndian(n, width)[..width - 1], BigEndian(n / 256, width - 1);
      forall i | 0 <= i < width - 1 ensures high[i] == low[i] {
        assert high[i] == ByteOf(n, width - 1 - i);
      }
      assert high == low && BigEndian(n, width)[width - 1] == ByteOf(n, 0);
    }
  }

  const TWO_TO_64 := 0x1_0000_0000_0000_0000

  lemma Power256Of8()
    ensures Power256(8) == TWO_TO_64
  {
    assert Power256(4) == 0x1_0000_0000;
  }

  // UUIDs: sixteen bytes, printed with or without hyphens

  type Uuid = b: Bytes | |b| == 16 witness seq(16, i => 0)

  function Simple(id: Uuid): (s: Bytes)
    ensures |s| == 32 && AllLowerHex(s)
  {
    Hex(id)
  }

  /** How many hyphens stand before position i of the 8-4-4-4-12 form. */
  function HyphensBefore(i: nat): (k: nat)
    ensures k <= 4
  {
    if i <= 8 then 0 else if i <= 13 then 1 else if i <= 18 then 2 else if i <= 23 then 3 else 4
  }

  predicate HyphenAt(i: nat) {
    i == 8 || i == 13 || i == 18 || i == 23
  }

  /** Inserts the hyphens of the 8-4-4-4-12 form into 32 digits. */
  function Hyphenate(s: Bytes): (h: Bytes)
    requires |s| == 32
    ensures |h| == 36
  {
    seq(36, i requires 0 <= i < 36 => if HyphenAt(i) then MINUS else s[i - HyphensBefore(i)])
  }

  predicate HasHyphens(h: Bytes) {
    |h| == 36 && h[8] == MINUS && h[13] == MINUS && h[18] == MINUS && h[23] == MINUS
  }

  function Unhyphenate(h: Bytes): (s: Bytes)
    requires HasHyphens(h)
    ensures |s| == 32 && Hyphenate(s) == h
  {
    seq(32, i requires 0 <= i < 32 =>
      h[if i < 8 then i else if i < 12 then i + 1 else if i < 16 then i + 2 else if i < 20 then i + 3 else i + 4])
  }

  lemma HyphenateRoundTrip(s: Bytes)
    requires |s| == 32
    ensures HasHyphens(Hyphenate(s)) && Unhyphenate(Hyphenate(s)) == s
  {
  }

  function Hyphenated(id: Uuid): (s: Bytes)
    ensures |s| == 36
  {
    Hyphenate(Hex(id))
  }

  const URN: Bytes := Ascii("urn:uuid:")

  /** Reads every spelling the UUID reader accepts: 32 digits, the hyphenated form,
      and the hyphenated form in braces or behind the URN prefix; digits in either case. */
  function ParseUuid(s: Bytes): (id: Option<Uuid>) {
    if |s| == 32 then Unhex(s)
    else if |s| == 36 then ParseHyphenated(s)
    else if |s| == 38 && s[0] == 123 && s[37] == 125 then ParseHyphenated(s[1..37])
    else if |s| == 45 && s[..9] == URN then ParseHyphenated(s[9..])
    else None
  }

  function ParseHyphenated(s: Bytes): (id: Option<Uuid>) {
    if HasHyphens(s) then Unhex(Unhyphenate(s)) else None
  }

  lemma UuidRoundTrip(id: Uuid)
    ensures ParseUuid(Hyphenated(id)) == Some(id)
    ensures ParseUuid(Simple(id)) == Some(id)
  {
    HexRoundTrip(id);
    HyphenateRoundTrip(Hex(id));
  }

  /** A hyphenated UUID holds digits and hyphens only, so no dot. */
  lemma HyphenatedBytes(id: Uuid)
    ensures forall i :: 0 <= i < 36 ==> IsLowerHex(Hyphenated(id)[i]) || Hyphenated(id)[i] == MINUS
  {
  }

  // Constant-time comparison: the differing bits of every pair are gathered with "or"

  function Xor(a: int, b: int, bits: nat): (r: nat)
    requires 0 <= a && 0 <= b
  {
    if bits == 0 then 0
    else (if a % 2 == b % 2 then 0 else 1) + 2 * Xor(a / 2, b / 2, bits - 1)
  }

  function Or(a: int, b: int, bits: nat): (r: nat)
    requires 0 <= a && 0 <= b
  {
    if bits == 0 then 0
    else (if a % 2 == 1 || b % 2 == 1 then 1 else 0) + 2 * Or(a / 2, b / 2, bits - 1)
  }

  function GatheredDifference(left: Bytes, right: Bytes, difference: nat): nat
    requires |left| == |right|
  {
    if left == [] then difference
    else GatheredDifference(left[1..], right[1..], Or(difference, Xor(left[0], right[0], 8), 8))
  }

  function ConstantTimeEq(left: Bytes, right: Bytes): bool {
    |left| == |right| && GatheredDifference(left, right, 0) == 0
  }

  function Power2(bits: nat): (p: nat)
    ensures p > 0
  {
    if bits == 0 then 1 else 2 * Power2(bits - 1)
  }

  lemma {:induction false} XorZero(a: nat, b: nat, bits: nat)
    requires a < Power2(bits) && b < Power2(bits)
    ensures Xor(a, b, bits) == 0 <==> a == b
    ensures Xor(a, b, bits) < Power2(bits)
  {
    if bits > 0 {
      XorZero(a / 2, b / 2, bits - 1);
    }
  }

  lemma {:induction false} OrZero(a: nat, b: nat, bits: nat)
    requires a < Power2(bits) && b < Power2(bits)
    ensures Or(a, b, bits) == 0 <==> a == 0 && b == 0
    ensures Or(a, b, bits) < Power2(bits)
  {
    if bits > 0 {
      OrZero(a / 2, b / 2, bits - 1);
    }
  }

  lemma Power2Of8()
    ensures Power2(8) == 256
  {
    assert Power2(4) == 16;
  }

  lemma {:induction false} GatheredDifferenceZero(left: Bytes, right: Bytes, difference: nat)
    requires |left| == |right| && difference < 256
    ensures GatheredDifference(left, right, difference) == 0 <==> difference == 0 && left == right
  {
    if left != [] {
      Power2Of8();
      var d := Xor(left[0], right[0], 8);
      XorZero(left[0], right[0], 8);
      OrZero(difference, d, 8);
      GatheredDifferenceZero(left[1..], right[1..], Or(difference, d, 8));
      assert left == [left[0]] + left[1..];
      assert right == [right[0]] + right[1..];
    }
  }

  /** The comparison that looks at every byte decides equality. */
  lemma ConstantTimeEqIsEquality(left: Bytes, right: Bytes)
    ensures ConstantTimeEq(left, right) <==> left == right
  {
    if |left| == |right| {
      GatheredDifferenceZero(left, right, 0);
    }
  }
}
