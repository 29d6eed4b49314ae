/** Positional notation: fixed-width big-endian bytes, and hexadecimal text as JavaScript prints and reads it. */
module Numerals {

  type Byte = n: int | 0 <= n < 256

  function Pow(base: nat, n: nat): nat {
    if n == 0 then 1 else base * Pow(base, n - 1)
  }

  lemma {:induction false} PowIsPositive(base: nat, n: nat)
    requires base > 0
    ensures Pow(base, n) > 0
  {
    if n > 0 {
      PowIsPositive(base, n - 1);
    }
  }

  // ------------------------------------------------------------------- bytes

  /** The low `size` bytes of a value, highest first. */
  function BigEndian(value: nat, size: nat): (r: seq<Byte>)
    ensures |r| == size
  {
    if size == 0 then [] else BigEndian(value / 256, size - 1) + [value % 256]
  }

  function FromBytes(bytes: seq<Byte>): nat {
    if bytes == [] then 0 else FromBytes(bytes[..|bytes| - 1]) * 256 + bytes[|bytes| - 1]
  }

  /** Reading back a value that fits gives the value. */
  lemma {:induction false} ReadsBack(value: nat, size: nat)
    requires value < Pow(256, size)
    ensures FromBytes(BigEndian(value, size)) == value
  {
    if size > 0 {
      ReadsBack(value / 256, size - 1);
      assert BigEndian(value, size)[..size - 1] == BigEndian(value / 256, size - 1);
    }
  }

  /** Any bytes are the notation of what they read as, and that fits. */
  lemma {:induction false} WritesBack(bytes: seq<Byte>)
    ensures FromBytes(bytes) < Pow(256, |bytes|)
    ensures BigEndian(FromBytes(bytes), |bytes|) == bytes
  {
    if bytes != [] {
      var init := bytes[..|bytes| - 1];
      WritesBack(init);
      assert FromBytes(bytes) / 256 == FromBytes(init);
    }
  }

  /** The k-th byte from the left has the weight 256 ^ (size - 1 - k). */
  lemma {:induction false} ByteWeights(value: nat, size: nat, k: nat)
    requires k < size
    ensures Pow(256, size - 1 - k) > 0
    ensures BigEndian(value, size)[k] == (value / Pow(256, size - 1 - k)) % 256
  {
    PowIsPositive(256, size - 1 - k);
    if k < size - 1 {
      ByteWeights(value / 256, size - 1, k);
      PowIsPositive(256, size - 2 - k);
      DivideTwice(value, 256, Pow(256, size - 2 - k));
    }
  }

  lemma DivideTwice(x: nat, a: nat, b: nat)
    requires a > 0 && b > 0
    ensures a * b > 0 && (x / a) / b == x / (a * b)
  {
    Split(x, a);
    Split(x / a, b);
    TwoRemainders(x, a, b, x / a, x % a, (x / a) / b, (x / a) % b);
    QuotientIs(x, a * b, (x / a) / b, a * ((x / a) % b) + x % a);
  }

  lemma Split(x: nat, a: nat)
    requires a > 0
    ensures x == a * (x / a) + x % a && 0 <= x % a < a
  {
  }

  lemma TwoRemainders(x: nat, a: nat, b: nat, y: nat, t: nat, q: nat, s: nat)
    requires x == a * y + t && t < a && y == b * q + s && s < b
    ensures x == (a * b) * q + (a * s + t)
    ensures 0 <= a * s + t < a * b
  {
    assert a * y == a * (b * q) + a * s;
    assert a * (b * q) == (a * b) * q;
    assert a * (s + 1) <= a * b by {
      MultipleIsFar(a, b - (s + 1));
    }
  }

  lemma MultipleIsFar(a: int, d: int)
    requires a > 0
    ensures d >= 0 ==> a * d >= 0
    ensures d >= 1 ==> a * d >= a
    ensures d <= -1 ==> a * d <= -a
  {
  }

  lemma QuotientIs(x: nat, a: nat, q: nat, r: nat)
    requires a > 0 && x == a * q + r && r < a
    ensures x / a == q
  {
    Split(x, a);
    assert a * (x / a - q) == r - x % a;
    MultipleIsFar(a, x / a - q);
  }

  // -------------------------------------------------------------- hexadecimal

  predicate IsHexDigit(c: char) {
    '0' <= c <= '9' || 'a' <= c <= 'f' || 'A' <= c <= 'F'
  }

  function DigitValue(c: char): (v: nat)
    requires IsHexDigit(c)
    ensures v < 16
  {
    if '0' <= c <= '9' then c as int - '0' as int
    else if 'a' <= c <= 'f' then c as int - 'a' as int + 10
    else c as int - 'A' as int + 10
  }

  function Digit(v: nat): (c: char)
    requires v < 16
    ensures IsHexDigit(c) && DigitValue(c) == v
  {
    if v < 10 then ('0' as int + v) as char else ('a' as int + v - 10) as char
  }

  /** A letter as `toLowerCase` leaves it, for the characters of hexadecimal text. */
  function LowerChar(c: char): char {
    if 'A' <= c <= 'F' then (c as int - 'A' as int + 'a' as int) as char else c
  }

  function Lower(s: string): (r: string)
    ensures |r| == |s| && forall i :: 0 <= i < |s| ==> r[i] == LowerChar(s[i])
  {
    if s == "" then "" else Lower(s[..|s| - 1]) + [LowerChar(s[|s| - 1])]
  }

  predicate AllHex(s: string) {
    forall i :: 0 <= i < |s| ==> IsHexDigit(s[i])
  }

  function ParseHex(s: string): nat
    requires AllHex(s)
  {
    if s == "" then 0 else ParseHex(s[..|s| - 1]) * 16 + DigitValue(s[|s| - 1])
  }

  /** `value.toString(16)`: no leading zeros. */
  function HexString(value: nat): string {
    if value < 16 then [Digit(value)] else HexString(value / 16) + [Digit(value % 16)]
  }

  /** `padStart(width, "0")`. */
  function PadStart(s: string, width: nat): string
    decreases width - |s|
  {
    if |s| >= width then s else PadStart("0" + s, width)
  }

  /** The same number in exactly `width` digits. */
  function FixedHex(value: nat, width: nat): (r: string)
    ensures |r| == width && AllHex(r)
  {
    if width == 0 then "" else FixedHex(value / 16, width - 1) + [Digit(value % 16)]
  }

  /** The digits are 0 to 9 and a to f, in this order. */
  lemma DigitsInOrder()
    ensures forall v: nat :: v < 16 ==> Digit(v) == "0123456789abcdef"[v]
    ensures forall c :: IsHexDigit(c) ==> c in "0123456789abcdefABCDEF"
  {
  }

  lemma DigitIsLower(c: char)
    requires IsHexDigit(c)
    ensures Digit(DigitValue(c)) == LowerChar(c)
    ensures IsHexDigit(LowerChar(c)) && DigitValue(LowerChar(c)) == DigitValue(c)
  {
  }

  lemma {:induction false} FixedHexOfZero(width: nat)
    requires width > 0
    ensures FixedHex(0, width) == "0" + FixedHex(0, width - 1)
  {
    if width > 1 {
      FixedHexOfZero(width - 1);
      assert ("0" + FixedHex(0, width - 2)) + [Digit(0)] == "0" + (FixedHex(0, width - 2) + [Digit(0)]);
    }
  }

  /** Widening a number that fits puts zeros in front. */
  lemma {:induction false} Widen(value: nat, width: nat)
    requires value < Pow(16, width)
    ensures FixedHex(value, width + 1) == "0" + FixedHex(value, width)
  {
    if width == 0 {
      assert value == 0;
      FixedHexOfZero(1);
    } else {
      Widen(value / 16, width - 1);
      assert ("0" + FixedHex(value / 16, width - 1)) + [Digit(value % 16)] == "0" + (FixedHex(value / 16, width - 1) + [Digit(value % 16)]);
    }
  }

  lemma {:induction false} HexStringIsFixed(value: nat)
    ensures value < Pow(16, |HexString(value)|)
    ensures HexString(value) == FixedHex(value, |HexString(value)|)
    decreases value
  {
    if value >= 16 {
      HexStringIsFixed(value / 16);
    } else {
      assert FixedHex(value, 1) == FixedHex(value / 16, 0) + [Digit(value % 16)];
    }
  }

  lemma {:induction false} HexStringFits(value: nat, width: nat)
    requires width > 0 && value < Pow(16, width)
    ensures |HexString(value)| <= width
    decreases width
  {
    if value >= 16 {
      assert width > 1;
      HexStringFits(value / 16, width - 1);
    }
  }

  lemma {:induction false} PadOfFixed(value: nat, n: nat, width: nat)
    requires value < Pow(16, n) && n <= width
    ensures value < Pow(16, width)
    ensures PadStart(FixedHex(value, n), width) == FixedHex(value, width)
    decreases width - n
  {
    if n < width {
      Widen(value, n);
      PowIsPositive(16, n);
      PadOfFixed(value, n + 1, width);
    }
  }

  /** Printing without leading zeros and padding is the fixed-width notation. */
  lemma PaddedIsFixed(value: nat, width: nat)
    requires width > 0 && value < Pow(16, width)
    ensures PadStart(HexString(value), width) == FixedHex(value, width)
  {
    HexStringIsFixed(value);
    HexStringFits(value, width);
    PadOfFixed(value, |HexString(value)|, width);
  }

  /** Parsing what was printed gives the number. */
  lemma {:induction false} ParsesBack(value: nat, width: nat)
    requires value < Pow(16, width)
    ensures ParseHex(FixedHex(value, width)) == value
    ensures Lower(FixedHex(value, width)) == FixedHex(value, width)
  {
    if width > 0 {
      ParsesBack(value / 16, width - 1);
      var s := FixedHex(value, width);
      assert s[..width - 1] == FixedHex(value / 16, width - 1);
      DigitIsLower(Digit(value % 16));
    }
  }

  /** Printing what was parsed gives the text in lower case. */
  lemma {:induction false} PrintsBack(s: string)
    requires AllHex(s)
    ensures ParseHex(s) < Pow(16, |s|)
    ensures FixedHex(ParseHex(s), |s|) == Lower(s)
    ensures AllHex(Lower(s)) && ParseHex(Lower(s)) == ParseHex(s)
  {
    if s != "" {
      var init, last := s[..|s| - 1], s[|s| - 1];
      PrintsBack(init);
      DigitIsLower(last);
      assert ParseHex(s) / 16 == ParseHex(init) && ParseHex(s) % 16 == DigitValue(last);
      assert Lower(s)[..|s| - 1] == Lower(init);
    }
  }

  lemma {:induction false} TwoDigitsPerByte(n: nat)
    ensures Pow(16, 2 * n) == Pow(256, n)
  {
    if n > 0 {
      TwoDigitsPerByte(n - 1);
      assert Pow(16, 2 * n) == 16 * Pow(16, 2 * n - 1) == 16 * (16 * Pow(16, 2 * (n - 1)));
    }
  }

  lemma {:induction false} ZeroHasOnlyZeros(s: string)
    requires AllHex(s)
    ensures ParseHex(s) == 0 <==> forall i :: 0 <= i < |s| ==> s[i] == '0'
  {
    if s != "" {
      ZeroHasOnlyZeros(s[..|s| - 1]);
      assert DigitValue(s[|s| - 1]) == 0 <==> s[|s| - 1] == '0';
      assert forall i :: 0 <= i < |s| - 1 ==> s[..|s| - 1][i] == s[i];
    }
  }
}
