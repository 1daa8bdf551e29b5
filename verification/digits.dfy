/** Decimal digits: the unpadded rendering of a number and fixed-width zero-padded fields. */
module Digits {

  predicate IsDigit(c: char) { '0' <= c <= '9' }

  predicate AllDigits(s: string) { forall i :: 0 <= i < |s| ==> IsDigit(s[i]) }

  function DigitValue(c: char): (n: nat)
    requires IsDigit(c)
    ensures n <= 9
  {
    c as int - '0' as int
  }

  function DigitChar(n: nat): (c: char)
    requires n <= 9
    ensures IsDigit(c) && DigitValue(c) == n
  {
    ('0' as int + n) as char
  }

  /** The number a string of decimal digits denotes (most significant digit first). */
  function DecimalValue(s: string): nat
    requires AllDigits(s)
    decreases |s|
  {
    if s == [] then 0 else DecimalValue(s[..|s| - 1]) * 10 + DigitValue(s[|s| - 1])
  }

  function Pow10(w: nat): (p: nat)
    ensures p >= 1
  {
    if w == 0 then 1 else 10 * Pow10(w - 1)
  }

  /** The decimal rendering of a natural number with no leading zeros, as JavaScript's
      `${n}` writes an integer-valued number. */
  function Decimal(n: nat): (s: string)
    ensures |s| >= 1 && AllDigits(s)
    ensures s[0] == '0' <==> n == 0
    ensures n == 0 ==> s == "0"
    decreases n
  {
    if n < 10 then [DigitChar(n)] else Decimal(n / 10) + [DigitChar(n % 10)]
  }

  /** The last `w` decimal digits of `n`, zero-padded on the left. */
  function FixedWidth(n: nat, w: nat): (s: string)
    ensures |s| == w && AllDigits(s)
  {
    if w == 0 then [] else FixedWidth(n / 10, w - 1) + [DigitChar(n % 10)]
  }

  /** Reading back an unpadded rendering gives the number. */
  lemma {:induction false} DecimalRoundTrip(n: nat)
    ensures DecimalValue(Decimal(n)) == n
    decreases n
  {
    if n >= 10 {
      DecimalRoundTrip(n / 10);
      var s := Decimal(n);
      assert s[..|s| - 1] == Decimal(n / 10);
    }
  }

  /** The unpadded rendering is injective: different numbers never share a rendering. */
  lemma DecimalInjective(m: nat, n: nat)
    requires Decimal(m) == Decimal(n)
    ensures m == n
  {
    DecimalRoundTrip(m);
    DecimalRoundTrip(n);
  }

  /** A number that fits in `w` digits is read back from its padded field. */
  lemma {:induction false} FixedWidthValue(n: nat, w: nat)
    requires n < Pow10(w)
    ensures DecimalValue(FixedWidth(n, w)) == n
  {
    if w > 0 {
      FixedWidthValue(n / 10, w - 1);
      var s := FixedWidth(n, w);
      assert s[..w - 1] == FixedWidth(n / 10, w - 1);
    }
  }

  /** A field of digits is the padded rendering of the number it denotes. */
  lemma {:induction false} FixedWidthOfValue(s: string)
    requires AllDigits(s)
    ensures DecimalValue(s) < Pow10(|s|)
    ensures FixedWidth(DecimalValue(s), |s|) == s
    decreases |s|
  {
    if s != [] {
      var p := s[..|s| - 1];
      var c := s[|s| - 1];
      FixedWidthOfValue(p);
      var v := DecimalValue(s);
      assert v == DecimalValue(p) * 10 + DigitValue(c);
      assert v / 10 == DecimalValue(p) && v % 10 == DigitValue(c);
      assert DigitChar(DigitValue(c)) == c;
      assert s == p + [c];
    }
  }
}
