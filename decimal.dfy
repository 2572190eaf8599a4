/** Decimal text of arbitrary-precision non-negative integers: what
    `BigInt.prototype.toString()` produces and what `BigInt(string)` accepts,
    restricted to the unsigned decimal form the receiver writes and reads. */
module Decimal {
  import opened Wrappers

  predicate IsDigit(c: char) {
    '0' <= c <= '9'
  }

  predicate IsDigits(s: string) {
    forall i :: 0 <= i < |s| ==> IsDigit(s[i])
  }

  /** The form `toString()` produces: at least one digit, and no leading zero
      unless the number is zero itself. */
  predicate IsCanonical(s: string) {
    IsDigits(s) && |s| >= 1 && (s[0] == '0' ==> |s| == 1)
  }

  function DigitChar(d: nat): (c: char)
    requires d < 10
    ensures IsDigit(c) && (c as int) - ('0' as int) == d
  {
    (('0' as int) + d) as char
  }

  function DigitValue(c: char): nat
    requires IsDigit(c)
  {
    (c as int) - ('0' as int)
  }

  /** The value of a string of decimal digits, most significant first; the
      empty string is worth 0, as `BigInt("")` is. */
  function DigitsValue(s: string): nat
    requires IsDigits(s)
  {
    if s == [] then 0 else 10 * DigitsValue(s[..|s| - 1]) + DigitValue(s[|s| - 1])
  }

  /** `n.toString()` for a non-negative BigInt `n`. */
  function ToDecimal(n: nat): (s: string)
    ensures IsCanonical(s)
    ensures n == 0 <==> s == "0"
  {
    if n < 10 then [DigitChar(n)] else ToDecimal(n / 10) + [DigitChar(n % 10)]
  }

  /** `BigInt(s)`: the value of a decimal string, or `None` where JavaScript
      throws a SyntaxError. */
  function ParseBigInt(s: string): (r: Option<nat>)
    ensures r.Some? <==> IsDigits(s)
    ensures s == "" ==> r == Some(0)
  {
    if IsDigits(s) then Some(DigitsValue(s)) else None
  }

  /** Decimal round trip: parsing the text of a number gives that number back. */
  lemma {:induction false} DecimalRoundTrip(n: nat)
    ensures ParseBigInt(ToDecimal(n)) == Some(n)
  {
    var s := ToDecimal(n);
    if n < 10 {
      assert s[..|s| - 1] == [];
      assert DigitsValue(s) == DigitValue(s[0]) == n;
    } else {
      DecimalRoundTrip(n / 10);
      assert s[..|s| - 1] == ToDecimal(n / 10);
    }
  }

  /** Two numbers with the same decimal text are the same number. */
  lemma ToDecimalInjective(m: nat, n: nat)
    requires ToDecimal(m) == ToDecimal(n)
    ensures m == n
  {
    DecimalRoundTrip(m);
    DecimalRoundTrip(n);
  }

  /** A non-empty digit string is worth at least its leading digit. */
  lemma {:induction false} LeadingDigitBound(s: string)
    requires IsDigits(s) && |s| >= 1
    ensures DigitsValue(s) >= DigitValue(s[0])
  {
    if |s| > 1 {
      var p := s[..|s| - 1];
      assert p[0] == s[0];
      LeadingDigitBound(p);
    }
  }

  /** The other direction of the round trip: every canonical decimal string
      is the text of the number it denotes. */
  lemma {:induction false} CanonicalDecimalRoundTrip(s: string)
    requires IsCanonical(s)
    ensures ParseBigInt(s).Some?
    ensures ToDecimal(DigitsValue(s)) == s
  {
    var n := DigitsValue(s);
    var last := s[|s| - 1];
    if |s| == 1 {
      assert s[..0] == [];
      assert DigitsValue(s) == 10 * DigitsValue(s[..0]) + DigitValue(s[0]);
      assert n == DigitValue(s[0]) < 10;
      assert ToDecimal(n) == [DigitChar(n)];
    } else {
      var p := s[..|s| - 1];
      assert p[0] == s[0];
      LeadingDigitBound(p);
      CanonicalDecimalRoundTrip(p);
      assert n / 10 == DigitsValue(p) && n % 10 == DigitValue(last);
      assert s == p + [last];
    }
  }
}
