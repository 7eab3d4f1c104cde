/**
 * Decimal rendering of non-negative integers, as Java's `"" + n` produces it,
 * and the inverse reading a server performs on a query parameter or a code
 * suffix.
 */
module Decimal {
  import opened Wrappers

  predicate IsDigit(c: char) {
    '0' <= c <= '9'
  }

  predicate AllDigits(s: string) {
    forall i :: 0 <= i < |s| ==> IsDigit(s[i])
  }

  function DigitChar(d: nat): (c: char)
    requires d < 10
    ensures IsDigit(c)
  {
    ('0' as int + d) as char
  }

  function DigitValue(c: char): (d: nat)
    requires IsDigit(c)
    ensures d < 10 && DigitChar(d) == c
  {
    c as int - '0' as int
  }

  /** A canonical decimal numeral: at least one digit, no leading zero except "0" itself. */
  predicate IsCanonical(s: string) {
    |s| >= 1 && AllDigits(s) && (s[0] == '0' ==> |s| == 1)
  }

  /** The decimal rendering of `n`, most significant digit first. */
  function ToDecimal(n: nat): (s: string)
    ensures IsCanonical(s)
    decreases n
  {
    if n < 10 then [DigitChar(n)]
    else ToDecimal(n / 10) + [DigitChar(n % 10)]
  }

  /** The value of a digit string; leading zeros are allowed and ignored. */
  function ValueOf(s: string): nat
    requires AllDigits(s)
    decreases |s|
  {
    if |s| == 0 then 0
    else ValueOf(s[..|s| - 1]) * 10 + DigitValue(s[|s| - 1])
  }

  /** Reads a canonical decimal numeral; anything else is rejected. */
  function ParseNat(s: string): (r: Option<nat>)
    ensures r.Some? <==> IsCanonical(s)
  {
    if IsCanonical(s) then Some(ValueOf(s)) else None
  }

  lemma {:induction false} ValueOfToDecimal(n: nat)
    ensures ValueOf(ToDecimal(n)) == n
    decreases n
  {
    if n >= 10 {
      var s := ToDecimal(n);
      assert s[..|s| - 1] == ToDecimal(n / 10);
      ValueOfToDecimal(n / 10);
    }
  }

  /** Reading back a rendered number yields the number. */
  lemma ParseToDecimal(n: nat)
    ensures ParseNat(ToDecimal(n)) == Some(n)
  {
    ValueOfToDecimal(n);
  }

  /** A numeral of two or more digits that does not start with '0' is worth at least 10. */
  lemma {:induction false} ValueOfAtLeastTen(s: string)
    requires |s| >= 2 && AllDigits(s) && s[0] != '0'
    ensures ValueOf(s) >= 10
    decreases |s|
  {
    var p := s[..|s| - 1];
    if |p| >= 2 {
      ValueOfAtLeastTen(p);
    } else {
      assert DigitValue(p[0]) >= 1;
    }
  }

  /** Rendering a parsed canonical numeral gives back the same text. */
  lemma {:induction false} ToDecimalValueOf(s: string)
    requires IsCanonical(s)
    ensures ToDecimal(ValueOf(s)) == s
    decreases |s|
  {
    if |s| >= 2 {
      var p := s[..|s| - 1];
      ValueOfAtLeastTen(s);
      ToDecimalValueOf(p);
      assert s == p + [s[|s| - 1]];
    }
  }

  /** The other half of the round trip: canonical text is exactly the rendering of its value. */
  lemma ToDecimalParse(s: string)
    requires ParseNat(s).Some?
    ensures ToDecimal(ParseNat(s).value) == s
  {
    ToDecimalValueOf(s);
  }
}
