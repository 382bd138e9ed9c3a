/**
 * Decimal rendering of integers, as Rust's `to_string` writes an `i32` or
 * an `i64`: an optional minus sign followed by the digits, most significant
 * first, with no leading zero. `ParseDecimal` is the independent reading of
 * such a string; the round-trip lemma ties the two together.
 */
module Decimal {
  import opened Wrappers

  predicate IsDigit(c: char) { '0' <= c <= '9' }

  predicate AllDigits(s: string) {
    forall i :: 0 <= i < |s| ==> IsDigit(s[i])
  }

  function DigitChar(d: nat): (c: char)
    requires d < 10
    ensures IsDigit(c) && c as int - '0' as int == d
  {
    ('0' as int + d) as char
  }

  /** The digits of `n`, most significant first. */
  function NatToDecimal(n: nat): (s: string)
    ensures |s| >= 1 && AllDigits(s)
    ensures s[0] == '0' ==> n == 0 && |s| == 1
    decreases n
  {
    if n < 10 then [DigitChar(n)] else NatToDecimal(n / 10) + [DigitChar(n % 10)]
  }

  /** At least one digit, and no leading zero unless the string is "0". */
  predicate IsCanonicalNat(s: string) {
    |s| >= 1 && AllDigits(s) && (s[0] == '0' ==> |s| == 1)
  }

  /** What `to_string` writes for an integer: a canonical magnitude, preceded by '-' when it is not zero and negative. */
  predicate IsCanonicalInt(s: string) {
    || IsCanonicalNat(s)
    || (|s| >= 2 && s[0] == '-' && IsCanonicalNat(s[1..]) && s[1..] != "0")
  }

  /** `i.to_string()` for a signed integer. */
  function IntToDecimal(i: int): (s: string)
    ensures IsCanonicalInt(s)
    ensures s[0] == '-' <==> i < 0
  {
    if i < 0 then
      var digits := NatToDecimal(-i);
      assert ("-" + digits)[1..] == digits;
      "-" + digits
    else NatToDecimal(i)
  }

  /** The value of a string of digits, read most significant first. */
  function DigitsValue(s: string): nat
    requires AllDigits(s)
    decreases |s|
  {
    if s == [] then 0
    else DigitsValue(s[..|s| - 1]) * 10 + (s[|s| - 1] as int - '0' as int)
  }

  /** Reads a decimal integer: an optional '-' and at least one digit. */
  function ParseDecimal(s: string): Option<int> {
    if |s| >= 2 && s[0] == '-' && AllDigits(s[1..]) then Some(-(DigitsValue(s[1..]) as int))
    else if |s| >= 1 && AllDigits(s) then Some(DigitsValue(s))
    else None
  }

  lemma {:induction false} NatDecimalRoundTrip(n: nat)
    ensures DigitsValue(NatToDecimal(n)) == n
    decreases n
  {
    var s := NatToDecimal(n);
    if n >= 10 {
      NatDecimalRoundTrip(n / 10);
      assert s[..|s| - 1] == NatToDecimal(n / 10);
    }
  }

  /** Reading back what `to_string` wrote gives the original integer. */
  lemma IntDecimalRoundTrip(i: int)
    ensures ParseDecimal(IntToDecimal(i)) == Some(i)
  {
    var s := IntToDecimal(i);
    if i < 0 {
      NatDecimalRoundTrip(-i);
      assert s[1..] == NatToDecimal(-i);
    } else {
      NatDecimalRoundTrip(i);
    }
  }

  /** A digit string without a leading zero has a positive value. */
  lemma {:induction false} LeadingNonZeroPositive(s: string)
    requires |s| >= 1 && AllDigits(s) && s[0] != '0'
    ensures DigitsValue(s) >= 1
    decreases |s|
  {
    if |s| >= 2 {
      LeadingNonZeroPositive(s[..|s| - 1]);
    }
  }

  /** A canonical digit string is what `NatToDecimal` writes for its value. */
  lemma {:induction false} CanonicalNatUnique(s: string)
    requires IsCanonicalNat(s)
    ensures NatToDecimal(DigitsValue(s)) == s
    decreases |s|
  {
    if |s| >= 2 {
      var init := s[..|s| - 1];
      LeadingNonZeroPositive(init);
      CanonicalNatUnique(init);
      var v := DigitsValue(s);
      assert v / 10 == DigitsValue(init) && v % 10 == s[|s| - 1] as int - '0' as int;
      assert s == init + [s[|s| - 1]];
    }
  }

  /**
   * The canonical rendering is the only one: a canonical string that reads
   * back as `i` is exactly `i.to_string()`, so "07" or "-0" never stand for 7 or 0.
   */
  lemma CanonicalDecimalUnique(s: string, i: int)
    requires IsCanonicalInt(s) && ParseDecimal(s) == Some(i)
    ensures s == IntToDecimal(i)
  {
    if s[0] == '-' {
      var digits := s[1..];
      if digits[0] != '0' {
        LeadingNonZeroPositive(digits);
      }
      CanonicalNatUnique(digits);
      assert s == "-" + digits;
    } else {
      CanonicalNatUnique(s);
    }
  }

  /** Distinct integers are rendered as distinct strings. */
  lemma IntDecimalInjective(i: int, j: int)
    requires IntToDecimal(i) == IntToDecimal(j)
    ensures i == j
  {
    IntDecimalRoundTrip(i);
    IntDecimalRoundTrip(j);
  }
}
