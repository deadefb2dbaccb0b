/**
 * Plain decimal notation of an integer, as `BigDecimal.toPlainString` writes a whole
 * number: an optional minus sign, then the digits without leading zeros.
 */
module Decimal {

  predicate IsDigit(c: char)
  {
    '0' <= c <= '9'
  }

  predicate AllDigits(s: string)
  {
    forall i :: 0 <= i < |s| ==> IsDigit(s[i])
  }

  function DigitValue(c: char): (d: nat)
    requires IsDigit(c)
    ensures d < 10
  {
    c as int - '0' as int
  }

  function DigitChar(d: nat): (c: char)
    requires d < 10
    ensures IsDigit(c) && DigitValue(c) == d
  {
    ('0' as int + d) as char
  }

  /** The digits of `n`, most significant first. */
  function Digits(n: nat): (s: string)
    ensures |s| >= 1 && AllDigits(s)
    ensures s[0] == '0' <==> n == 0
    ensures n == 0 ==> s == "0"
    decreases n
  {
    if n < 10 then [DigitChar(n)] else Digits(n / 10) + [DigitChar(n % 10)]
  }

  /** The number a string of digits denotes (the empty string denotes 0). */
  function DigitsValue(s: string): nat
    requires AllDigits(s)
  {
    if |s| == 0 then 0 else 10 * DigitsValue(s[..|s| - 1]) + DigitValue(s[|s| - 1])
  }

  lemma {:induction false} DigitsRoundTrip(n: nat)
    ensures DigitsValue(Digits(n)) == n
    decreases n
  {
    var s := Digits(n);
    if n >= 10 {
      DigitsRoundTrip(n / 10);
      assert s[..|s| - 1] == Digits(n / 10);
    }
  }

  /** Java's rendering of a whole number. */
  function IntToString(n: int): (s: string)
    ensures Canonical(s)
    ensures s[0] == '-' <==> n < 0
  {
    if n < 0 then "-" + Digits(-n) else Digits(n)
  }

  /** An optional minus sign followed by at least one digit. */
  predicate IsNumeral(s: string)
  {
    if |s| >= 1 && s[0] == '-' then |s| >= 2 && AllDigits(s[1..]) else |s| >= 1 && AllDigits(s)
  }

  /** A numeral as plain notation writes it: no leading zero except in "0" itself, and no "-0". */
  predicate Canonical(s: string)
  {
    IsNumeral(s) &&
    (if s[0] == '-' then s[1] != '0' else s[0] == '0' ==> s == "0")
  }

  function ParseInt(s: string): int
    requires IsNumeral(s)
  {
    if s[0] == '-' then 0 - DigitsValue(s[1..]) as int else DigitsValue(s)
  }

  /** Reading the rendering back gives the number. */
  lemma IntToStringRoundTrip(n: int)
    ensures ParseInt(IntToString(n)) == n
  {
    if n < 0 {
      assert IntToString(n)[1..] == Digits(-n);
      DigitsRoundTrip(-n);
    } else {
      DigitsRoundTrip(n);
    }
  }

  /** Different numbers render differently. */
  lemma IntToStringInjective(a: int, b: int)
    ensures IntToString(a) == IntToString(b) ==> a == b
  {
    IntToStringRoundTrip(a);
    IntToStringRoundTrip(b);
  }

  /** A string of digits that starts with a non-zero digit denotes a positive number. */
  lemma {:induction false} DigitsValuePositive(t: string)
    requires |t| >= 1 && AllDigits(t) && t[0] != '0'
    ensures DigitsValue(t) >= 1
    decreases |t|
  {
    if |t| > 1 {
      DigitsValuePositive(t[..|t| - 1]);
    }
  }

  /** Digits without a leading zero are the digits of the number they denote. */
  lemma {:induction false} CanonicalDigits(t: string)
    requires |t| >= 1 && AllDigits(t) && (t[0] == '0' ==> t == "0")
    ensures Digits(DigitsValue(t)) == t
    decreases |t|
  {
    var n := DigitsValue(t);
    if |t| == 1 {
      assert t[..0] == "";
      assert DigitsValue(t[..0]) == 0;
      assert n == DigitValue(t[0]);
      assert Digits(n) == [DigitChar(n)];
    } else {
      var init := t[..|t| - 1];
      var d := DigitValue(t[|t| - 1]);
      CanonicalDigits(init);
      DigitsValuePositive(init);
      assert n == 10 * DigitsValue(init) + d;
      assert n / 10 == DigitsValue(init) && n % 10 == d;
      assert t == init + [t[|t| - 1]];
    }
  }

  /** A canonical numeral is the rendering of its value: the notation of a number is unique. */
  lemma CanonicalRoundTrip(s: string)
    requires Canonical(s)
    ensures IntToString(ParseInt(s)) == s
  {
    if s[0] == '-' {
      var t := s[1..];
      CanonicalDigits(t);
      DigitsValuePositive(t);
      assert s == "-" + t;
    } else {
      CanonicalDigits(s);
    }
  }
}
