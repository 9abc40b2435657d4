/**
 * Money as integer cents, and the two ways the application turns an amount
 * into text: JavaScript's default number-to-string conversion (`${price}`,
 * which prints 2.5 as "2.5" and 3 as "3") and `toFixed(2)` (which prints
 * "2.50" and "3.00"). Every catalogue price is a multiple of 0.50, so both
 * conversions are exact on cents.
 */
module Money {
  import opened Common

  /** An amount of money, counted in cents. */
  type Cents = int

  predicate IsDigit(c: char) {
    '0' <= c <= '9'
  }

  predicate AllDigits(s: string) {
    forall i :: 0 <= i < |s| ==> IsDigit(s[i])
  }

  function DigitChar(d: nat): (c: char)
    requires d < 10
    ensures IsDigit(c)
  {
    ('0' as int + d) as char
  }

  function DigitValue(c: char): (d: nat)
    requires IsDigit(c)
    ensures d < 10 && DigitChar(d) == c
  {
    c as int - '0' as int
  }

  /** `${n}` for a non-negative integer n: its decimal digits, no leading zero. */
  function NatToString(n: nat): (s: string)
    ensures 0 < |s| && AllDigits(s)
    ensures s[0] == '0' ==> n == 0 && s == "0"
  {
    if n < 10 then [DigitChar(n)] else NatToString(n / 10) + [DigitChar(n % 10)]
  }

  /** The number a string of decimal digits denotes. */
  function DigitsValue(s: string): nat
    requires AllDigits(s)
  {
    if s == [] then 0 else DigitsValue(s[..|s| - 1]) * 10 + DigitValue(s[|s| - 1])
  }

  lemma {:induction false} NatToStringRoundTrip(n: nat)
    ensures DigitsValue(NatToString(n)) == n
  {
    if n >= 10 {
      var s := NatToString(n);
      assert s[..|s| - 1] == NatToString(n / 10);
      NatToStringRoundTrip(n / 10);
    }
  }

  /** `${i}` for an integer i. */
  function IntToString(i: int): (s: string)
    ensures 0 < |s|
    ensures i >= 0 ==> s == NatToString(i)
    ensures i < 0 ==> s[0] == '-' && s[1..] == NatToString(-i)
  {
    if i < 0 then "-" + NatToString(-i) else NatToString(i)
  }

  function Abs(c: Cents): nat {
    if c < 0 then -c else c
  }

  function Sign(c: Cents): string {
    if c < 0 then "-" else ""
  }

  /** `x.toFixed(2)` for the amount x of `c` cents. */
  function ToFixed2(c: Cents): (s: string)
    ensures |s| >= 4 && s[|s| - 3] == '.'
    ensures IsDigit(s[|s| - 2]) && IsDigit(s[|s| - 1])
    ensures c >= 0 ==> IsDigit(s[0])
    ensures c < 0 <==> s[0] == '-'
    ensures s[|Sign(c)|] == '0' ==> Abs(c) < 100 && s[|Sign(c)| + 1] == '.'
  {
    var a := Abs(c);
    Sign(c) + NatToString(a / 100) + TwoDecimals(a)
  }

  /** `${x}` for the amount x of `c` cents: no decimal point for whole amounts, no trailing zero. */
  function NumberToString(c: Cents): (s: string)
    ensures 0 < |s|
    ensures c % 100 == 0 ==> '.' !in s
    ensures Abs(c) % 100 != 0 ==> '.' in s && s[|s| - 1] != '0'
    ensures c >= 0 ==> IsDigit(s[0])
    ensures c < 0 <==> s[0] == '-'
    ensures |Sign(c)| < |s| && (s[|Sign(c)|] == '0' ==> Abs(c) < 100)
    ensures s[|Sign(c)|] == '0' ==> |s| == |Sign(c)| + 1 || s[|Sign(c)| + 1] == '.'
  {
    var a := Abs(c);
    assert c % 100 == 0 ==> a % 100 == 0;
    assert a % 100 != 0 && a % 10 == 0 ==> a % 100 / 10 != 0;
    Sign(c) + NatToString(a / 100) + ShortDecimals(a)
  }

  /**
   * Reads back a decimal amount: an optional '-', one or more digits, and
   * optionally a '.' followed by one or two digits. Anything else is None.
   */
  function ParseAmount(s: string): Option<Cents> {
    if |s| > 0 && s[0] == '-' then
      match ParseUnsigned(s[1..])
      case Some(v) => Some(-(v as int))
      case None => None
    else
      ParseUnsigned(s)
  }

  /** One or more digits, then optionally a point and one or two digits. */
  function ParseUnsigned(s: string): Option<nat> {
    var n := |s|;
    if 0 < n && AllDigits(s) then Some(DigitsValue(s) * 100)
    else if 2 < n && s[n - 2] == '.' && IsDigit(s[n - 1]) && AllDigits(s[..n - 2]) then
      Some(DigitsValue(s[..n - 2]) * 100 + 10 * DigitValue(s[n - 1]))
    else if 3 < n && s[n - 3] == '.' && IsDigit(s[n - 2]) && IsDigit(s[n - 1]) && AllDigits(s[..n - 3]) then
      Some(DigitsValue(s[..n - 3]) * 100 + 10 * DigitValue(s[n - 2]) + DigitValue(s[n - 1]))
    else None
  }

  lemma SplitCents(a: nat)
    ensures a == a / 100 * 100 + 10 * (a % 100 / 10) + a % 10
  {
    var r := a % 100;
    assert a == a / 100 * 100 + r;
    assert r == r / 10 * 10 + r % 10;
    assert a % 10 == r % 10 by {
      assert a == (a / 100 * 10) * 10 + r;
    }
  }

  /** The fraction toFixed(2) and the default conversion print after the point, if any. */
  function TwoDecimals(a: nat): string {
    "." + [DigitChar(a % 100 / 10), DigitChar(a % 10)]
  }

  function ShortDecimals(a: nat): string {
    if a % 100 == 0 then ""
    else if a % 10 == 0 then "." + [DigitChar(a % 100 / 10)]
    else TwoDecimals(a)
  }

  /** Digits followed by a point and one or two digits read back as units and tenths (and hundredths). */
  lemma ParseFraction(w: string, fraction: string)
    requires 0 < |w| && AllDigits(w)
    requires 2 <= |fraction| <= 3 && fraction[0] == '.'
    requires IsDigit(fraction[1]) && (|fraction| == 3 ==> IsDigit(fraction[2]))
    ensures ParseUnsigned(w + fraction) ==
      Some(DigitsValue(w) * 100 + 10 * DigitValue(fraction[1])
           + (if |fraction| == 3 then DigitValue(fraction[2]) else 0))
  {
    var s := w + fraction;
    var n := |s|;
    assert !IsDigit(s[|w|]);
    assert s[..|w|] == w;
    if |fraction| == 2 {
      assert s[n - 2] == '.' && s[n - 1] == fraction[1];
    } else {
      assert s[n - 2] == fraction[1] != '.';
      assert s[n - 3] == '.' && s[n - 1] == fraction[2];
    }
  }

  /** Reading the unsigned form "<whole><fraction>" back gives the amount. */
  lemma ParseUnsignedForm(a: nat, fraction: string)
    requires fraction == TwoDecimals(a) || fraction == ShortDecimals(a)
    ensures ParseUnsigned(NatToString(a / 100) + fraction) == Some(a)
  {
    var w := NatToString(a / 100);
    NatToStringRoundTrip(a / 100);
    SplitCents(a);
    if fraction == "" {
      assert a % 100 == 0;
      assert w + fraction == w;
    } else {
      ParseFraction(w, fraction);
      assert DigitValue(fraction[1]) == a % 100 / 10;
      if |fraction| == 2 {
        assert a % 10 == 0;
      } else {
        assert DigitValue(fraction[2]) == a % 10;
      }
    }
  }

  /** toFixed(2) loses nothing: the printed text reads back as the same amount. */
  lemma ToFixed2RoundTrip(c: Cents)
    ensures ParseAmount(ToFixed2(c)) == Some(c)
  {
    var a := Abs(c);
    ParseUnsignedForm(a, TwoDecimals(a));
    assert ToFixed2(c) == Sign(c) + (NatToString(a / 100) + TwoDecimals(a));
    SignedForm(c, NatToString(a / 100) + TwoDecimals(a));
  }

  /** The default conversion loses nothing either: it reads back as the same amount. */
  lemma NumberToStringRoundTrip(c: Cents)
    ensures ParseAmount(NumberToString(c)) == Some(c)
  {
    var a := Abs(c);
    ParseUnsignedForm(a, ShortDecimals(a));
    assert NumberToString(c) == Sign(c) + (NatToString(a / 100) + ShortDecimals(a));
    SignedForm(c, NatToString(a / 100) + ShortDecimals(a));
  }

  /** Putting the sign in front of the unsigned form reads back with the sign. */
  lemma SignedForm(c: Cents, u: string)
    requires ParseUnsigned(u) == Some(Abs(c))
    requires 0 < |u| && u[0] != '-'
    ensures ParseAmount(Sign(c) + u) == Some(c)
  {
    if c < 0 {
      assert (Sign(c) + u)[1..] == u;
    } else {
      assert Sign(c) + u == u;
    }
  }

  /** Both renderings of an amount denote the same number of cents. */
  lemma RenderingsAgree(c: Cents)
    ensures ParseAmount(NumberToString(c)) == ParseAmount(ToFixed2(c)) == Some(c)
  {
    ToFixed2RoundTrip(c);
    NumberToStringRoundTrip(c);
  }
}
