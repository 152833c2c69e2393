/**
 * Text rendering used by the expense notifier.
 *
 * The notifier shows an amount held in kopiykas (minor units) as
 * `(amount / 100).toFixed(2)`. For integer amounts of realistic size the
 * floating-point quotient is close enough to the two-decimal value that
 * `toFixed(2)` recovers it exactly, so the rendering is modelled with
 * integers: a sign, the major units, a point and two digits of minor units.
 */
module Decimal {
  import opened Wrappers

  predicate IsDigit(c: char) {
    '0' <= c <= '9'
  }

  predicate AllDigits(s: string) {
    forall i :: 0 <= i < |s| ==> IsDigit(s[i])
  }

  function DigitChar(d: nat): (c: char)
    requires d < 10
    ensures IsDigit(c) && c as int - '0' as int == d
  {
    ('0' as int + d) as char
  }

  function DigitValue(c: char): (d: nat)
    requires IsDigit(c)
    ensures d < 10 && DigitChar(d) == c
  {
    c as int - '0' as int
  }

  /** Decimal digits of `n`, most significant first, without leading zeros. */
  function Digits(n: nat): (s: string)
    ensures 1 <= |s| && AllDigits(s)
    ensures |s| > 1 ==> s[0] != '0'
    ensures n < 10 <==> |s| == 1
  {
    if n < 10 then [DigitChar(n)] else Digits(n / 10) + [DigitChar(n % 10)]
  }

  /** The value of a string of decimal digits (the empty string reads as 0). */
  function ParseDigits(s: string): (n: nat)
    requires AllDigits(s)
  {
    if s == [] then 0 else ParseDigits(s[..|s| - 1]) * 10 + DigitValue(s[|s| - 1])
  }

  lemma {:induction false} ParseDigitsOfDigits(n: nat)
    ensures ParseDigits(Digits(n)) == n
  {
    var s := Digits(n);
    if n >= 10 {
      assert s[..|s| - 1] == Digits(n / 10);
      ParseDigitsOfDigits(n / 10);
    }
  }

  /** Two digits for a value below 100, with a leading zero when needed. */
  function Pad2(k: nat): (s: string)
    requires k < 100
    ensures |s| == 2 && AllDigits(s) && ParseDigits(s) == k
  {
    var s := [DigitChar(k / 10), DigitChar(k % 10)];
    assert s[..1] == [DigitChar(k / 10)];
    assert [DigitChar(k / 10)][..0] == [];
    assert ParseDigits(s[..1]) == k / 10;
    assert ParseDigits(s) == (k / 10) * 10 + k % 10;
    s
  }

  function Abs(n: int): nat {
    if n < 0 then -n else n
  }

  /**
   * `(n / 100).toFixed(2)` for an amount `n` in minor units: a minus sign
   * exactly when `n` is negative, the major units, a point, and the minor
   * units as exactly two digits.
   */
  function FormatMinor(n: int): (s: string)
    ensures 4 <= |s|
    ensures (s[0] == '-') <==> n < 0
    ensures s[|s| - 3] == '.' && AllDigits(s[|s| - 2..])
  {
    (if n < 0 then "-" else "") + Digits(Abs(n) / 100) + "." + Pad2(Abs(n) % 100)
  }

  /** Reads back an unsigned rendering `digits.dd` into minor units. */
  function ParseUnsigned(s: string): (r: Option<nat>)
  {
    if |s| < 4 || s[|s| - 3] != '.' then None
    else
      var whole, cents := s[..|s| - 3], s[|s| - 2..];
      if !AllDigits(whole) || !AllDigits(cents) then None
      else Some(ParseDigits(whole) * 100 + ParseDigits(cents))
  }

  /**
   * Reads back a rendering of the form `[-]digits.dd` into minor units;
   * `None` for any other text.
   */
  function ParseMinor(s: string): (r: Option<int>)
  {
    if s != [] && s[0] == '-' then
      match ParseUnsigned(s[1..])
      case Some(m) => Some(-(m as int))
      case None => None
    else
      match ParseUnsigned(s)
      case Some(m) => Some(m)
      case None => None
  }

  lemma ParseUnsignedParts(whole: string, cents: string)
    requires whole != [] && AllDigits(whole) && |cents| == 2 && AllDigits(cents)
    ensures ParseUnsigned(whole + "." + cents) == Some(ParseDigits(whole) * 100 + ParseDigits(cents))
  {
    var s := whole + "." + cents;
    assert s[..|s| - 3] == whole;
    assert s[|s| - 2..] == cents;
  }

  /** Rendering an amount and reading it back gives the amount. */
  lemma FormatMinorRoundTrip(n: int)
    ensures ParseMinor(FormatMinor(n)) == Some(n)
  {
    var q, r := Abs(n) / 100, Abs(n) % 100;
    var unsigned := Digits(q) + "." + Pad2(r);
    ParseUnsignedParts(Digits(q), Pad2(r));
    ParseDigitsOfDigits(q);
    assert q * 100 + r == Abs(n);
    if n < 0 {
      assert FormatMinor(n) == "-" + unsigned;
      assert FormatMinor(n)[1..] == unsigned;
    } else {
      assert FormatMinor(n) == unsigned;
      assert unsigned[0] == Digits(q)[0];
    }
  }
}
