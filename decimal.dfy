/*
 * Decimal text for integers, as `String(format:)` writes it with the `%d`
 * and `%02d` conversions, and the value of a run of decimal digits.
 */
module Decimal {

  predicate IsDigit(c: char)
  {
    '0' <= c <= '9'
  }

  predicate AllDigits(s: string)
  {
    forall i :: 0 <= i < |s| ==> IsDigit(s[i])
  }

  function DigitChar(d: nat): (c: char)
    requires d < 10
    ensures IsDigit(c) && c as int - '0' as int == d
  {
    ('0' as int + d) as char
  }

  /** The number a run of decimal digits denotes (leading zeros allowed). */
  function DigitsValue(s: string): nat
    requires AllDigits(s)
  {
    if s == [] then 0 else 10 * DigitsValue(s[..|s| - 1]) + (s[|s| - 1] as int - '0' as int)
  }

  /** The shortest decimal text of `n`: no leading zero unless `n` is zero. */
  function NatToString(n: nat): (s: string)
    ensures s != [] && AllDigits(s)
    ensures n < 10 <==> |s| == 1
    ensures s[0] == '0' <==> n == 0
  {
    if n < 10 then [DigitChar(n)] else NatToString(n / 10) + [DigitChar(n % 10)]
  }

  lemma {:induction false} NatToStringValue(n: nat)
    ensures DigitsValue(NatToString(n)) == n
  {
    if n >= 10 {
      var s := NatToString(n);
      assert s[..|s| - 1] == NatToString(n / 10);
      NatToStringValue(n / 10);
    }
  }

  /** `String(format: "%d", x)`. */
  function FormatD(x: int): string
  {
    if x < 0 then "-" + NatToString(-x) else NatToString(x)
  }

  /**
   * `String(format: "%02d", x)`: at least two characters, padded with a
   * leading zero; a minus sign counts toward the width, so a negative value
   * is never padded.
   */
  function Format02D(x: int): string
  {
    if 0 <= x < 10 then "0" + NatToString(x) else FormatD(x)
  }

  /** A non-negative `%d` field is a run of digits denoting the value. */
  lemma NonNegativeField(x: int)
    requires 0 <= x
    ensures FormatD(x) != [] && AllDigits(FormatD(x)) && DigitsValue(FormatD(x)) == x
  {
    NatToStringValue(x);
  }

  /** A `%02d` field for a value below 100 is exactly two digits denoting it. */
  lemma {:induction false} TwoDigitField(x: int)
    requires 0 <= x < 100
    ensures |Format02D(x)| == 2 && AllDigits(Format02D(x)) && DigitsValue(Format02D(x)) == x
  {
    var s := Format02D(x);
    NatToStringValue(x);
    if x < 10 {
      assert s[..1] == "0";
    } else {
      assert NatToString(x) == NatToString(x / 10) + [DigitChar(x % 10)];
    }
  }

  /** A `%02d` field for a non-negative value: at least two digits, denoting it. */
  lemma {:induction false} PaddedField(x: int)
    requires 0 <= x
    ensures |Format02D(x)| >= 2 && AllDigits(Format02D(x)) && DigitsValue(Format02D(x)) == x
  {
    if x < 100 {
      TwoDigitField(x);
    } else {
      NatToStringValue(x);
    }
  }
}
