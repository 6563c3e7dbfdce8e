/**
 * The decimal rendering Java uses when an `int` is concatenated to a string
 * (`"Battery is at " + currentLevel`), i.e. `Integer.toString`: an optional
 * minus sign followed by the digits without leading zeros. Its inverse,
 * `NumeralValue`, shows that the rendering loses no information, which is
 * what lets the alarm and status texts identify the reading they report.
 */
module JavaText {

  predicate IsDigit(c: char) {
    '0' <= c <= '9'
  }

  predicate IsDigits(s: string) {
    forall i :: 0 <= i < |s| ==> IsDigit(s[i])
  }

  /** A sign-optional decimal numeral. */
  predicate IsNumeral(s: string) {
    IsDigits(s) || (|s| >= 1 && s[0] == '-' && IsDigits(s[1..]))
  }

  function DigitChar(d: nat): (c: char)
    requires d < 10
    ensures IsDigit(c) && c as int - '0' as int == d
  {
    ('0' as int + d) as char
  }

  function DigitValue(c: char): nat
    requires IsDigit(c)
  {
    c as int - '0' as int
  }

  /** The digits of `n`, most significant first, with no leading zero. */
  function NatToString(n: nat): (s: string)
    ensures |s| >= 1 && IsDigits(s)
    ensures s[0] == '0' <==> n == 0
    decreases n
  {
    if n < 10 then [DigitChar(n)] else NatToString(n / 10) + [DigitChar(n % 10)]
  }

  /** Java's `Integer.toString(n)`, the text an `int` contributes to a string concatenation. */
  function IntToString(n: int): (s: string)
    ensures |s| >= 1 && IsNumeral(s)
    ensures s[0] == '-' <==> n < 0
  {
    if n < 0 then "-" + NatToString(-n) else NatToString(n)
  }

  /** The number a string of digits denotes. */
  function DigitsValue(s: string): nat
    requires IsDigits(s)
  {
    if s == [] then 0 else 10 * DigitsValue(s[..|s| - 1]) + DigitValue(s[|s| - 1])
  }

  /** The number a sign-optional numeral denotes. */
  function NumeralValue(s: string): int
    requires IsNumeral(s)
  {
    if |s| >= 1 && s[0] == '-' then -(DigitsValue(s[1..]) as int) else DigitsValue(s)
  }

  lemma {:induction false} NatToStringRoundTrip(n: nat)
    ensures DigitsValue(NatToString(n)) == n
  {
    if n >= 10 {
      var prefix := NatToString(n / 10);
      var s := NatToString(n);
      assert s == prefix + [DigitChar(n % 10)];
      assert s[..|s| - 1] == prefix;
      NatToStringRoundTrip(n / 10);
    }
  }

  /** Reading back what `IntToString` wrote gives the original number. */
  lemma IntToStringRoundTrip(n: int)
    ensures NumeralValue(IntToString(n)) == n
  {
    if n < 0 {
      assert IntToString(n)[1..] == NatToString(-n);
      NatToStringRoundTrip(-n);
    } else {
      NatToStringRoundTrip(n);
    }
  }

  /** Different numbers are rendered differently. */
  lemma IntToStringInjective(a: int, b: int)
    requires IntToString(a) == IntToString(b)
    ensures a == b
  {
    IntToStringRoundTrip(a);
    IntToStringRoundTrip(b);
  }

  /**
   * A number written between a fixed prefix and a fixed suffix can be
   * recovered from the whole text.
   */
  lemma FramedIntInjective(prefix: string, a: int, b: int, suffix: string)
    requires prefix + IntToString(a) + suffix == prefix + IntToString(b) + suffix
    ensures a == b
  {
    var s := prefix + IntToString(a) + suffix;
    var t := prefix + IntToString(b) + suffix;
    assert |IntToString(a)| == |IntToString(b)|;
    assert IntToString(a) == s[|prefix|..|s| - |suffix|];
    assert IntToString(b) == t[|prefix|..|t| - |suffix|];
    IntToStringInjective(a, b);
  }
}
