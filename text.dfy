/** Decimal rendering used by the routes' display strings: a natural number
    in base ten and a rate with exactly two decimals ('%.2f'). */
module Text {

  predicate IsDigit(ch: char) {
    '0' <= ch <= '9'
  }

  predicate IsDigits(s: string) {
    forall i | 0 <= i < |s| :: IsDigit(s[i])
  }

  function DigitValue(ch: char): (d: nat)
    requires IsDigit(ch)
    ensures d < 10
  {
    ch as int - '0' as int
  }

  function DigitChar(d: nat): (ch: char)
    requires d < 10
    ensures IsDigit(ch) && DigitValue(ch) == d
  {
    ('0' as int + d) as char
  }

  /** The shortest base-ten representation of n. */
  function NatToString(n: nat): (s: string)
    ensures |s| >= 1 && IsDigits(s)
    ensures |s| == 1 || s[0] != '0'
    decreases n
  {
    if n < 10 then [DigitChar(n)] else NatToString(n / 10) + [DigitChar(n % 10)]
  }

  /** The value of a string of decimal digits (most significant first). */
  function ParseNat(s: string): nat
    requires IsDigits(s)
  {
    if s == [] then 0 else ParseNat(s[..|s| - 1]) * 10 + DigitValue(s[|s| - 1])
  }

  lemma {:induction false} ParseNatToString(n: nat)
    ensures ParseNat(NatToString(n)) == n
  {
    if n >= 10 {
      var s := NatToString(n / 10);
      ParseNatToString(n / 10);
      assert (s + [DigitChar(n % 10)])[..|s|] == s;
    }
  }

  /** x rounded to the nearest integer, a tie going to the even neighbour. */
  function RoundHalfEven(x: real): (n: nat)
    requires x >= 0.0
    ensures -0.5 <= x - n as real <= 0.5
    ensures (x - n as real == 0.5 || n as real - x == 0.5) ==> n % 2 == 0
  {
    var f := x.Floor;
    var frac := x - f as real;
    if frac > 0.5 || (frac == 0.5 && f % 2 == 1) then f + 1 else f
  }

  /** A non-negative rate as a whole number of hundredths. */
  function Cents(rate: real): nat
    requires rate >= 0.0
  {
    RoundHalfEven(rate * 100.0)
  }

  /** A whole number of hundredths written as units, a point and two digits. */
  function FormatCents(c: nat): (s: string)
    ensures |s| >= 4 && s[|s| - 3] == '.'
    ensures IsDigits(s[..|s| - 3]) && IsDigits(s[|s| - 2..])
  {
    var s := NatToString(c / 100) + "." + [DigitChar(c / 10 % 10), DigitChar(c % 10)];
    assert s[..|s| - 3] == NatToString(c / 100);
    s
  }

  /** Reads back a string of the shape FormatCents produces. */
  function ParseCents(s: string): nat
    requires |s| >= 4 && s[|s| - 3] == '.'
    requires IsDigits(s[..|s| - 3]) && IsDigits(s[|s| - 2..])
  {
    ParseNat(s[..|s| - 3]) * 100 + ParseNat(s[|s| - 2..])
  }

  /** The rate formatted as '%.2f' formats it. */
  function FormatRate2(rate: real): (s: string)
    requires rate >= 0.0
    ensures |s| >= 4 && s[|s| - 3] == '.' && IsDigit(s[|s| - 1])
    ensures IsDigits(s[..|s| - 3]) && IsDigits(s[|s| - 2..])
  {
    FormatCents(Cents(rate))
  }

  /** Formatting loses nothing of the rounded value. */
  lemma FormatCentsRoundTrip(c: nat)
    ensures ParseCents(FormatCents(c)) == c
  {
    var s := FormatCents(c);
    var units := NatToString(c / 100);
    assert s[..|s| - 3] == units;
    ParseNatToString(c / 100);
    var tail := s[|s| - 2..];
    assert tail == [DigitChar(c / 10 % 10), DigitChar(c % 10)];
    var hi := [DigitChar(c / 10 % 10)];
    assert tail[..1] == hi && hi[..0] == [];
    assert ParseNat(hi) == c / 10 % 10;
    assert ParseNat(tail) == (c / 10 % 10) * 10 + c % 10;
  }

  /** A rate that is an exact number of hundredths is not rounded. */
  lemma CentsOfHundredths(k: nat)
    ensures Cents(k as real / 100.0) == k
  {
    var x := k as real / 100.0 * 100.0;
    assert x == k as real;
    var n := RoundHalfEven(x);
    assert -0.5 <= k as real - n as real <= 0.5;
  }

  /** So '%.2f' of k hundredths reads back as k. */
  lemma FormatRate2OfHundredths(k: nat)
    ensures ParseCents(FormatRate2(k as real / 100.0)) == k
  {
    CentsOfHundredths(k);
    FormatCentsRoundTrip(k);
  }
}
