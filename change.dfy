/** Rendering of the last rating change (`formatChange`) and its CSS class
    (`getChangeClass`). Integers are printed the way JavaScript's
    `Number.prototype.toString` prints them below 10^21: decimal digits,
    a leading minus sign for negatives, no leading zeros. */
module Change {
  import opened Wrappers

  predicate IsDigit(c: char)
  {
    '0' <= c <= '9'
  }

  predicate AllDigits(s: string)
  {
    forall i :: 0 <= i < |s| ==> IsDigit(s[i])
  }

  function DigitChar(d: nat): (c: char)
    requires d < 10
    ensures IsDigit(c) && (c == '0' <==> d == 0)
  {
    (48 + d) as char
  }

  /** Decimal digits of a natural number, most significant first. */
  function Decimal(n: nat): (s: string)
    ensures |s| >= 1 && AllDigits(s)
    ensures s[0] == '0' <==> n == 0
    ensures n == 0 ==> s == "0"
  {
    if n < 10 then [DigitChar(n)] else Decimal(n / 10) + [DigitChar(n % 10)]
  }

  /** Value of a string of decimal digits (the inverse of Decimal). */
  function DigitsValue(s: string): nat
    requires AllDigits(s)
  {
    if s == [] then 0 else 10 * DigitsValue(s[..|s| - 1]) + ((s[|s| - 1] as int) - 48)
  }

  lemma {:induction false} DecimalRoundTrip(n: nat)
    ensures DigitsValue(Decimal(n)) == n
  {
    if n >= 10 {
      DecimalRoundTrip(n / 10);
      var s := Decimal(n);
      assert s[..|s| - 1] == Decimal(n / 10);
    }
  }

  /** The source's `formatChange`. */
  function FormatChange(change: int): (s: string)
    ensures |s| >= 1
  {
    if change > 0 then "+" + Decimal(change)
    else if change < 0 then "-" + Decimal(-change)
    else "0"
  }

  /** The source's `getChangeClass`. */
  function ChangeClass(change: int): (c: string)
    ensures c == "positive" <==> change > 0
    ensures c == "negative" <==> change < 0
    ensures c == "neutral" <==> change == 0
  {
    if change > 0 then "positive"
    else if change < 0 then "negative"
    else "neutral"
  }

  /** Reads back a rendered change: "0", or a sign followed by digits
      without a leading zero. */
  function ParseChange(s: string): Option<int>
  {
    if s == "0" then Some(0)
    else if |s| >= 2 && (s[0] == '+' || s[0] == '-') && AllDigits(s[1..]) && s[1] != '0' then
      var v: int := DigitsValue(s[1..]);
      Some(if s[0] == '+' then v else -v)
    else None
  }

  /** The rendering loses nothing: reading it back gives the change. */
  lemma FormatChangeRoundTrip(change: int)
    ensures ParseChange(FormatChange(change)) == Some(change)
  {
    var s := FormatChange(change);
    if change > 0 {
      DecimalRoundTrip(change);
      assert s[1..] == Decimal(change);
    } else if change < 0 {
      DecimalRoundTrip(-change);
      assert s[1..] == Decimal(-change);
    }
  }

  /** Different changes are rendered differently. */
  lemma FormatChangeInjective(a: int, b: int)
    requires FormatChange(a) == FormatChange(b)
    ensures a == b
  {
    FormatChangeRoundTrip(a);
    FormatChangeRoundTrip(b);
  }

  /** The text and the class agree on the sign: a leading '+' goes with
      "positive", a leading '-' with "negative", and "0" with "neutral". */
  lemma SignAgreement(change: int)
    ensures FormatChange(change)[0] == '+' <==> ChangeClass(change) == "positive"
    ensures FormatChange(change)[0] == '-' <==> ChangeClass(change) == "negative"
    ensures FormatChange(change) == "0" <==> ChangeClass(change) == "neutral"
    ensures ChangeClass(change) == "positive" <==> change > 0
    ensures ChangeClass(change) == "negative" <==> change < 0
  {
  }
}
