/**
 * Decimal rendering of integers, as `String.format("%.2f", v)` prints a double
 * that holds an integer value: optional minus sign, the decimal digits of |v|
 * without leading zeros, then ".00".
 */
module DecimalFormat {
  import opened Outcomes

  predicate IsDigit(c: char) {
    '0' <= c <= '9'
  }

  predicate AllDigits(s: string) {
    forall i :: 0 <= i < |s| ==> IsDigit(s[i])
  }

  function DigitChar(d: nat): (c: char)
    requires d < 10
    ensures IsDigit(c) && c as int - '0' as int == d
  {
    ('0' as int + d) as char
  }

  function DigitValue(c: char): nat
    requires IsDigit(c)
  {
    c as int - '0' as int
  }

  /** The digits of n, most significant first; "0" is the only rendering that starts with '0'. */
  function NatToDecimal(n: nat): (s: string)
    ensures |s| >= 1 && AllDigits(s)
    ensures s[0] == '0' <==> n == 0
    decreases n
  {
    if n < 10 then [DigitChar(n)] else NatToDecimal(n / 10) + [DigitChar(n % 10)]
  }

  /** The number a string of digits denotes. */
  function DigitsValue(s: string): nat
    requires AllDigits(s)
  {
    if s == [] then 0 else DigitsValue(s[..|s| - 1]) * 10 + DigitValue(s[|s| - 1])
  }

  /** The "%.2f" rendering of an integer-valued double. */
  function FormatFixed2(v: int): (s: string)
    ensures |s| >= 4 && s[|s| - 3..] == ".00"
  {
    (if v < 0 then "-" + NatToDecimal(-v) else NatToDecimal(v)) + ".00"
  }

  /** Reads back a rendering of FormatFixed2's shape; None for anything else. */
  function ParseFixed2(s: string): Option<int> {
    if |s| < 4 || s[|s| - 3..] != ".00" then None
    else
      var w := s[..|s| - 3];
      if w[0] == '-' then
        if |w| >= 2 && AllDigits(w[1..]) then Some(-(DigitsValue(w[1..]) as int)) else None
      else if AllDigits(w) then Some(DigitsValue(w))
      else None
  }

  lemma {:induction false} NatToDecimalRoundTrip(n: nat)
    ensures DigitsValue(NatToDecimal(n)) == n
  {
    if n >= 10 {
      var s := NatToDecimal(n / 10);
      var t := s + [DigitChar(n % 10)];
      NatToDecimalRoundTrip(n / 10);
      assert t[..|t| - 1] == s;
    }
  }

  /** Parsing a rendering gives back the value: the rendering loses nothing. */
  lemma {:induction false} FormatFixed2RoundTrip(v: int)
    ensures ParseFixed2(FormatFixed2(v)) == Some(v)
  {
    var s := FormatFixed2(v);
    var w := s[..|s| - 3];
    if v < 0 {
      assert w == "-" + NatToDecimal(-v);
      assert w[1..] == NatToDecimal(-v);
      NatToDecimalRoundTrip(-v);
    } else {
      assert w == NatToDecimal(v);
      NatToDecimalRoundTrip(v);
    }
  }

  /** Distinct values never share a rendering. */
  lemma FormatFixed2Injective(v: int, u: int)
    requires FormatFixed2(v) == FormatFixed2(u)
    ensures v == u
  {
    FormatFixed2RoundTrip(v);
    FormatFixed2RoundTrip(u);
  }
}
