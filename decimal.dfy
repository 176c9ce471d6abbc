/** Decimal text of integers: `String.valueOf(int)` and `(char) (d + 48)`,
    with the parser that inverts them. */
module Decimal {
  import opened Outcomes

  predicate IsDigit(c: char) { '0' <= c <= '9' }

  /** The value of an ASCII digit. */
  function DigitValue(c: char): int { c as int - 48 }

  /** `(char) (d + 48)`: the ASCII digit of a value in [0, 9]. */
  function DigitChar(d: int): (c: char)
    requires 0 <= d <= 9
    ensures IsDigit(c) && DigitValue(c) == d
  {
    (d + 48) as char
  }

  /** The decimal digits of a non-negative value, most significant first. */
  function NatToString(n: nat): string
    decreases n
  {
    if n < 10 then [DigitChar(n)] else NatToString(n / 10) + [DigitChar(n % 10)]
  }

  /** `String.valueOf(int)`: a minus sign for a negative value, then the digits. */
  function IntToString(i: int): string
  {
    if i < 0 then "-" + NatToString(-i) else NatToString(i)
  }

  /** Non-empty digits without a leading zero (except "0" itself). */
  predicate IsNumeral(s: string)
  {
    && |s| > 0
    && (forall k :: 0 <= k < |s| ==> IsDigit(s[k]))
    && (s[0] == '0' ==> |s| == 1)
  }

  /** The canonical decimal form of an integer; there is no "-0". */
  predicate IsDecimal(s: string)
  {
    IsNumeral(s) || (|s| > 1 && s[0] == '-' && IsNumeral(s[1..]) && s[1] != '0')
  }

  function NumeralValue(s: string): int
    decreases |s|
  {
    if s == [] then 0 else NumeralValue(s[..|s| - 1]) * 10 + DigitValue(s[|s| - 1])
  }

  /** Reads back a canonical decimal string; anything else is rejected. */
  function ParseDecimal(s: string): Option<int>
  {
    if !IsDecimal(s) then None
    else if s[0] == '-' then Some(-NumeralValue(s[1..]))
    else Some(NumeralValue(s))
  }

  lemma {:induction false} NatToStringIsNumeral(n: nat)
    ensures IsNumeral(NatToString(n))
    ensures NumeralValue(NatToString(n)) == n
    ensures n > 0 ==> NatToString(n)[0] != '0'
    decreases n
  {
    if n >= 10 {
      NatToStringIsNumeral(n / 10);
      var s := NatToString(n);
      assert s[..|s| - 1] == NatToString(n / 10);
      assert s[0] == NatToString(n / 10)[0];
    }
  }

  /** Every integer prints in canonical form and reads back as itself. */
  lemma IntToStringRoundTrip(i: int)
    ensures IsDecimal(IntToString(i))
    ensures ParseDecimal(IntToString(i)) == Some(i)
  {
    if i < 0 {
      NatToStringIsNumeral(-i);
      assert IntToString(i)[1..] == NatToString(-i);
    } else {
      NatToStringIsNumeral(i);
    }
  }

  lemma {:induction false} NumeralRoundTrip(s: string)
    requires IsNumeral(s)
    ensures NumeralValue(s) >= 0
    ensures NatToString(NumeralValue(s)) == s
    decreases |s|
  {
    var d := DigitValue(s[|s| - 1]);
    if |s| == 1 {
      assert s == [DigitChar(d)];
    } else {
      var t := s[..|s| - 1];
      assert IsNumeral(t);
      NumeralRoundTrip(t);
      var v := NumeralValue(t);
      assert v != 0 by { assert NatToString(0) == "0"; }
      var n := v * 10 + d;
      assert n / 10 == v && n % 10 == d;
      assert NatToString(n) == t + [DigitChar(d)];
      assert s == t + [s[|s| - 1]];
    }
  }

  /** Every canonical decimal string is the printed form of the value it reads as. */
  lemma DecimalRoundTrip(s: string)
    requires IsDecimal(s)
    ensures ParseDecimal(s).Some?
    ensures IntToString(ParseDecimal(s).value) == s
  {
    if s[0] == '-' {
      var t := s[1..];
      NumeralRoundTrip(t);
      assert NumeralValue(t) != 0 by { assert NatToString(0) == "0"; }
      assert s == "-" + t;
    } else {
      NumeralRoundTrip(s);
    }
  }
}
