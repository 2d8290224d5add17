/**
 * Python's `str` on integers (the `map(str, d)` of run.py) and a decimal
 * parser that serves as its inverse.
 */
module Decimal {
  import opened Wrappers

  predicate IsDigit(ch: char)
  {
    '0' <= ch <= '9'
  }

  predicate AllDigits(s: string)
  {
    forall k :: 0 <= k < |s| ==> IsDigit(s[k])
  }

  function DigitChar(d: nat): (ch: char)
    requires d < 10
    ensures IsDigit(ch)
  {
    ('0' as int + d) as char
  }

  function DigitValue(ch: char): (d: nat)
    requires IsDigit(ch)
    ensures d < 10 && DigitChar(d) == ch
  {
    ch as int - '0' as int
  }

  /** The decimal digits of `n`, most significant first, with no leading zero. */
  function NatToStr(n: nat): (s: string)
    ensures |s| > 0 && AllDigits(s)
    ensures s[0] == '0' <==> n == 0
    decreases n
  {
    if n < 10 then [DigitChar(n)] else NatToStr(n / 10) + [DigitChar(n % 10)]
  }

  /**
   * `str(x)`: a minus sign for a negative number, then the digits of its
   * magnitude, with no leading zero except in "0" itself.
   */
  function IntToStr(x: int): (s: string)
    ensures |s| > 0
    ensures forall k :: 0 <= k < |s| ==> IsDigit(s[k]) || (k == 0 && s[k] == '-')
    ensures s[0] == '-' <==> x < 0
    ensures s[0] == '0' ==> s == "0"
    ensures x < 0 ==> |s| > 1 && s[1] != '0'
  {
    if x < 0 then "-" + NatToStr(-x) else NatToStr(x)
  }

  /** A numeral holds only digits and a leading minus sign, so no punctuation of SQL. */
  lemma IntToStrFree(x: int, ch: char)
    requires !IsDigit(ch) && ch != '-'
    ensures ch !in IntToStr(x)
  {
  }

  /** The value of a string of digits. */
  function DigitsValue(s: string): nat
    requires AllDigits(s)
  {
    if s == [] then 0 else DigitsValue(s[..|s| - 1]) * 10 + DigitValue(s[|s| - 1])
  }

  /** An optional minus sign followed by at least one digit, read as an integer. */
  function ParseInt(s: string): Option<int>
  {
    if |s| > 0 && AllDigits(s) then Some(DigitsValue(s))
    else if |s| > 1 && s[0] == '-' && AllDigits(s[1..]) then Some(0 - DigitsValue(s[1..]))
    else None
  }

  lemma {:induction false} NatToStrValue(n: nat)
    ensures DigitsValue(NatToStr(n)) == n
    decreases n
  {
    if n >= 10 {
      var s := NatToStr(n);
      assert s[..|s| - 1] == NatToStr(n / 10);
      NatToStrValue(n / 10);
    }
  }

  /** Reading back `str(x)` gives `x`, for every integer, negative ones included. */
  lemma IntToStrRoundTrip(x: int)
    ensures ParseInt(IntToStr(x)) == Some(x)
  {
    var s := IntToStr(x);
    if x < 0 {
      assert s[1..] == NatToStr(-x);
      NatToStrValue(-x);
    } else {
      NatToStrValue(x);
    }
  }
}
