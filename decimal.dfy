/** Go's `%d` rendering of an integer in base 10, with a parser that inverts it. */
module Decimal {
  import opened Wrappers

  function Digit(d: int): char
    requires 0 <= d < 10
  {
    ('0' as int + d) as char
  }

  predicate IsDigit(c: char)
  {
    '0' <= c <= '9'
  }

  /** The digits of `n`, most significant first, without leading zeros. */
  function Digits(n: nat): (s: string)
    ensures |s| >= 1
    ensures forall i :: 0 <= i < |s| ==> IsDigit(s[i])
    ensures |s| > 1 ==> s[0] != '0'
  {
    if n < 10 then [Digit(n)] else Digits(n / 10) + [Digit(n % 10)]
  }

  /** `%d`: a minus sign for negative numbers, then the digits of the magnitude. */
  function Format(n: int): (s: string)
    ensures |s| >= 1 && (s[0] == '-' <==> n < 0)
    ensures forall i :: (if n < 0 then 1 else 0) <= i < |s| ==> IsDigit(s[i])
  {
    if n < 0 then "-" + Digits(-n) else Digits(n)
  }

  /** The value of a string of digits. */
  function DigitsValue(s: string): nat
    requires forall i :: 0 <= i < |s| ==> IsDigit(s[i])
  {
    if |s| == 0 then 0
    else
      assert IsDigit(s[|s| - 1]);
      DigitsValue(s[..|s| - 1]) * 10 + (s[|s| - 1] as int - '0' as int)
  }

  /** Parses what `Format` produces; `None` for an empty string, a stray character or a leading zero. */
  function Parse(s: string): Option<int>
  {
    if |s| > 0 && s[0] == '-' then
      match ParseNat(s[1..])
      case Some(n) => if n == 0 then None else Some(-(n as int))
      case None => None
    else
      match ParseNat(s)
      case Some(n) => Some(n)
      case None => None
  }

  function ParseNat(s: string): Option<nat>
  {
    if |s| == 0 || (|s| > 1 && s[0] == '0') then None
    else if forall i :: 0 <= i < |s| ==> IsDigit(s[i]) then Some(DigitsValue(s))
    else None
  }

  lemma {:induction false} DigitsValueOfDigits(n: nat)
    ensures DigitsValue(Digits(n)) == n
  {
    if n >= 10 {
      var s := Digits(n);
      DigitsValueOfDigits(n / 10);
      assert s[..|s| - 1] == Digits(n / 10);
    }
  }

  lemma ParseNatDigits(n: nat)
    ensures ParseNat(Digits(n)) == Some(n)
  {
    DigitsValueOfDigits(n);
  }

  /** Parsing a rendered integer gives it back. */
  lemma ParseFormat(n: int)
    ensures Parse(Format(n)) == Some(n)
  {
    var s := Format(n);
    if n < 0 {
      assert s[0] == '-' && s[1..] == Digits(-n);
      ParseNatDigits(-n);
      assert ParseNat(s[1..]) == Some(-n);
    } else {
      assert s == Digits(n) && IsDigit(s[0]);
      ParseNatDigits(n);
    }
  }

  /** Distinct integers render differently. */
  lemma FormatInjective(m: int, n: int)
    requires Format(m) == Format(n)
    ensures m == n
  {
    ParseFormat(m);
    ParseFormat(n);
  }
}
