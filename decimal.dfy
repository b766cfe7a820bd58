/**
  Decimal rendering of an integer in positional notation: no leading zeros and
  a leading '-' for negative values. This is how a JavaScript template literal
  (`${n}`) renders a safe integer, of magnitude at most 2^53 - 1.
  ReadInt is its inverse and is used to state what a published CSS length means.
*/
module Decimal {
  import opened Wrappers

  predicate IsDigit(c: char) {
    '0' <= c <= '9'
  }

  /** A non-empty string of decimal digits. */
  predicate IsDigits(s: string) {
    |s| > 0 && forall i :: 0 <= i < |s| ==> IsDigit(s[i])
  }

  function DigitValue(c: char): (d: nat)
    requires IsDigit(c)
    ensures d < 10
  {
    c as int - '0' as int
  }

  function DigitChar(d: nat): (c: char)
    requires d < 10
    ensures IsDigit(c) && DigitValue(c) == d
  {
    ('0' as int + d) as char
  }

  /** The digits of n, most significant first. */
  function ShowNat(n: nat): (s: string)
    ensures IsDigits(s)
    ensures s[0] == '0' <==> n == 0
    decreases n
  {
    if n < 10 then [DigitChar(n)] else ShowNat(n / 10) + [DigitChar(n % 10)]
  }

  /** The number a digit string denotes. */
  function ReadNat(s: string): (n: nat)
    requires IsDigits(s)
    decreases |s|
  {
    if |s| == 1 then DigitValue(s[0])
    else 10 * ReadNat(s[..|s| - 1]) + DigitValue(s[|s| - 1])
  }

  lemma {:induction false} ReadShowNat(n: nat)
    ensures ReadNat(ShowNat(n)) == n
    decreases n
  {
    if n >= 10 {
      ReadShowNat(n / 10);
      var s := ShowNat(n);
      assert s[..|s| - 1] == ShowNat(n / 10);
    }
  }

  function ShowInt(n: int): (s: string)
    ensures |s| > 0 && IsDigit(s[|s| - 1])
    ensures n >= 0 ==> IsDigits(s) && (s[0] == '0' <==> n == 0)
    ensures n < 0 ==> s[0] == '-' && IsDigits(s[1..]) && s[1] != '0'
  {
    if n < 0 then "-" + ShowNat(-n) else ShowNat(n)
  }

  function ReadInt(s: string): Option<int> {
    if |s| > 0 && s[0] == '-' && IsDigits(s[1..]) then Some(-(ReadNat(s[1..]) as int))
    else if IsDigits(s) then Some(ReadNat(s))
    else None
  }

  lemma ReadShowInt(n: int)
    ensures ReadInt(ShowInt(n)) == Some(n)
  {
    if n < 0 {
      ReadShowNat(-n);
      assert ShowInt(n)[1..] == ShowNat(-n);
    } else {
      ReadShowNat(n);
    }
  }
}
