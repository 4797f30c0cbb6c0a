/**
 * Decimal rendering of integers, as a template literal `${n}` renders a
 * JavaScript number that holds an integer, and a parser that undoes it.
 * The parser exists only to prove that the rendering is injective.
 */
module Decimal {
  import opened Wrappers

  predicate IsDigit(c: char) {
    '0' <= c <= '9'
  }

  predicate AllDigits(s: string) {
    forall i :: 0 <= i < |s| ==> IsDigit(s[i])
  }

  function DigitChar(d: nat): (c: char)
    requires d < 10
    ensures IsDigit(c) && DigitValue(c) == d
  {
    ('0' as int + d) as char
  }

  function DigitValue(c: char): nat
    requires IsDigit(c)
  {
    c as int - '0' as int
  }

  /** The shortest decimal numeral of `n`. */
  function NatToString(n: nat): string
    decreases n
  {
    if n < 10 then [DigitChar(n)] else NatToString(n / 10) + [DigitChar(n % 10)]
  }

  /** The numeral is non-empty, made of digits only, and has no leading zero. */
  lemma {:induction false} NatToStringIsNumeral(n: nat)
    ensures |NatToString(n)| > 0 && AllDigits(NatToString(n))
    ensures |NatToString(n)| > 1 ==> NatToString(n)[0] != '0'
    decreases n
  {
    if n >= 10 {
      NatToStringIsNumeral(n / 10);
      var s := NatToString(n);
      assert s[0] == NatToString(n / 10)[0];
    }
  }

  function ParseNat(s: string): nat
    requires AllDigits(s)
    decreases |s|
  {
    if s == [] then 0 else ParseNat(s[..|s| - 1]) * 10 + DigitValue(s[|s| - 1])
  }

  lemma {:induction false} ParseNatToString(n: nat)
    ensures AllDigits(NatToString(n)) && ParseNat(NatToString(n)) == n
    decreases n
  {
    NatToStringIsNumeral(n);
    if n >= 10 {
      var s := NatToString(n);
      assert s[..|s| - 1] == NatToString(n / 10);
      ParseNatToString(n / 10);
    }
  }

  /** `${i}` for an integer-valued number: an optional minus sign, then the digits. */
  function IntToString(i: int): (r: string)
    ensures |r| > 0
    ensures r[0] == '-' <==> i < 0
  {
    NatToStringIsNumeral(if i < 0 then -i else i);
    if i < 0 then "-" + NatToString(-i) else NatToString(i)
  }

  lemma IntToStringChars(i: int)
    ensures |IntToString(i)| > 0
    ensures forall j :: 0 <= j < |IntToString(i)| ==> IntToString(i)[j] == '-' || IsDigit(IntToString(i)[j])
  {
    if i < 0 {
      NatToStringIsNumeral(-i);
      var s := IntToString(i);
      forall j | 0 <= j < |s| ensures s[j] == '-' || IsDigit(s[j]) {
        if j > 0 {
          assert s[j] == NatToString(-i)[j - 1];
        }
      }
    } else {
      NatToStringIsNumeral(i);
    }
  }

  function ParseInt(s: string): Option<int> {
    if |s| > 1 && s[0] == '-' && AllDigits(s[1..]) then Some(-(ParseNat(s[1..]) as int))
    else if |s| > 0 && AllDigits(s) then Some(ParseNat(s))
    else None
  }

  lemma ParseIntToString(i: int)
    ensures ParseInt(IntToString(i)) == Some(i)
  {
    if i < 0 {
      var digits := NatToString(-i);
      ParseNatToString(-i);
      var s := "-" + digits;
      assert s[1..] == digits;
      assert IntToString(i) == s;
    } else {
      var digits := NatToString(i);
      ParseNatToString(i);
      NatToStringIsNumeral(i);
      assert IsDigit(digits[0]);
      assert IntToString(i) == digits;
    }
  }
}
