/** Decimal rendering of integers, as Python's `str(n)` and an f-string `{n}`
    produce it, and as JavaScript's template literal `${n}` does for clock
    readings (JavaScript switches to exponent notation from 10^21 on). */
module Decimal {

  predicate IsDigit(c: char) {
    '0' <= c <= '9'
  }

  function DigitChar(d: nat): (c: char)
    requires d < 10
    ensures IsDigit(c) && DigitValue(c) == d
  {
    (('0' as int) + d) as char
  }

  /** The canonical decimal form of `n`: digits only, no leading zero. */
  function Show(n: nat): (r: string)
    ensures |r| >= 1
    ensures forall k :: 0 <= k < |r| ==> IsDigit(r[k])
    ensures r[0] == '0' ==> n == 0
  {
    if n < 10 then [DigitChar(n)] else Show(n / 10) + [DigitChar(n % 10)]
  }

  /** Python's `str(i)` for a possibly negative integer. */
  function ShowInt(i: int): (r: string)
    ensures |r| >= 1
    ensures i < 0 <==> r[0] == '-'
  {
    if i < 0 then "-" + Show(-i) else Show(i)
  }

  function DigitValue(c: char): (d: nat)
    requires IsDigit(c)
    ensures d < 10
  {
    (c as int) - ('0' as int)
  }

  /** The value of a string of decimal digits: the reading a parser gives it. */
  function Value(s: string): nat
    requires forall k :: 0 <= k < |s| ==> IsDigit(s[k])
  {
    if s == [] then 0 else 10 * Value(s[..|s| - 1]) + DigitValue(s[|s| - 1])
  }

  /** Reading back what `Show` wrote gives the number again. */
  lemma {:induction false} ValueOfShow(n: nat)
    ensures Value(Show(n)) == n
  {
    if n >= 10 {
      var s := Show(n);
      assert s[..|s| - 1] == Show(n / 10);
      ValueOfShow(n / 10);
    }
  }

  /** Different numbers are written differently. */
  lemma ShowInjective(a: nat, b: nat)
    ensures Show(a) == Show(b) <==> a == b
  {
    if Show(a) == Show(b) {
      ValueOfShow(a);
      ValueOfShow(b);
    }
  }

  /** `ShowInt` writes a non-negative number as `Show` does and a negative one
      with a minus sign before it, so both read back to the number. */
  lemma ShowIntReadsBack(i: int)
    ensures i >= 0 ==> ShowInt(i) == Show(i) && Value(ShowInt(i)) == i
    ensures i < 0 ==> ShowInt(i)[1..] == Show(-i) && Value(ShowInt(i)[1..]) == -i
  {
    if i >= 0 {
      ValueOfShow(i);
    } else {
      ValueOfShow(-i);
    }
  }

  /** Different integers are written differently. */
  lemma ShowIntInjective(a: int, b: int)
    ensures ShowInt(a) == ShowInt(b) <==> a == b
  {
    if ShowInt(a) == ShowInt(b) {
      ShowIntReadsBack(a);
      ShowIntReadsBack(b);
    }
  }
}
