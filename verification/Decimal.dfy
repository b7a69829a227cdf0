/** Decimal text of integers, printing and parsing. */
module Decimal {
  import opened Results

  predicate IsDigit(c: char)
  {
    '0' <= c <= '9'
  }

  function DigitChar(d: nat): (c: char)
    requires d < 10
    ensures IsDigit(c) && DigitValue(c) == d
  {
    (d + 48) as char
  }

  function DigitValue(c: char): (d: nat)
    requires IsDigit(c)
    ensures d < 10
  {
    c as int - 48
  }

  predicate AllDigits(s: string)
  {
    forall i :: 0 <= i < |s| ==> IsDigit(s[i])
  }

  /** The number a run of digits stands for; leading zeros allowed. */
  function Number(s: string): nat
    requires AllDigits(s)
  {
    if s == "" then 0 else 10 * Number(s[..|s| - 1]) + DigitValue(s[|s| - 1])
  }

  /** The digits of a number, without leading zeros. */
  function Show(n: nat): (s: string)
    ensures s != "" && AllDigits(s) && Number(s) == n
    ensures n >= 10 ==> |s| >= 2
  {
    if n < 10 then
      assert [DigitChar(n)][..0] == "";
      [DigitChar(n)]
    else
      var s := Show(n / 10) + [DigitChar(n % 10)];
      assert s[..|s| - 1] == Show(n / 10);
      s
  }

  function ShowInt(n: int): (s: string)
  {
    if n < 0 then "-" + Show(-n) else Show(n)
  }

  lemma NumbersShown()
    ensures ShowInt(205) == "205" && ShowInt(-10) == "-10"
  {
    assert Show(20) == Show(2) + ['0'];
    assert Show(205) == Show(20) + ['5'];
    assert Show(10) == Show(1) + ['0'];
  }

  /** Two digits, zero-padded; more when the number has more. */
  function ShowPadded(n: nat): (s: string)
    ensures AllDigits(s) && Number(s) == n
    ensures n < 100 ==> |s| == 2
  {
    if n < 10 then
      var s := "0" + Show(n);
      ShowShort(n);
      NumberPair('0', DigitChar(n));
      assert s == ['0', DigitChar(n)];
      s
    else
      if n < 100 then ShowTwo(n); Show(n) else Show(n)
  }

  lemma ShowShort(n: nat)
    requires n < 10
    ensures Show(n) == [DigitChar(n)]
  {
  }

  lemma ShowTwo(n: nat)
    requires 10 <= n < 100
    ensures |Show(n)| == 2
  {
    ShowShort(n / 10);
  }

  lemma NumberPair(tens: char, ones: char)
    requires IsDigit(tens) && IsDigit(ones)
    ensures AllDigits([tens, ones]) && Number([tens, ones]) == 10 * DigitValue(tens) + DigitValue(ones)
  {
    assert [tens, ones][..1] == [tens] && [tens][..0] == "";
    assert Number([tens]) == DigitValue(tens);
  }

  /** An optional sign, then digits only, of any size. */
  function ParseSigned(s: string): Option<int>
  {
    var signed := s != "" && (s[0] == '-' || s[0] == '+');
    var digits := if signed then s[1..] else s;
    if digits == "" || !AllDigits(digits) then None
    else
      var n: int := Number(digits);
      Some(if signed && s[0] == '-' then -n else n)
  }

  /** The same into a machine word with `limit` non-negative values. */
  function ParseInt(s: string, limit: nat): Option<int>
  {
    var n := ParseSigned(s);
    if n.Some? && n.value + limit >= 0 && n.value < limit then n else None
  }

  lemma ParsePlain(s: string, limit: nat)
    requires s != "" && AllDigits(s) && Number(s) < limit
    ensures ParseInt(s, limit) == Some(Number(s))
  {
    assert IsDigit(s[0]);
  }

  lemma ParseShowSigned(n: int)
    ensures ParseSigned(ShowInt(n)) == Some(n)
  {
    if n < 0 {
      assert ShowInt(n)[1..] == Show(-n);
    } else {
      assert IsDigit(ShowInt(n)[0]);
    }
  }

  /** Printing and parsing agree exactly on the integers that fit. */
  lemma ParseShowInt(n: int, limit: nat)
    ensures ParseInt(ShowInt(n), limit) == if n + limit >= 0 && n < limit then Some(n) else None
  {
    ParseShowSigned(n);
  }

  /** A signed number is recovered from its text. */
  lemma ShowIntInjective(m: int, n: int)
    requires ShowInt(m) == ShowInt(n)
    ensures m == n
  {
    ParseShowSigned(m);
    ParseShowSigned(n);
  }

  predicate Free(s: string, c: char)
  {
    forall i :: 0 <= i < |s| ==> s[i] != c
  }

  lemma ShowIntFree(n: int, c: char)
    requires !IsDigit(c) && c != '-'
    ensures Free(ShowInt(n), c)
  {
    if n < 0 {
      assert forall i :: 0 < i < |ShowInt(n)| ==> ShowInt(n)[i] == Show(-n)[i - 1];
    }
  }

  /** Text before and after its last separator is determined by the whole. */
  lemma SplitAtLast(a: string, b: string, a': string, b': string, c: char)
    requires a + [c] + b == a' + [c] + b' && Free(b, c) && Free(b', c)
    ensures a == a' && b == b'
  {
    LastSeparator(a, b, a', b', c);
    LastSeparator(a', b', a, b, c);
    var s := a + [c] + b;
    assert a == s[..|a|] && a' == s[..|a'|];
    assert b == s[|a| + 1..] && b' == s[|a'| + 1..];
  }

  lemma LastSeparator(a: string, b: string, a': string, b': string, c: char)
    requires a + [c] + b == a' + [c] + b' && Free(b, c)
    ensures |a'| <= |a|
  {
    var whole := a + [c] + b;
    assert whole == a' + [c] + b' && whole[|a'|] == c;
    assert forall k :: |a| < k < |whole| ==> whole[k] == b[k - |a| - 1];
  }
}
