/** Decimal money text: the BTCPay codec, the catalogue form codec and the payout form parser. */
module Money {
  import opened Results
  import opened Int64
  import opened Decimal

  // ----- text helpers -----

  /** Unicode white space. */
  predicate IsSpace(c: char)
  {
    var u := c as int;
    9 <= u <= 13 || u == 32 || u == 0x85 || u == 0xA0 || u == 0x1680 || 0x2000 <= u <= 0x200A
    || u == 0x2028 || u == 0x2029 || u == 0x202F || u == 0x205F || u == 0x3000
  }

  function TrimSpace(s: string): (r: string)
    ensures s != "" && !IsSpace(s[0]) && !IsSpace(s[|s| - 1]) ==> r == s
  {
    if s == "" then ""
    else if IsSpace(s[0]) then TrimSpace(s[1..])
    else if IsSpace(s[|s| - 1]) then TrimSpace(s[..|s| - 1])
    else s
  }

  /** Text before and after the first separator, and whether there is one. */
  function Cut(s: string, c: char): (r: (string, string, bool))
    ensures Free(r.0, c) && s == r.0 + (if r.2 then [c] + r.1 else "")
    ensures !r.2 ==> r.1 == ""
  {
    if s == "" then ("", "", false)
    else if s[0] == c then ("", s[1..], true)
    else
      var rest := Cut(s[1..], c);
      ([s[0]] + rest.0, rest.1, rest.2)
  }

  lemma {:induction false} CutAt(a: string, b: string, c: char)
    requires Free(a, c)
    ensures Cut(a + [c] + b, c) == (a, b, true)
  {
    var s := a + [c] + b;
    CutStep(s, c);
    hide Cut;
    if a == "" {
      assert s[1..] == b;
    } else {
      CutAt(a[1..], b, c);
      assert s[1..] == a[1..] + [c] + b && [a[0]] + a[1..] == a;
    }
  }

  lemma CutStep(s: string, c: char)
    requires s != ""
    ensures Cut(s, c) == if s[0] == c then ("", s[1..], true)
      else ([s[0]] + Cut(s[1..], c).0, Cut(s[1..], c).1, Cut(s[1..], c).2)
  {
  }

  const LIMIT: nat := 0x8000_0000_0000_0000

  /** Amounts in hundredths, in 64 bits. */
  function Hundredths(whole: int, frac: int): int64
  {
    Wrap(whole * 100 + frac)
  }

  // ----- BTCPay amounts -----

  /** Remainder with the sign of the dividend. */
  function Remainder(x: int, d: int): int
    requires d > 0
  {
    x - d * Truncate(x, d)
  }

  /** At least two characters, zero-padded; a sign counts as one. */
  function ShowTwoWide(n: int): string
  {
    if n < 0 then ShowInt(n) else ShowPadded(n)
  }

  function AmountString(n: int64): string
  {
    var magnitude: int := if n < 0 then Negate(n) else n;
    (if n < 0 then "-" else "") + ShowInt(Truncate(magnitude, 100)) + "." + ShowTwoWide(Remainder(magnitude, 100))
  }

  method BtcpayAmountString(amount: int64) returns (r: string)
    ensures r == AmountString(amount)
    ensures AmountToMinor(r) == Some(amount)
  {
    BtcpayRoundTrip(amount);
    hide AmountToMinor;
    var neg, magnitude := "", amount;
    if magnitude < 0 {
      neg := "-";
      magnitude := Negate(magnitude);
    }
    var whole, cents := Truncate(magnitude, 100), Remainder(magnitude, 100);
    r := neg + ShowInt(whole) + "." + ShowTwoWide(cents);
  }

  /** The fraction cut or padded with zeros to two characters. */
  function TwoPlaces(frac: string): (r: string)
    ensures |r| == 2
  {
    if |frac| > 2 then frac[..2] else if |frac| == 2 then frac else if |frac| == 1 then frac + "0" else "00"
  }

  function AmountToMinor(text: string): Option<int64>
  {
    var amount := TrimSpace(text);
    if amount == "" then Some(0)
    else
      var neg := amount[0] == '-';
      var unsigned := if neg then amount[1..] else amount;
      var parts := Cut(unsigned, '.');
      var whole := ParseInt(parts.0, LIMIT);
      var frac := if parts.2 then ParseInt(TwoPlaces(parts.1), LIMIT) else Some(0);
      if whole.None? || frac.None? then None
      else
        var total := Hundredths(whole.value, frac.value);
        Some(if neg then Negate(total) else total)
  }

  method BtcpayAmountToMinor(text: string) returns (r: Option<int64>)
    ensures r == AmountToMinor(text)
  {
    hide ParseInt, Wrap, Negate;
    var amount := TrimSpace(text);
    if amount == "" {
      return Some(0);
    }
    var neg := false;
    if amount[0] == '-' {
      neg := true;
      amount := amount[1..];
    }
    var parts := Cut(amount, '.');
    var whole := ParseInt(parts.0, LIMIT);
    if whole.None? {
      return None;
    }
    var frac := 0;
    if parts.2 {
      var fracText := parts.1;
      if |fracText| > 2 {
        fracText := fracText[..2];
      }
      while |fracText| < 2
        invariant |fracText| <= 2
        invariant TwoPlaces(fracText) == TwoPlaces(parts.1)
        decreases 2 - |fracText|
      {
        fracText := fracText + "0";
      }
      var parsed := ParseInt(fracText, LIMIT);
      if parsed.None? {
        return None;
      }
      frac := parsed.value;
    }
    var total: int64 := Wrap(whole.value * 100 + frac);
    if neg {
      total := Negate(total);
    }
    r := Some(total);
  }

  lemma TwoWideParses(n: int)
    requires -100 < n < 100 && (n < 0 ==> -10 < n)
    ensures |ShowTwoWide(n)| == 2 && ParseInt(ShowTwoWide(n), LIMIT) == Some(n)
  {
    if n < 0 {
      ShowShort(-n);
      ParseShowInt(n, LIMIT);
    } else {
      ParsePlain(ShowPadded(n), LIMIT);
    }
  }

  lemma DigitIsNoSpace(c: char)
    requires IsDigit(c) || c == '-'
    ensures !IsSpace(c) && (IsDigit(c) ==> c != '-')
  {
  }

  lemma LastDigit(n: int)
    requires -10 < n < 100
    ensures ShowTwoWide(n) != "" && IsDigit(ShowTwoWide(n)[|ShowTwoWide(n)| - 1])
  {
  }

  /** Printing then parsing gives the amount back, for every 64-bit amount; even the smallest survives, by two wraps
      that cancel. */
  lemma BtcpayRoundTrip(n: int64)
    ensures AmountToMinor(AmountString(n)) == Some(n)
  {
    hide *;
    var whole, cents := Truncate(Magnitude(n), 100), Remainder(Magnitude(n), 100);
    var a, b := ShowInt(whole), ShowTwoWide(cents);
    var unsigned := a + "." + b;
    WholeAndCents(n);
    TwoWideParses(cents);
    ParseShowInt(whole, LIMIT);
    ShowIntFree(whole, '.') by { assert !IsDigit('.') by { Dot(); } }
    CutAt(a, b, '.');
    LastDigit(cents);
    FirstOfInt(whole);
    StringParts(n);
    var text := AmountString(n);
    assert text == if n < 0 then "-" + unsigned else unsigned;
    DigitIsNoSpace(text[0]);
    DigitIsNoSpace(text[|text| - 1]);
    AmountUnfolds(text, unsigned, a, b, whole, cents);
  }

  lemma Dot()
    ensures !IsDigit('.')
  {
  }

  /** Parsing a well-formed text, sign first. */
  lemma AmountUnfolds(text: string, unsigned: string, a: string, b: string, whole: int, cents: int)
    requires text != "" && unsigned != "" && TrimSpace(text) == text
      && text == (if text[0] == '-' then "-" + unsigned else unsigned)
    requires Cut(unsigned, '.') == (a, b, true) && |b| == 2 && ParseInt(a, LIMIT) == Some(whole)
      && ParseInt(b, LIMIT) == Some(cents)
    ensures AmountToMinor(text)
      == Some(if text[0] == '-' then Negate(Hundredths(whole, cents)) else Hundredths(whole, cents))
  {
    hide ParseInt, TrimSpace, Cut, Hundredths, Negate;
    assert text[0] == '-' ==> text[1..] == unsigned;
  }

  function Magnitude(n: int64): int64
  {
    if n < 0 then Negate(n) else n
  }

  lemma StringParts(n: int64)
    ensures AmountString(n)
      == (if n < 0 then "-"
        else "") + (ShowInt(Truncate(Magnitude(n), 100)) + "." + ShowTwoWide(Remainder(Magnitude(n), 100)))
  {
    hide ShowInt, ShowTwoWide, Wrap, Truncate, Remainder;
  }

  lemma FirstOfInt(n: int)
    ensures ShowInt(n) != "" && (IsDigit(ShowInt(n)[0]) || (n < 0 && ShowInt(n)[0] == '-'))
  {
  }

  lemma WholeAndCents(n: int64)
    ensures var magnitude := Magnitude(n); var whole, cents := Truncate(magnitude, 100), Remainder(magnitude, 100);
      && whole * 100 + cents == magnitude && 0 < whole + LIMIT && whole < LIMIT && -10 < cents < 100
      && (n >= 0 ==> whole >= 0 && magnitude == n)
      && Hundredths(whole, cents) == magnitude && (n < 0 ==> Negate(magnitude) == n)
  {
    var turns := WrapExplicit(0 - (n as int));
    WrapInRange(Magnitude(n));
    if n == MIN { assert Magnitude(n) == MIN; }
  }

  // ----- the catalogue form -----

  function FormatMinorUnitsPlain(n: int64): string
  {
    ShowInt(Truncate(n, 100)) + "." + ShowTwoWide(Remainder(n, 100))
  }

  /** Digits only on both sides; a missing whole part counts as zero, extra decimals are dropped. */
  function MoneyOf(text: string): Option<int64>
  {
    var raw := TrimSpace(text);
    if raw == "" then None
    else
      var parts := Cut(raw, '.');
      var whole := if parts.0 == "" then "0" else parts.0;
      var frac := if parts.2 then TwoPlaces(parts.1) else "00";
      if !AllDigits(whole + frac) then None
      else
        var units, cents := ParseInt(whole, LIMIT), ParseInt(frac, LIMIT);
        if units.None? || cents.None? then None else Some(Hundredths(units.value, cents.value))
  }

  method ParseMoney(text: string) returns (r: Option<int64>)
    ensures r == MoneyOf(text)
  {
    hide ParseInt, Wrap, Negate;
    var raw := TrimSpace(text);
    if raw == "" {
      return None;
    }
    var (whole, frac, hasFrac) := Cut(raw, '.');
    if whole == "" {
      whole := "0";
    }
    if !hasFrac {
      frac := "00";
    }
    match |frac| {
      case 0 => frac := "00";
      case 1 => frac := frac + "0";
      case _ => frac := frac[..2];
    }
    assert frac == if hasFrac then TwoPlaces(Cut(raw, '.').1) else "00";
    var digits := whole + frac;
    for i := 0 to |digits|
      invariant forall j :: 0 <= j < i ==> IsDigit(digits[j])
    {
      if digits[i] < '0' || digits[i] > '9' {
        assert !AllDigits(digits);
        return None;
      }
    }
    var units := ParseInt(whole, LIMIT);
    if units.None? {
      return None;
    }
    var cents := ParseInt(frac, LIMIT);
    if cents.None? {
      return None;
    }
    r := Some(Wrap(units.value * 100 + cents.value));
  }

  /** Blanks around a text are dropped, and nothing else. */
  lemma {:induction false} TrimSpaceIs(before: string, text: string, after: string)
    requires forall i :: 0 <= i < |before| ==> IsSpace(before[i])
    requires forall i :: 0 <= i < |after| ==> IsSpace(after[i])
    requires text != "" && !IsSpace(text[0]) && !IsSpace(text[|text| - 1])
    ensures TrimSpace(before + text + after) == text
    decreases |before| + |after|
  {
    hide IsSpace;
    var whole := before + text + after;
    if before != "" {
      assert whole[1..] == before[1..] + text + after;
      TrimSpaceIs(before[1..], text, after);
    } else if after != "" {
      assert whole[..|whole| - 1] == before + text + after[..|after| - 1];
      TrimSpaceIs(before, text, after[..|after| - 1]);
    } else {
      assert whole == text;
    }
  }

  /** The form shows an amount in a way its parser accepts, and returns unchanged, exactly when the amount is not
      negative. */
  lemma FormRoundTrip(n: int64)
    ensures MoneyOf(FormatMinorUnitsPlain(n)) == if n >= 0 then Some(n) else None
  {
    hide *;
    var whole, cents := Truncate(n, 100), Remainder(n, 100);
    var a, b := ShowInt(whole), ShowTwoWide(cents);
    var text := a + "." + b;
    FormParts(n);
    FirstOfInt(whole);
    ShowIntFree(whole, '.') by { assert !IsDigit('.') by { Dot(); } }
    CutAt(a, b, '.');
    PlainParts(n);
    EdgesShow(n);
    DigitIsNoSpace(text[0]);
    DigitIsNoSpace(text[|text| - 1]);
    if n >= 0 {
      TwoWideParses(cents);
      ParseShowInt(whole, LIMIT);
      DigitsOf(whole);
      DigitsOf(cents);
      MoneyUnfolds(text, a, b, whole, cents);
    } else {
      NegativeParts(n);
      MoneyRefuses(text, a, b);
    }
  }

  lemma FormParts(n: int64)
    ensures FormatMinorUnitsPlain(n) == ShowInt(Truncate(n, 100)) + "." + ShowTwoWide(Remainder(n, 100))
  {
  }

  lemma MoneyUnfolds(text: string, a: string, b: string, whole: int, cents: int)
    requires text != "" && TrimSpace(text) == text && Cut(text, '.') == (a, b, true) && a != "" && |b| == 2
      && AllDigits(a) && AllDigits(b)
    requires ParseInt(a, LIMIT) == Some(whole) && ParseInt(b, LIMIT) == Some(cents)
    ensures MoneyOf(text) == Some(Hundredths(whole, cents))
  {
    hide ParseInt, TrimSpace, Cut, Hundredths;
    assert forall i :: 0 <= i < |a + b| ==> IsDigit((a + b)[i]);
  }

  lemma MoneyRefuses(text: string, a: string, b: string)
    requires text != "" && TrimSpace(text) == text && Cut(text, '.') == (a, b, true) && a != "" && |b| >= 2
    requires a[0] == '-' || b[0] == '-'
    ensures MoneyOf(text) == None
  {
    hide ParseInt, TrimSpace, Cut;
    var digits := a + TwoPlaces(b);
    assert digits[if a[0] == '-' then 0 else |a|] == '-';
  }

  lemma PlainParts(n: int64)
    ensures var whole, cents := Truncate(n, 100), Remainder(n, 100);
      && whole * 100 + cents == n && 0 < whole + LIMIT && whole < LIMIT && -100 < cents < 100
      && (n >= 0 ==> whole >= 0 && cents >= 0 && Hundredths(whole, cents) == n)
  {
    WrapInRange(n);
  }

  lemma DigitsOf(n: int)
    requires n >= 0
    ensures AllDigits(ShowInt(n)) && AllDigits(ShowTwoWide(n))
  {
  }

  lemma NegativeParts(n: int64)
    requires n < 0
    ensures var whole, cents := Truncate(n, 100), Remainder(n, 100);
      |ShowTwoWide(cents)| >= 2 && ShowInt(whole) != ""
        && ((whole < 0 && ShowInt(whole)[0] == '-') || (whole == 0 && cents < 0 && ShowTwoWide(cents)[0] == '-'))
  {
  }

  lemma EdgesShow(n: int64)
    ensures var b := ShowTwoWide(Remainder(n, 100)); b != "" && (IsDigit(b[|b| - 1]) || b[|b| - 1] == '-')
  {
    hide Truncate;
  }

  // ----- the payout form -----

  const HALF_LIMIT: nat := 0x4000_0000_0000_0000

  /** One or two decimals or none at all; signs are let through as long as both numbers come out non-negative. */
  function DollarsOf(text: string): Option<int64>
  {
    var s := TrimSpace(text);
    if s == "" then None
    else
      var parts := Cut(s, '.');
      var padded := if !parts.2 then "00" else if |parts.1| == 1 then parts.1 + "0" else parts.1;
      if |padded| != 2 then None
      else
        var w, f := ParseInt(parts.0, HALF_LIMIT), ParseInt(padded, HALF_LIMIT);
        if w.None? || w.value < 0 || f.None? || f.value < 0 || f.value > 99 then None
        else Some(Hundredths(w.value, f.value))
  }

  method ParseDollarsToMinor(text: string) returns (r: Option<int64>)
    ensures r == DollarsOf(text)
    ensures r.Some? ==> MoneyOf(text) == if Free(TrimSpace(text), '+') && Free(TrimSpace(text), '-') then r else None
  {
    if DollarsOf(text).Some? { ParsersAgree(text); }
    hide ParseInt, Wrap, Negate, MoneyOf, Free;
    var s := TrimSpace(text);
    if s == "" {
      return None;
    }
    var (whole, frac, hasFrac) := Cut(s, '.');
    if !hasFrac {
      frac := "00";
    }
    if |frac| == 1 {
      frac := frac + "0";
    }
    if |frac| != 2 {
      return None;
    }
    var w := ParseInt(whole, HALF_LIMIT);
    if w.None? || w.value < 0 {
      return None;
    }
    var f := ParseInt(frac, HALF_LIMIT);
    if f.None? || f.value < 0 || f.value > 99 {
      return None;
    }
    r := Some(Wrap(w.value * 100 + f.value));
  }

  lemma DigitsParseAlike(s: string)
    requires AllDigits(s)
    ensures ParseInt(s, HALF_LIMIT).Some? ==> ParseInt(s, LIMIT) == ParseInt(s, HALF_LIMIT)
  {
    assert s != "" ==> IsDigit(s[0]);
  }

  /** Where the payout parser accepts, the catalogue parser accepts the same amount, unless a sign is written. */
  lemma ParsersAgree(text: string)
    requires DollarsOf(text).Some?
    ensures if Free(TrimSpace(text), '+') && Free(TrimSpace(text), '-') then MoneyOf(text) == DollarsOf(text)
      else MoneyOf(text).None?
  {
    hide *;
    var s := TrimSpace(text);
    var parts := Cut(s, '.');
    var padded := Padded(parts);
    DollarsUnfold(text, s, parts, padded);
    UnsignedDigits(parts.0, HALF_LIMIT);
    UnsignedDigits(padded, HALF_LIMIT);
    SignsKept(s);
    PaddedSigns(parts);
    if Free(s, '+') && Free(s, '-') {
      NoSignFirst(parts.0);
      NoSignFirst(padded);
      DigitsParseAlike(parts.0);
      DigitsParseAlike(padded);
      AgreeUnsigned(text, s, parts, padded);
    } else {
      RefuseSigned(text, s, parts, padded);
    }
  }

  /** The fraction as the payout form completes it. */
  function Padded(parts: (string, string, bool)): string
  {
    if !parts.2 then "00" else if |parts.1| == 1 then parts.1 + "0" else parts.1
  }

  lemma DollarsUnfold(text: string, s: string, parts: (string, string, bool), padded: string)
    requires s == TrimSpace(text) && parts == Cut(s, '.') && padded == Padded(parts) && DollarsOf(text).Some?
    ensures s != "" && |padded| == 2 && ParseInt(parts.0, HALF_LIMIT).Some? && ParseInt(padded, HALF_LIMIT).Some?
    ensures DollarsOf(text) == Some(Hundredths(ParseInt(parts.0, HALF_LIMIT).value, ParseInt(padded, HALF_LIMIT).value))
  {
    hide ParseInt, TrimSpace, Cut, Hundredths;
  }

  lemma NoSignFirst(s: string)
    requires s != "" && Free(s, '+') && Free(s, '-')
    ensures s[0] != '+' && s[0] != '-'
  {
  }

  lemma PaddedSigns(parts: (string, string, bool))
    requires |Padded(parts)| == 2 && (!parts.2 ==> parts.1 == "")
    ensures forall c :: c != '0' ==> (Free(Padded(parts), c) <==> Free(parts.1, c))
    ensures Padded(parts) == if parts.2 then TwoPlaces(parts.1) else "00"
  {
    forall c: char | c != '0' ensures Free(Padded(parts), c) <==> Free(parts.1, c) {
      if parts.2 && |parts.1| == 1 { FreeConcat(parts.1, "0", c); }
    }
  }

  lemma AgreeUnsigned(text: string, s: string, parts: (string, string, bool), padded: string)
    requires s == TrimSpace(text) && s != "" && parts == Cut(s, '.') && parts.0 != ""
      && padded == (if parts.2 then TwoPlaces(parts.1) else "00")
    requires AllDigits(parts.0) && AllDigits(padded)
    requires ParseInt(parts.0, LIMIT).Some? && ParseInt(padded, LIMIT).Some?
    ensures MoneyOf(text) == Some(Hundredths(ParseInt(parts.0, LIMIT).value, ParseInt(padded, LIMIT).value))
  {
    hide ParseInt, TrimSpace, Cut, Hundredths, TwoPlaces;
    assert forall i :: 0 <= i < |parts.0 + padded| ==> IsDigit((parts.0 + padded)[i]);
  }

  lemma RefuseSigned(text: string, s: string, parts: (string, string, bool), padded: string)
    requires s == TrimSpace(text) && s != "" && parts == Cut(s, '.') && parts.0 != ""
      && padded == (if parts.2 then TwoPlaces(parts.1) else "00")
    requires !(Free(parts.0, '+') && Free(parts.0, '-')) || !(Free(padded, '+') && Free(padded, '-'))
    ensures MoneyOf(text).None?
  {
    hide ParseInt, TrimSpace, Cut, Hundredths, TwoPlaces;
    var digits := parts.0 + padded;
    if !Free(parts.0, '+') || !Free(parts.0, '-') {
      var i :| 0 <= i < |parts.0| && !IsDigit(parts.0[i]);
      assert digits[i] == parts.0[i];
    } else {
      var i :| 0 <= i < |padded| && !IsDigit(padded[i]);
      assert digits[|parts.0| + i] == padded[i];
    }
  }

  /** Accepted text is all digits, or starts with a sign. */
  lemma UnsignedDigits(s: string, limit: nat)
    requires ParseInt(s, limit).Some?
    ensures s != "" && (AllDigits(s) <==> s[0] != '+' && s[0] != '-')
  {
  }

  lemma SignsKept(s: string)
    ensures var parts := Cut(s, '.');
      forall c :: c != '.' ==> (Free(s, c) <==> Free(parts.0, c) && Free(parts.1, c))
  {
    var parts := Cut(s, '.');
    forall c: char | c != '.' ensures Free(s, c) <==> Free(parts.0, c) && Free(parts.1, c) {
      if parts.2 {
        FreeConcat(parts.0, "." + parts.1, c);
        FreeConcat(".", parts.1, c);
      } else {
        assert s == parts.0;
      }
    }
  }

  lemma FreeConcat(a: string, b: string, c: char)
    ensures Free(a + b, c) <==> Free(a, c) && Free(b, c)
  {
    if Free(a + b, c) {
      assert forall i :: 0 <= i < |a| ==> a[i] == (a + b)[i];
      assert forall i :: 0 <= i < |b| ==> b[i] == (a + b)[|a| + i];
    }
  }

  // ----- all three parsers -----

  /** The hundredths that a run of decimals stands for: a tenth for the first digit, one for the second, and nothing for
      the rest. */
  function Cents(frac: string): (n: nat)
    requires AllDigits(frac)
    ensures n < 100
  {
    (if |frac| > 0 then 10 * DigitValue(frac[0]) else 0) + if |frac| > 1 then DigitValue(frac[1]) else 0
  }

  lemma TwoPlacesRead(frac: string)
    requires AllDigits(frac)
    ensures AllDigits(TwoPlaces(frac)) && Number(TwoPlaces(frac)) == Cents(frac)
  {
    var pair := TwoPlaces(frac);
    assert pair == [pair[0], pair[1]];
    NumberPair(pair[0], pair[1]);
  }

  /** The two decimals that count, completed with zeros or cut. */
  function Decimals(frac: string, hasPoint: bool): (two: string)
    ensures |two| == 2
  {
    if hasPoint then TwoPlaces(frac) else "00"
  }

  /** A text of plain digits, with a point or without, as all three cut it. */
  predicate Reads(text: string, whole: string, frac: string, hasPoint: bool)
  {
    && text != "" && TrimSpace(text) == text && Cut(text, '.') == (whole, frac, hasPoint)
    && whole != "" && AllDigits(whole) && AllDigits(frac) && 100 * Number(whole) + Cents(frac) <= MAX
    && (!hasPoint ==> frac == "")
  }

  lemma ReadsWith(whole: string, frac: string)
    requires whole != "" && AllDigits(whole) && AllDigits(frac) && 100 * Number(whole) + Cents(frac) <= MAX
    ensures Reads(whole + "." + frac, whole, frac, true) && Reads(whole, whole, "", false)
    ensures TrimSpace("-" + (whole + "." + frac)) == "-" + (whole + "." + frac)
    ensures Cut("-" + (whole + "." + frac), '.') == ("-" + whole, frac, true)
  {
    hide *;
    var text := whole + "." + frac;
    NoPoint(whole);
    EdgesOf(whole, frac);
    CutAt(whole, frac, '.');
    CutAt("-" + whole, frac, '.');
    NoCut(whole);
    assert "-" + text == "-" + whole + "." + frac;
    ReadsIntro(text, whole, frac, true);
    NoCents();
    ReadsIntro(whole, whole, "", false);
  }

  lemma NoCents()
    ensures AllDigits("") && Cents("") == 0
  {
  }

  lemma ReadsIntro(text: string, whole: string, frac: string, hasPoint: bool)
    requires text != "" && TrimSpace(text) == text && Cut(text, '.') == (whole, frac, hasPoint)
    requires whole != "" && AllDigits(whole) && AllDigits(frac) && 100 * Number(whole) + Cents(frac) <= MAX
    requires !hasPoint ==> frac == ""
    ensures Reads(text, whole, frac, hasPoint)
  {
    hide TrimSpace, Cut, AllDigits, Number, Cents;
  }

  lemma EdgesOf(whole: string, frac: string)
    requires whole != "" && AllDigits(whole) && AllDigits(frac)
    ensures var text := whole + "." + frac;
      TrimSpace(text) == text && TrimSpace("-" + text) == "-" + text && TrimSpace(whole) == whole
  {
    hide TrimSpace, IsSpace;
    DigitIsNoSpace(whole[0]);
    DigitIsNoSpace(whole[|whole| - 1]);
    DigitIsNoSpace('-');
    PointIsNoSpace();
    if frac != "" { DigitIsNoSpace(frac[|frac| - 1]); }
  }

  lemma PointIsNoSpace()
    ensures !IsSpace('.')
  {
  }

  lemma NoPoint(s: string)
    requires AllDigits(s)
    ensures Free(s, '.') && Free("-" + s, '.')
  {
    Dot();
  }

  lemma {:induction false} NoCut(s: string)
    requires Free(s, '.')
    ensures Cut(s, '.') == (s, "", false)
  {
    if s != "" {
      NoCut(s[1..]);
      assert [s[0]] + s[1..] == s;
    }
  }

  /** The numbers on both sides of the point, and what they come to. */
  lemma NumbersRead(whole: string, frac: string, hasPoint: bool)
    requires AllDigits(whole) && AllDigits(frac) && whole != "" && 100 * Number(whole) + Cents(frac) <= MAX
    requires !hasPoint ==> frac == ""
    ensures AllDigits(Decimals(frac, hasPoint))
    ensures ParseInt(whole, LIMIT) == ParseInt(whole, HALF_LIMIT) == Some(Number(whole))
    ensures ParseInt(Decimals(frac, hasPoint), LIMIT) == ParseInt(Decimals(frac, hasPoint), HALF_LIMIT)
      == Some(Cents(frac))
    ensures var amount := 100 * Number(whole) + Cents(frac);
      Hundredths(Number(whole), Cents(frac)) == amount && Negate(amount) == -amount
  {
    hide *;
    Limits();
    var two := Decimals(frac, hasPoint);
    DecimalsRead(frac, hasPoint);
    InHundredths(Number(whole), Cents(frac));
    ParsePlain(whole, LIMIT);
    ParsePlain(whole, HALF_LIMIT);
    ParsePlain(two, LIMIT);
    ParsePlain(two, HALF_LIMIT);
  }

  lemma Limits()
    ensures 100 < HALF_LIMIT < LIMIT == MAX + 1 <= 100 * HALF_LIMIT
  {
  }

  lemma DecimalsRead(frac: string, hasPoint: bool)
    requires AllDigits(frac) && (!hasPoint ==> frac == "")
    ensures AllDigits(Decimals(frac, hasPoint)) && Number(Decimals(frac, hasPoint)) == Cents(frac)
  {
    TwoPlacesRead(frac);
  }

  lemma InHundredths(whole: nat, cents: nat)
    requires 100 * whole + cents <= MAX
    ensures Hundredths(whole, cents) == 100 * whole + cents && Negate(100 * whole + cents) == -(100 * whole + cents)
  {
    WrapInRange(100 * whole + cents);
    WrapInRange(-(100 * whole + cents));
  }

  lemma MoneyReads(text: string, whole: string, frac: string, hasPoint: bool)
    requires Reads(text, whole, frac, hasPoint)
    ensures MoneyOf(text) == Some(100 * Number(whole) + Cents(frac))
  {
    NumbersRead(whole, frac, hasPoint);
    hide ParseInt, TrimSpace, Cut, Hundredths, TwoPlaces, Cents, Number, Negate;
    AgreeUnsigned(text, text, (whole, frac, hasPoint), Decimals(frac, hasPoint));
  }

  lemma AmountReads(text: string, unsigned: string, whole: string, frac: string, hasPoint: bool)
    requires Reads(unsigned, whole, frac, hasPoint) && TrimSpace(text) == text
    requires text == unsigned || text == "-" + unsigned
    ensures AmountToMinor(text)
      == if text == unsigned then Some(100 * Number(whole) + Cents(frac))
        else Some(-(100 * Number(whole) + Cents(frac)))
  {
    NumbersRead(whole, frac, hasPoint);
    CutStarts(unsigned, whole, frac, hasPoint);
    hide ParseInt, TrimSpace, Cut, Hundredths, TwoPlaces, Number, Negate, IsDigit;
    assert text != unsigned ==> text[1..] == unsigned;
    assert !hasPoint ==> Cents(frac) == 0;
  }

  /** A text starts with its whole part, so here with a digit. */
  lemma CutStarts(text: string, whole: string, frac: string, hasPoint: bool)
    requires Cut(text, '.') == (whole, frac, hasPoint) && whole != "" && AllDigits(whole)
    ensures text != "" && text[0] != '-'
  {
    hide Cut;
    DigitIsNoSpace(whole[0]);
    assert text[0] == whole[0];
  }

  lemma DollarsRead(text: string, whole: string, frac: string, hasPoint: bool)
    requires Reads(text, whole, frac, hasPoint)
    ensures DollarsOf(text)
      == if !hasPoint || 1 <= |frac| <= 2 then Some(100 * Number(whole) + Cents(frac)) else None
  {
    NumbersRead(whole, frac, hasPoint);
    hide ParseInt, TrimSpace, Cut, Hundredths, Number, Negate, Cents, AllDigits;
    assert hasPoint && |frac| == 1 ==> TwoPlaces(frac) == frac + "0";
  }

  /** What all three make of plain digits and a point: hundreds of the whole part and the hundredths of the decimals.
      The payout form alone wants one or two decimals after a point, and only BTCPay takes a minus sign. */
  lemma ParsersRead(whole: string, frac: string)
    requires whole != "" && AllDigits(whole) && AllDigits(frac) && 100 * Number(whole) + Cents(frac) <= MAX
    ensures var text, amount := whole + "." + frac, 100 * Number(whole) + Cents(frac);
      && MoneyOf(text) == AmountToMinor(text) == Some(amount)
      && AmountToMinor("-" + text) == Some(-amount) && MoneyOf("-" + text) == None
      && DollarsOf(text) == if 1 <= |frac| <= 2 then Some(amount) else None
    ensures MoneyOf(whole) == AmountToMinor(whole) == DollarsOf(whole) == Some(100 * Number(whole))
  {
    hide *;
    var text := whole + "." + frac;
    ReadsWith(whole, frac);
    NoCents();
    Unread(text, whole, frac, true);
    Unread(whole, whole, "", false);
    MoneyReads(text, whole, frac, true);
    MoneyReads(whole, whole, "", false);
    AmountReads(text, text, whole, frac, true);
    AmountReads("-" + text, text, whole, frac, true);
    AmountReads(whole, whole, whole, "", false);
    DollarsRead(text, whole, frac, true);
    DollarsRead(whole, whole, "", false);
    MinusRefused("-" + text, "-" + whole, frac);
    assert |"-" + text| == |text| + 1;
  }

  lemma Unread(text: string, whole: string, frac: string, hasPoint: bool)
    requires Reads(text, whole, frac, hasPoint)
    ensures TrimSpace(text) == text && text != ""
  {
    hide TrimSpace, Cut, AllDigits, Number, Cents;
  }

  lemma MinusRefused(text: string, whole: string, frac: string)
    requires text != "" && TrimSpace(text) == text && Cut(text, '.') == (whole, frac, true)
    requires whole != "" && whole[0] == '-'
    ensures MoneyOf(text) == None
  {
    hide ParseInt, TrimSpace, Cut, TwoPlaces;
    assert (whole + TwoPlaces(frac))[0] == '-';
  }

  /** The catalogue form and BTCPay never look past the second decimal: whatever follows it, the amount is the same. */
  lemma TailUnread(text: string, whole: string, two: string, tail: string)
    requires text == whole + "." + (two + tail) && TrimSpace(text) == text
    requires whole != "" && AllDigits(whole) && AllDigits(two) && |two| == 2 && 100 * Number(whole) + Cents(two) <= MAX
    ensures MoneyOf(text) == AmountToMinor(text) == Some(100 * Number(whole) + Cents(two))
    ensures tail != "" ==> DollarsOf(text) == None
  {
    hide *;
    NoPoint(whole);
    CutAt(whole, two + tail, '.');
    CutStarts(text, whole, two + tail, true);
    NumbersRead(whole, two, true);
    JustTwo(two, "");
    JustTwo(two, tail);
    assert two + "" == two;
    AgreeUnsigned(text, text, (whole, two + tail, true), two);
    AmountCut(text, whole, two + tail, two);
    LongTailRefused(text, whole, two + tail);
  }

  lemma JustTwo(two: string, tail: string)
    requires |two| == 2
    ensures TwoPlaces(two + tail) == two == Decimals(two, true)
  {
  }

  lemma AmountCut(text: string, whole: string, frac: string, two: string)
    requires text != "" && text[0] != '-' && TrimSpace(text) == text && Cut(text, '.') == (whole, frac, true)
    requires TwoPlaces(frac) == two && ParseInt(whole, LIMIT).Some? && ParseInt(two, LIMIT).Some?
    ensures AmountToMinor(text) == Some(Hundredths(ParseInt(whole, LIMIT).value, ParseInt(two, LIMIT).value))
  {
    hide ParseInt, TrimSpace, Cut, Hundredths, TwoPlaces, Negate;
  }

  lemma LongTailRefused(text: string, whole: string, frac: string)
    requires TrimSpace(text) == text && Cut(text, '.') == (whole, frac, true)
    ensures |frac| > 2 ==> DollarsOf(text) == None
  {
    hide ParseInt, TrimSpace, Cut, Hundredths;
  }

  /** Two decimals, always; the catalogue form signs the cents once more. */
  lemma AmountsShown()
    ensures AmountString(1905) == FormatMinorUnitsPlain(1905) == "19.05"
    ensures AmountString(-150) == "-1.50" && FormatMinorUnitsPlain(-150) == "-1.-50"
  {
    assert Magnitude(1905) == 1905 && Truncate(1905, 100) == 19 && Remainder(1905, 100) == 5;
    assert Magnitude(-150) == 150 && Truncate(150, 100) == 1 && Remainder(150, 100) == 50;
    assert Truncate(-150, 100) == -1 && Remainder(-150, 100) == -50;
    hide *;
    StringParts(1905);
    StringParts(-150);
    FormParts(1905);
    FormParts(-150);
    PartsShown();
  }

  lemma PartsShown()
    ensures ShowInt(19) == "19" && ShowInt(1) == "1" && ShowInt(-1) == "-1"
    ensures ShowTwoWide(5) == "05" && ShowTwoWide(50) == "50" && ShowTwoWide(-50) == "-50"
  {
    assert Show(19) == Show(1) + ['9'] && Show(50) == Show(5) + ['0'];
  }

  /** The payout form reads back what the catalogue form shows. */
  lemma PayoutRoundTrip(n: int64)
    requires n >= 0
    ensures DollarsOf(FormatMinorUnitsPlain(n)) == Some(n)
  {
    hide *;
    var whole, cents := Truncate(n, 100), Remainder(n, 100);
    var a, b := ShowInt(whole), ShowTwoWide(cents);
    FormParts(n);
    PlainParts(n);
    ShownDigits(whole);
    ShownCents(cents);
    ParsersRead(a, b);
  }

  lemma ShownDigits(n: nat)
    ensures AllDigits(ShowInt(n)) && ShowInt(n) != "" && Number(ShowInt(n)) == n
  {
  }

  lemma ShownCents(n: nat)
    requires n < 100
    ensures AllDigits(ShowTwoWide(n)) && |ShowTwoWide(n)| == 2 && Cents(ShowTwoWide(n)) == n
  {
    var pair := ShowPadded(n);
    assert pair == [pair[0], pair[1]];
    NumberPair(pair[0], pair[1]);
  }
}
