/**
 * USD text, integer cents and USDC base units. Integers are unbounded: amounts past the
 * exact range of a double are not modelled.
 */
module Money {
  import opened Wrappers

  // ----- decimal digits

  predicate IsDigit(c: char) {
    '0' <= c <= '9'
  }

  predicate AllDigits(s: string) {
    forall i :: 0 <= i < |s| ==> IsDigit(s[i])
  }

  function DigitValue(c: char): nat
    requires IsDigit(c)
  {
    (c as int - '0' as int) as nat
  }

  function DigitChar(d: nat): (c: char)
    requires d < 10
    ensures IsDigit(c) && DigitValue(c) == d
  {
    ('0' as int + d) as char
  }

  /** Number(s) of a string of digits. */
  function NumberOf(s: string): nat
    requires AllDigits(s)
  {
    if s == "" then 0 else 10 * NumberOf(s[..|s| - 1]) + DigitValue(s[|s| - 1])
  }

  /** String(n) */
  function Print(n: nat): (s: string)
    ensures s != "" && AllDigits(s)
  {
    if n < 10 then [DigitChar(n)] else Print(n / 10) + [DigitChar(n % 10)]
  }

  predicate NoLeadingZero(s: string) {
    s != "" && (s[0] == '0' ==> |s| == 1)
  }

  lemma {:induction false} NumberOfPrint(n: nat)
    ensures NumberOf(Print(n)) == n && NoLeadingZero(Print(n)) && (Print(n)[0] == '0' <==> n == 0)
  {
    if n < 10 {
      assert Print(n)[..0] == "";
    } else {
      NumberOfPrint(n / 10);
      assert Print(n)[..|Print(n)| - 1] == Print(n / 10);
    }
  }

  lemma {:induction false} PrintOfNumber(s: string)
    requires AllDigits(s) && NoLeadingZero(s)
    ensures Print(NumberOf(s)) == s && (NumberOf(s) == 0 <==> s == "0")
    decreases |s|
  {
    var front := s[..|s| - 1];
    if |s| == 1 {
      assert front == "";
    } else {
      PrintOfNumber(front);
      assert s == front + [s[|s| - 1]];
    }
  }

  // ----- parsing

  /** What String.prototype.trim strips. */
  predicate IsSpace(c: char) {
    '\t' <= c <= '\r' || c == ' ' || c == '\U{00A0}' || c == '\U{1680}' || '\U{2000}' <= c <= '\U{200A}'
    || c == '\U{2028}' || c == '\U{2029}' || c == '\U{202F}' || c == '\U{205F}' || c == '\U{3000}' || c == '\U{FEFF}'
  }

  function TrimStart(s: string): string {
    if s != "" && IsSpace(s[0]) then TrimStart(s[1..]) else s
  }

  function TrimEnd(s: string): string {
    if s != "" && IsSpace(s[|s| - 1]) then TrimEnd(s[..|s| - 1]) else s
  }

  function Trim(s: string): string {
    TrimEnd(TrimStart(s))
  }

  function LeadingDigits(s: string): (n: nat)
    ensures n <= |s| && AllDigits(s[..n]) && (n < |s| ==> !IsDigit(s[n]))
  {
    if s == "" || !IsDigit(s[0]) then 0 else
      var n := 1 + LeadingDigits(s[1..]);
      assert forall i :: 0 < i < n ==> s[..n][i] == s[1..][..n - 1][i - 1];
      n
  }

  function PadEnd2(s: string): (r: string)
    requires AllDigits(s) && |s| <= 2
    ensures AllDigits(r) && |r| == 2
  {
    if |s| == 0 then "00" else if |s| == 1 then s + "0" else s
  }

  function PadStart2(s: string): string {
    if |s| < 2 then "0" + s else s
  }

  function CentsOf(negative: bool, whole: string, fraction: string): int
    requires AllDigits(whole) && AllDigits(fraction) && |fraction| <= 2
  {
    var cents := NumberOf(whole) * 100 + NumberOf(PadEnd2(fraction));
    if negative then -cents else cents
  }

  function ParseUsdToCents(value: string): Option<int> {
    var text := Trim(value);
    var negative := text != "" && text[0] == '-';
    var body := if negative then text[1..] else text;
    var n := LeadingDigits(body);
    var rest := body[n..];
    if n == 0 then None
    else if rest == "" then Some(CentsOf(negative, body[..n], ""))
    else if rest[0] == '.' && 2 <= |rest| <= 3 && AllDigits(rest[1..]) then Some(CentsOf(negative, body[..n], rest[1..]))
    else None
  }

  function FormatCentsToUsd(cents: int): string {
    var abs: nat := if cents < 0 then -cents else cents;
    (if cents < 0 then "-" else "") + Print(abs / 100) + "." + PadStart2(Print(abs % 100))
  }

  // ----- the accepted texts

  /** One way to read a text as sign, whole part and at most two decimals, as the pattern demands. */
  predicate Reads(text: string, negative: bool, whole: string, fraction: string) {
    && whole != "" && AllDigits(whole) && AllDigits(fraction) && |fraction| <= 2
    && text == (if negative then "-" else "") + whole + (if fraction == "" then "" else "." + fraction)
  }

  lemma LeadingDigitsOf(whole: string, rest: string)
    requires AllDigits(whole) && (rest == "" || !IsDigit(rest[0]))
    ensures LeadingDigits(whole + rest) == |whole|
  {
    var s, n := whole + rest, LeadingDigits(whole + rest);
    assert forall i :: 0 <= i < |whole| ==> IsDigit(s[i]);
    assert forall i :: 0 <= i < n ==> IsDigit(s[..n][i]);
    assert |whole| < |s| ==> s[|whole|] == rest[0];
  }

  lemma AcceptsAmounts(value: string, negative: bool, whole: string, fraction: string)
    requires Reads(Trim(value), negative, whole, fraction)
    ensures ParseUsdToCents(value) == Some(CentsOf(negative, whole, fraction))
  {
    var text := Trim(value);
    var tail := if fraction == "" then "" else "." + fraction;
    LeadingDigitsOf(whole, tail);
    assert negative <==> text[0] == '-';
    var body := if negative then text[1..] else text;
    assert body == whole + tail;
    assert body[..|whole|] == whole && body[|whole|..] == tail;
    assert fraction != "" ==> tail[1..] == fraction;
  }

  lemma AcceptsOnlyAmounts(value: string)
    requires ParseUsdToCents(value).Some?
    ensures exists n, w, f :: Reads(Trim(value), n, w, f)
  {
    var text := Trim(value);
    var negative := text != "" && text[0] == '-';
    var body := if negative then text[1..] else text;
    var n := LeadingDigits(body);
    var rest := body[n..];
    assert body == body[..n] + rest;
    assert text == (if negative then "-" else "") + body;
    ReadsBack(text, negative, body[..n], rest);
  }

  lemma ReadsBack(text: string, negative: bool, whole: string, rest: string)
    requires text == (if negative then "-" else "") + (whole + rest) && whole != "" && AllDigits(whole)
    requires rest == "" || (rest[0] == '.' && 2 <= |rest| <= 3 && AllDigits(rest[1..]))
    ensures exists f :: Reads(text, negative, whole, f)
  {
    var fraction := if rest == "" then "" else rest[1..];
    assert rest == if fraction == "" then "" else "." + fraction;
    assert Reads(text, negative, whole, fraction);
  }

  /** All the digits read as one number, scaled to hundredths. */
  function InHundredths(negative: bool, whole: string, fraction: string): int
    requires AllDigits(whole) && AllDigits(fraction)
  {
    assert AllDigits(whole + fraction);
    var scale := if |fraction| == 0 then 100 else if |fraction| == 1 then 10 else 1;
    var cents := NumberOf(whole + fraction) * scale;
    if negative then -cents else cents
  }

  lemma NumberOfLonger(s: string, c: char)
    requires AllDigits(s) && IsDigit(c)
    ensures AllDigits(s + [c]) && NumberOf(s + [c]) == 10 * NumberOf(s) + DigitValue(c)
  {
    assert (s + [c])[..|s|] == s;
  }

  lemma CentsAreHundredths(negative: bool, whole: string, fraction: string)
    requires AllDigits(whole) && AllDigits(fraction) && |fraction| <= 2
    ensures CentsOf(negative, whole, fraction) == InHundredths(negative, whole, fraction)
  {
    TwoDigits(PadEnd2(fraction));
    if |fraction| == 0 {
      assert whole + fraction == whole;
    } else {
      NumberOfLonger(whole, fraction[0]);
      if |fraction| == 1 {
        assert whole + fraction == whole + [fraction[0]];
      } else {
        NumberOfLonger(whole + [fraction[0]], fraction[1]);
        assert whole + fraction == whole + [fraction[0]] + [fraction[1]];
      }
    }
  }

  /** A text is accepted exactly when it reads as an amount, and then it is worth its digits in hundredths. */
  lemma AcceptsExactlyAmounts(value: string)
    ensures ParseUsdToCents(value).Some? <==> exists n, w, f :: Reads(Trim(value), n, w, f)
    ensures forall n, w, f :: Reads(Trim(value), n, w, f) ==> ParseUsdToCents(value) == Some(InHundredths(n, w, f))
  {
    if ParseUsdToCents(value).Some? {
      AcceptsOnlyAmounts(value);
    }
    forall n, w, f | Reads(Trim(value), n, w, f) ensures ParseUsdToCents(value) == Some(InHundredths(n, w, f)) {
      AcceptsAmounts(value, n, w, f);
      CentsAreHundredths(n, w, f);
    }
  }

  predicate AllSpaces(s: string) {
    forall i :: 0 <= i < |s| ==> IsSpace(s[i])
  }

  lemma {:induction false} TrimStartStrips(s: string) returns (before: string)
    ensures s == before + TrimStart(s) && AllSpaces(before)
    ensures TrimStart(s) != "" ==> !IsSpace(TrimStart(s)[0])
  {
    before := "";
    if s != "" && IsSpace(s[0]) {
      var rest := TrimStartStrips(s[1..]);
      before := [s[0]] + rest;
    }
  }

  lemma {:induction false} TrimEndStrips(s: string) returns (after: string)
    ensures s == TrimEnd(s) + after && AllSpaces(after)
    ensures TrimEnd(s) != "" ==> !IsSpace(TrimEnd(s)[|TrimEnd(s)| - 1])
  {
    after := "";
    if s != "" && IsSpace(s[|s| - 1]) {
      var rest := TrimEndStrips(s[..|s| - 1]);
      after := rest + [s[|s| - 1]];
    }
  }

  /** Trimming takes away blanks at the ends, and all of them. */
  lemma TrimStripsBlanks(s: string) returns (before: string, after: string)
    ensures s == before + Trim(s) + after && AllSpaces(before) && AllSpaces(after)
    ensures Trim(s) != "" ==> !IsSpace(Trim(s)[0]) && !IsSpace(Trim(s)[|Trim(s)| - 1])
  {
    before := TrimStartStrips(s);
    after := TrimEndStrips(TrimStart(s));
    assert Trim(s) != "" ==> Trim(s)[0] == TrimStart(s)[0];
  }

  /** The printed form: no blanks, no leading zeros, two decimals, and no minus sign before zero. */
  ghost predicate Canonical(text: string, negative: bool, whole: string, fraction: string) {
    && Reads(text, negative, whole, fraction) && NoLeadingZero(whole) && |fraction| == 2
    && (negative ==> CentsOf(true, whole, fraction) != 0)
  }

  lemma TrimKeepsAmounts(text: string, negative: bool, whole: string, fraction: string)
    requires Reads(text, negative, whole, fraction)
    ensures Trim(text) == text
  {
    assert text[0] == '-' || text[0] == whole[0];
    assert text[|text| - 1] == (if fraction == "" then whole[|whole| - 1] else fraction[|fraction| - 1]);
  }

  lemma TwoDigits(s: string)
    requires AllDigits(s) && |s| == 2
    ensures NumberOf(s) == 10 * DigitValue(s[0]) + DigitValue(s[1])
  {
    assert s[..1][..0] == "";
    assert NumberOf(s[..1]) == DigitValue(s[0]);
  }

  lemma PrintTwoDigits(a: nat, b: nat)
    requires a < 10 && b < 10
    ensures PadStart2(Print(10 * a + b)) == [DigitChar(a), DigitChar(b)]
  {
    assert (10 * a + b) / 10 == a && (10 * a + b) % 10 == b;
    assert Print(a) == [DigitChar(a)];
  }

  lemma SameDigit(c: char)
    requires IsDigit(c)
    ensures DigitChar(DigitValue(c)) == c
  {
  }

  lemma ReprintsTwoDigits(s: string)
    requires AllDigits(s) && |s| == 2
    ensures NumberOf(s) < 100 && PadStart2(Print(NumberOf(s))) == s
  {
    TwoDigits(s);
    PrintTwoDigits(DigitValue(s[0]), DigitValue(s[1]));
    SameDigit(s[0]);
    SameDigit(s[1]);
  }

  lemma PaddedPrint(n: nat)
    requires n < 100
    ensures var s := PadStart2(Print(n)); |s| == 2 && AllDigits(s) && NumberOf(s) == n
  {
    NumberOfPrint(n);
    if n < 10 {
      assert ("0" + Print(n))[..1] == "0" && "0"[..0] == "";
    } else {
      assert |Print(n / 10)| == 1;
    }
  }

  lemma FormatIsCanonical(cents: int) returns (whole: string, fraction: string)
    ensures Canonical(FormatCentsToUsd(cents), cents < 0, whole, fraction) && CentsOf(cents < 0, whole, fraction) == cents
  {
    var abs: nat := if cents < 0 then -cents else cents;
    whole, fraction := Print(abs / 100), PadStart2(Print(abs % 100));
    NumberOfPrint(abs / 100);
    PaddedPrint(abs % 100);
    assert PadEnd2(fraction) == fraction;
  }

  /** Any number of cents survives being printed and parsed, and is printed canonically. */
  lemma ParseOfFormat(cents: int)
    ensures ParseUsdToCents(FormatCentsToUsd(cents)) == Some(cents)
    ensures exists n, w, f :: Canonical(FormatCentsToUsd(cents), n, w, f)
  {
    var whole, fraction := FormatIsCanonical(cents);
    TrimKeepsAmounts(FormatCentsToUsd(cents), cents < 0, whole, fraction);
    AcceptsAmounts(FormatCentsToUsd(cents), cents < 0, whole, fraction);
  }

  lemma ReprintsCanonical(text: string, negative: bool, whole: string, fraction: string)
    requires Canonical(text, negative, whole, fraction)
    ensures FormatCentsToUsd(CentsOf(negative, whole, fraction)) == text
  {
    PrintOfNumber(whole);
    ReprintsTwoDigits(fraction);
    var cents, abs := CentsOf(negative, whole, fraction), NumberOf(whole) * 100 + NumberOf(fraction);
    assert PadEnd2(fraction) == fraction;
    assert negative <==> cents < 0;
    assert abs / 100 == NumberOf(whole) && abs % 100 == NumberOf(fraction);
  }

  /** Parsing and printing again changes a text exactly when it was not canonical. */
  lemma FormatOfParse(text: string)
    ensures (ParseUsdToCents(text).Some? && FormatCentsToUsd(ParseUsdToCents(text).value) == text)
       <==> exists n, w, f :: Canonical(text, n, w, f)
  {
    if ParseUsdToCents(text).Some? {
      ParseOfFormat(ParseUsdToCents(text).value);
    }
    if n, w, f :| Canonical(text, n, w, f) {
      TrimKeepsAmounts(text, n, w, f);
      AcceptsAmounts(text, n, w, f);
      ReprintsCanonical(text, n, w, f);
    }
  }

  // ----- USDC base units

  const UNITS_PER_CENT := 10_000

  function CentsToUsdcBaseUnits(cents: int): int {
    cents * UNITS_PER_CENT
  }

  /** Integer division and remainder as JavaScript has them, rounding toward zero. */
  function TruncatedQuotient(a: int, b: int): int
    requires b > 0
  {
    if a >= 0 then a / b else -(-a / b)
  }

  function TruncatedRemainder(a: int, b: int): int
    requires b > 0
  {
    a - b * TruncatedQuotient(a, b)
  }

  datatype MoneyError = SubCentPrecision(baseUnits: int)

  function UsdcBaseUnitsToCents(baseUnits: int): Result<int, MoneyError> {
    if TruncatedRemainder(baseUnits, UNITS_PER_CENT) != 0 then Err(SubCentPrecision(baseUnits))
    else Ok(TruncatedQuotient(baseUnits, UNITS_PER_CENT))
  }

  /** The two conversions are inverse to each other; base units that are no whole cents are refused. */
  lemma ConversionsAreInverse(cents: int, baseUnits: int)
    ensures UsdcBaseUnitsToCents(baseUnits) == Ok(cents) <==> CentsToUsdcBaseUnits(cents) == baseUnits
    ensures UsdcBaseUnitsToCents(baseUnits).Err? <==> forall c :: CentsToUsdcBaseUnits(c) != baseUnits
  {
    assert UsdcBaseUnitsToCents(baseUnits).Ok? ==> CentsToUsdcBaseUnits(UsdcBaseUnitsToCents(baseUnits).value) == baseUnits;
  }
}
