/**
 * The base58 encoder, and the decoder of draft-msporny-base58, section 4, that it is
 * measured against. Encoding an all-zero input prints one "1" too many, because the digit
 * list starts with a zero digit.
 */
module Base58 {
  import opened Wrappers

  type byte = x: int | 0 <= x < 256

  const ALPHABET := "123456789" + "ABCDEFGH" + "JKLMN" + "PQRSTUVWXYZ" + "abcdefghijk" + "mnopqrstuvwxyz"

  // ----- numerals, most significant digit first

  ghost predicate Below(base: nat, digits: seq<int>) {
    forall i :: 0 <= i < |digits| ==> 0 <= digits[i] < base
  }

  function ValueOf(base: nat, digits: seq<int>): int {
    if digits == [] then 0 else base * ValueOf(base, digits[..|digits| - 1]) + digits[|digits| - 1]
  }

  /** The shortest numeral of n; none at all for zero. */
  function Numeral(base: nat, n: nat): seq<int>
    requires 2 <= base
  {
    if n == 0 then [] else
      QuotientShrinks(n, base);
      Numeral(base, n / base) + [n % base]
  }

  lemma QuotientShrinks(n: nat, base: nat)
    requires 2 <= base && 0 < n
    ensures 0 <= n / base < n
  {
    assert n == base * (n / base) + n % base;
  }

  function Zeros(digits: seq<int>): (n: nat)
    ensures n <= |digits|
    ensures forall i :: 0 <= i < n ==> digits[i] == 0
    ensures n < |digits| ==> digits[n] != 0
  {
    if digits == [] || digits[0] != 0 then 0 else 1 + Zeros(digits[1..])
  }

  lemma {:induction false} ValueZero(base: nat, digits: seq<int>)
    requires 2 <= base && Below(base, digits)
    ensures 0 <= ValueOf(base, digits)
    ensures ValueOf(base, digits) == 0 <==> Zeros(digits) == |digits|
    decreases |digits|
  {
    if digits != [] {
      var front := digits[..|digits| - 1];
      ValueZero(base, front);
      assert ValueOf(base, front) > 0 ==> base * ValueOf(base, front) > 0;
    }
  }

  lemma TimesAtLeast(base: nat, n: nat)
    requires 0 < n
    ensures base <= base * n
  {
  }

  lemma OneWayToDivide(base: nat, q: nat, r: nat, q': nat, r': nat)
    requires base * q + r == base * q' + r' && r < base && r' < base
    ensures q == q' && r == r'
  {
    if q < q' {
      assert base * (q' - q) == base * q' - base * q;
      TimesAtLeast(base, q' - q);
    } else if q' < q {
      assert base * (q - q') == base * q - base * q';
      TimesAtLeast(base, q - q');
    }
  }

  lemma DigitsComeApart(base: nat, high: nat, low: nat)
    requires 2 <= base && low < base
    ensures 0 <= base * high && (base * high + low) / base == high && (base * high + low) % base == low
  {
    var n := base * high + low;
    OneWayToDivide(base, n / base, n % base, high, low);
  }

  lemma NumeralStep(base: nat, high: nat, low: nat)
    requires 2 <= base && low < base && 0 < base * high + low
    ensures Numeral(base, base * high + low) == Numeral(base, high) + [low]
  {
    DigitsComeApart(base, high, low);
  }

  /** A numeral's value determines it up to leading zeros. */
  lemma {:induction false} NumeralOfValue(base: nat, digits: seq<int>)
    requires 2 <= base && Below(base, digits)
    ensures 0 <= ValueOf(base, digits) && Numeral(base, ValueOf(base, digits)) == digits[Zeros(digits)..]
    decreases |digits|
  {
    ValueZero(base, digits);
    if ValueOf(base, digits) != 0 {
      var front, last := digits[..|digits| - 1], digits[|digits| - 1];
      NumeralOfValue(base, front);
      NumeralStep(base, ValueOf(base, front), last);
      ZerosOfFront(digits);
      assert digits[Zeros(digits)..] == front[Zeros(front)..] + [last];
    }
  }

  lemma ZerosOfFront(digits: seq<int>)
    requires Zeros(digits) < |digits|
    ensures Zeros(digits[..|digits| - 1]) == Zeros(digits)
  {
    var front := digits[..|digits| - 1];
    assert Zeros(front) < |front| ==> digits[Zeros(front)] != 0;
    assert Zeros(digits) < |front| ==> front[Zeros(digits)] != 0;
  }

  lemma Division(base: nat, n: nat)
    requires 2 <= base
    ensures 0 <= n / base && 0 <= n % base < base && n == base * (n / base) + n % base
  {
  }

  lemma {:induction false} ValueOfNumeral(base: nat, n: nat)
    requires 2 <= base
    ensures ValueOf(base, Numeral(base, n)) == n && Below(base, Numeral(base, n))
    ensures Zeros(Numeral(base, n)) == 0
    decreases n
  {
    if n > 0 {
      QuotientShrinks(n, base);
      Division(base, n);
      var high, low := Numeral(base, n / base), n % base;
      ValueOfNumeral(base, n / base);
      ValueOfLonger(base, high, low);
      assert Zeros(high + [low]) == 0 by {
        if high == [] { assert low != 0; }
      }
    }
  }

  lemma ValueOfLonger(base: nat, high: seq<int>, low: int)
    ensures ValueOf(base, high + [low]) == base * ValueOf(base, high) + low
  {
    assert (high + [low])[..|high|] == high;
  }

  // ----- the encoding

  ghost predicate IsAlphabet(alphabet: string) {
    |alphabet| == 58 && forall i, j :: 0 <= i < j < 58 ==> alphabet[i] != alphabet[j]
  }

  function Letters(alphabet: string, digits: seq<int>): (s: string)
    requires |alphabet| == 58 && Below(58, digits)
    ensures |s| == |digits| && forall i :: 0 <= i < |digits| ==> s[i] == alphabet[digits[i]]
  {
    seq(|digits|, i requires 0 <= i < |digits| => alphabet[digits[i]])
  }

  function Repeat(c: char, n: nat): (s: string)
    ensures |s| == n && forall i :: 0 <= i < n ==> s[i] == c
  {
    seq(n, i => c)
  }

  function DigitsFor(n: nat): (digits: seq<int>)
    ensures Below(58, digits)
  {
    ValueOfNumeral(58, n);
    if n == 0 then [0] else Numeral(58, n)
  }

  /** One first letter for each leading zero byte, then the value in base 58. */
  ghost function Encode(alphabet: string, bytes: seq<byte>): string
    requires |alphabet| == 58
  {
    BytesAreDigits(bytes);
    ValueZero(256, bytes);
    Repeat(alphabet[0], Zeros(bytes)) + Letters(alphabet, DigitsFor(ValueOf(256, bytes)))
  }

  lemma BytesAreDigits(bytes: seq<byte>)
    ensures Below(256, bytes)
  {
  }

  // ----- the digit list of the source: least significant digit first

  function Reversed(s: seq<int>): (r: seq<int>)
    ensures |r| == |s| && forall i :: 0 <= i < |s| ==> r[i] == s[|s| - 1 - i]
  {
    if s == [] then [] else Reversed(s[1..]) + [s[0]]
  }

  /** sum(digits[i] * 58^i) */
  function Weight(digits: seq<int>): int {
    ValueOf(58, Reversed(digits))
  }

  lemma WeightStep(digits: seq<int>)
    requires digits != []
    ensures Weight(digits) == 58 * Weight(digits[1..]) + digits[0]
  {
    assert Reversed(digits)[..|digits| - 1] == Reversed(digits[1..]);
  }

  /** What the carry still adds at the top. */
  function Pushed(carry: nat): seq<int> {
    if carry == 0 then [] else [carry % 58] + Pushed(carry / 58)
  }

  /** The digits times 256, plus a carry. */
  function TimesByte(digits: seq<int>, carry: nat): seq<int>
    requires Below(58, digits)
  {
    if digits == [] then Pushed(carry) else
      var value := digits[0] * 256 + carry;
      [value % 58] + TimesByte(digits[1..], value / 58)
  }

  predicate TopNotZero(digits: seq<int>) {
    digits != [] && digits[|digits| - 1] != 0
  }

  lemma {:induction false} PushedWeight(carry: nat)
    ensures Below(58, Pushed(carry)) && Weight(Pushed(carry)) == carry
    ensures carry != 0 ==> TopNotZero(Pushed(carry))
  {
    if carry != 0 {
      PushedWeight(carry / 58);
      WeightStep(Pushed(carry));
      assert Pushed(carry)[1..] == Pushed(carry / 58);
    }
  }

  lemma {:induction false} CarriedWeight(digits: seq<int>, carry: nat)
    requires Below(58, digits)
    ensures Below(58, TimesByte(digits, carry)) && Weight(TimesByte(digits, carry)) == 256 * Weight(digits) + carry
    ensures TopNotZero(digits) ==> TopNotZero(TimesByte(digits, carry))
  {
    if digits == [] {
      PushedWeight(carry);
    } else {
      var value := digits[0] * 256 + carry;
      CarriedWeight(digits[1..], value / 58);
      WeightStep(digits);
      WeightStep(TimesByte(digits, carry));
      assert TimesByte(digits, carry)[1..] == TimesByte(digits[1..], value / 58);
      if |digits| == 1 && digits[0] != 0 {
        PushedWeight(value / 58);
      }
    }
  }

  /** The list is a lone zero, or has no zero on top. */
  predicate Tidy(digits: seq<int>) {
    digits == [0] || TopNotZero(digits)
  }

  lemma CarriedIsTidy(digits: seq<int>, carry: byte)
    requires Below(58, digits) && Tidy(digits)
    ensures Tidy(TimesByte(digits, carry))
  {
    CarriedWeight(digits, carry);
    if digits == [0] {
      PushedWeight(carry / 58);
      assert TimesByte(digits, carry) == [carry % 58] + Pushed(carry / 58);
    }
  }

  lemma TidyDigits(digits: seq<int>)
    requires Below(58, digits) && Tidy(digits)
    ensures 0 <= Weight(digits) && Reversed(digits) == DigitsFor(Weight(digits))
  {
    ValueZero(58, Reversed(digits));
    NumeralOfValue(58, Reversed(digits));
    assert TopNotZero(digits) ==> Zeros(Reversed(digits)) == 0;
  }

  /** One byte: multiply the list by 256 in place and add the byte. */
  method AddByte(digits: seq<int>, b: byte) returns (digits': seq<int>)
    requires Below(58, digits)
    ensures digits' == TimesByte(digits, b)
  {
    digits' := digits;
    var carry: nat := b;
    var i := 0;
    while i < |digits'|
      invariant 0 <= i <= |digits'| == |digits|
      invariant carry < 256
      invariant digits'[i..] == digits[i..]
      invariant digits'[..i] + TimesByte(digits[i..], carry) == TimesByte(digits, b)
    {
      var value := digits'[i] * 256 + carry;
      assert digits[i..][1..] == digits[i + 1..] && digits[i..][0] == digits'[i];
      assert digits'[i := value % 58][..i + 1] == digits'[..i] + [value % 58];
      digits' := digits'[i := value % 58];
      carry := value / 58;
      i := i + 1;
    }
    assert digits'[..i] == digits' && digits[i..] == [];
    while carry > 0
      invariant digits' + Pushed(carry) == TimesByte(digits, b)
    {
      digits' := digits' + [carry % 58];
      carry := carry / 58;
    }
  }

  lemma ByteAdded(bytes: seq<byte>, n: nat, digits: seq<int>)
    requires n < |bytes| && Below(58, digits) && Tidy(digits) && Weight(digits) == ValueOf(256, bytes[..n])
    ensures
      var digits' := TimesByte(digits, bytes[n]);
      Below(58, digits') && Tidy(digits') && Weight(digits') == ValueOf(256, bytes[..n + 1])
  {
    CarriedWeight(digits, bytes[n]);
    CarriedIsTidy(digits, bytes[n]);
    assert bytes[..n + 1][..n] == bytes[..n];
  }

  /** The byte loop. */
  method DigitList(bytes: seq<byte>) returns (digits: seq<int>)
    ensures Below(58, digits) && Tidy(digits) && Weight(digits) == ValueOf(256, bytes)
  {
    digits := [0];
    for n := 0 to |bytes|
      invariant Below(58, digits) && Tidy(digits)
      invariant Weight(digits) == ValueOf(256, bytes[..n])
    {
      ByteAdded(bytes, n, digits);
      digits := AddByte(digits, bytes[n]);
    }
    assert bytes[..|bytes|] == bytes;
  }

  lemma Printed(alphabet: string, bytes: seq<byte>, digits: seq<int>)
    requires |alphabet| == 58 && Below(58, digits) && Tidy(digits) && Weight(digits) == ValueOf(256, bytes)
    ensures Repeat(alphabet[0], Zeros(bytes)) + Letters(alphabet, Reversed(digits)) == Encode(alphabet, bytes)
  {
    TidyDigits(digits);
  }

  lemma FirstLetter()
    ensures |ALPHABET| == 58 && ALPHABET[0] == '1'
  {
  }

  method EncodeBase58(bytes: seq<byte>) returns (text: string)
    ensures |ALPHABET| == 58 && text == Encode(ALPHABET, bytes)
  {
    var zeros := 0;
    while zeros < |bytes| && bytes[zeros] == 0
      invariant 0 <= zeros <= |bytes|
      invariant forall i :: 0 <= i < zeros ==> bytes[i] == 0
    {
      zeros := zeros + 1;
    }
    assert zeros == Zeros(bytes);
    var digits := DigitList(bytes);
    FirstLetter();
    Printed(ALPHABET, bytes, digits);
    text := Repeat('1', zeros) + Letters(ALPHABET, Reversed(digits));
  }

  // ----- decoding

  function IndexIn(s: string, c: char): (r: Option<int>)
    ensures r.Some? ==> 0 <= r.value < |s| && s[r.value] == c
    ensures r.None? ==> c !in s
  {
    if s == "" then None
    else if s[|s| - 1] == c then Some(|s| - 1)
    else IndexIn(s[..|s| - 1], c)
  }

  predicate Spelt(alphabet: string, text: string) {
    forall i :: 0 <= i < |text| ==> IndexIn(alphabet, text[i]).Some?
  }

  function DigitsOf(alphabet: string, text: string): (digits: seq<int>)
    requires |alphabet| == 58 && Spelt(alphabet, text)
    ensures Below(58, digits) && Letters(alphabet, digits) == text
  {
    seq(|text|, i requires 0 <= i < |text| => IndexIn(alphabet, text[i]).value)
  }

  function ZeroBytes(n: nat): (bytes: seq<int>)
    ensures |bytes| == n && forall i :: 0 <= i < n ==> bytes[i] == 0
  {
    seq(n, i => 0)
  }

  function BytesFor(digits: seq<int>): seq<int>
    requires Below(58, digits)
  {
    ValueZero(58, digits);
    ZeroBytes(Zeros(digits)) + Numeral(256, ValueOf(58, digits))
  }

  /** One zero byte for each leading first letter, then the value of the text in base 256. */
  function Decode(alphabet: string, text: string): Option<seq<int>>
    requires |alphabet| == 58
  {
    if !Spelt(alphabet, text) then None else Some(BytesFor(DigitsOf(alphabet, text)))
  }

  // ----- round trips, for any 58 distinct letters

  lemma LettersAscend()
    ensures forall i :: 0 <= i < 57 ==> ALPHABET[i] < ALPHABET[i + 1]
  {
  }

  lemma {:induction false} LettersAreOrdered(i: int, j: int)
    requires 0 <= i < j < 58
    ensures ALPHABET[i] < ALPHABET[j]
    decreases j
  {
    LettersAscend();
    if i < j - 1 {
      LettersAreOrdered(i, j - 1);
    }
    assert ALPHABET[j - 1] < ALPHABET[j - 1 + 1];
  }

  lemma AlphabetIsOne()
    ensures IsAlphabet(ALPHABET)
  {
    forall i, j | 0 <= i < j < 58 ensures ALPHABET[i] != ALPHABET[j] {
      LettersAreOrdered(i, j);
    }
  }

  lemma LettersReadBack(alphabet: string, digits: seq<int>)
    requires IsAlphabet(alphabet) && Below(58, digits)
    ensures Spelt(alphabet, Letters(alphabet, digits)) && DigitsOf(alphabet, Letters(alphabet, digits)) == digits
  {
    forall i | 0 <= i < |digits| ensures IndexIn(alphabet, Letters(alphabet, digits)[i]) == Some(digits[i]) {
      assert alphabet[digits[i]] in alphabet;
    }
  }

  lemma {:induction false} LeadingZerosAddNothing(base: nat, zeros: seq<int>, digits: seq<int>)
    requires forall i :: 0 <= i < |zeros| ==> zeros[i] == 0
    ensures ValueOf(base, zeros + digits) == ValueOf(base, digits)
    decreases |zeros| + |digits|
  {
    var all := zeros + digits;
    if digits != [] {
      assert all[..|all| - 1] == zeros + digits[..|digits| - 1];
      LeadingZerosAddNothing(base, zeros, digits[..|digits| - 1]);
    } else if zeros != [] {
      assert all[..|all| - 1] == zeros[..|zeros| - 1] + [];
      LeadingZerosAddNothing(base, zeros[..|zeros| - 1], []);
    }
  }

  predicate AllZero(bytes: seq<int>) {
    forall i :: 0 <= i < |bytes| ==> bytes[i] == 0
  }

  lemma DecodedZeros(zeros: seq<int>, digits: seq<int>)
    requires AllZero(zeros) && digits != [] && (Zeros(digits) == 0 || digits == [0])
    ensures Zeros(zeros + digits) == |zeros| + Zeros(digits)
  {
    var all := zeros + digits;
    assert Zeros(all) < |all| ==> all[Zeros(all)] != 0;
    assert all[|zeros|] == digits[0];
    assert digits == [0] ==> |all| == |zeros| + 1;
  }

  lemma BytesForSpelled(zeros: seq<int>, n: nat)
    requires AllZero(zeros)
    ensures Below(58, zeros + DigitsFor(n))
    ensures BytesFor(zeros + DigitsFor(n)) == if n == 0 then zeros + [0] else zeros + Numeral(256, n)
  {
    ValueOfNumeral(58, n);
    LeadingZerosAddNothing(58, zeros, DigitsFor(n));
    DecodedZeros(zeros, DigitsFor(n));
    if n == 0 {
      assert ValueOf(58, DigitsFor(n)) == 0;
      assert ZeroBytes(|zeros| + 1) == zeros + [0];
    } else {
      assert ZeroBytes(|zeros|) == zeros;
    }
  }

  lemma EncodeSpells(alphabet: string, bytes: seq<byte>, zeros: seq<int>, n: int)
    requires |alphabet| == 58 && zeros == ZeroBytes(Zeros(bytes)) && n == ValueOf(256, bytes) >= 0
    ensures Encode(alphabet, bytes) == Letters(alphabet, zeros + DigitsFor(n))
  {
    assert Letters(alphabet, zeros) == Repeat(alphabet[0], Zeros(bytes));
    assert Letters(alphabet, zeros + DigitsFor(n)) == Letters(alphabet, zeros) + Letters(alphabet, DigitsFor(n));
  }

  lemma BytesAgain(bytes: seq<byte>, zeros: seq<int>, n: int)
    requires zeros == ZeroBytes(Zeros(bytes)) && n == ValueOf(256, bytes)
    ensures 0 <= n && (n == 0 <==> AllZero(bytes))
    ensures (if n == 0 then zeros else zeros + Numeral(256, n)) == bytes
  {
    BytesAreDigits(bytes);
    ValueZero(256, bytes);
    NumeralOfValue(256, bytes);
    assert bytes == zeros + bytes[Zeros(bytes)..];
  }

  /** Decoding an encoding gives the input back, with one more zero byte if it has only zero bytes. */
  lemma DecodeOfEncode(alphabet: string, bytes: seq<byte>)
    requires IsAlphabet(alphabet)
    ensures Decode(alphabet, Encode(alphabet, bytes)) == Some(if AllZero(bytes) then bytes + [0] else bytes)
    ensures Decode(alphabet, Encode(alphabet, bytes)) == Some(bytes) <==> !AllZero(bytes)
  {
    var zeros, n := ZeroBytes(Zeros(bytes)), ValueOf(256, bytes);
    BytesAgain(bytes, zeros, n);
    EncodeSpells(alphabet, bytes, zeros, n);
    BytesForSpelled(zeros, n);
    LettersReadBack(alphabet, zeros + DigitsFor(n));
    assert |bytes + [0]| != |bytes|;
  }

  /** No two inputs have the same encoding, all-zero ones included. */
  lemma EncodeIsInjective(alphabet: string, a: seq<byte>, b: seq<byte>)
    requires IsAlphabet(alphabet) && Encode(alphabet, a) == Encode(alphabet, b)
    ensures a == b
  {
    DecodeOfEncode(alphabet, a);
    DecodeOfEncode(alphabet, b);
    LongerIsInjective(a, b);
  }

  lemma LongerIsInjective(a: seq<int>, b: seq<int>)
    requires (if AllZero(a) then a + [0] else a) == (if AllZero(b) then b + [0] else b)
    ensures a == b
  {
    assert AllZero(a) ==> AllZero(a + [0]);
    assert AllZero(b) ==> AllZero(b + [0]);
    assert a == (a + [0])[..|a|] && b == (b + [0])[..|b|];
  }

  lemma BytesForNumber(zeros: seq<int>, n: nat)
    requires AllZero(zeros)
    ensures Below(256, zeros + Numeral(256, n)) && ValueOf(256, zeros + Numeral(256, n)) == n
    ensures Zeros(zeros + Numeral(256, n)) == |zeros|
  {
    ValueOfNumeral(256, n);
    LeadingZerosAddNothing(256, zeros, Numeral(256, n));
    var all, k := zeros + Numeral(256, n), Zeros(zeros + Numeral(256, n));
    assert k < |all| ==> all[k] != 0;
    assert |zeros| < |all| ==> all[|zeros|] == Numeral(256, n)[0] != 0;
  }

  lemma DigitsAgain(digits: seq<int>, zeros: seq<int>, n: int)
    requires Below(58, digits) && zeros == ZeroBytes(Zeros(digits)) && n == ValueOf(58, digits)
    ensures 0 <= n && zeros + DigitsFor(n) == if AllZero(digits) then digits + [0] else digits
  {
    ValueZero(58, digits);
    NumeralOfValue(58, digits);
    assert digits == zeros + digits[Zeros(digits)..];
  }

  predicate AllFirst(alphabet: string, text: string)
    requires |alphabet| == 58
  {
    forall i :: 0 <= i < |text| ==> text[i] == alphabet[0]
  }

  /** Encoding what a text decodes to gives the text back, with one more first letter if it has no other. */
  lemma EncodeOfDecode(alphabet: string, text: string, bytes: seq<byte>)
    requires IsAlphabet(alphabet) && Decode(alphabet, text) == Some(bytes)
    ensures Encode(alphabet, bytes) == if AllFirst(alphabet, text) then text + [alphabet[0]] else text
  {
    var digits := DigitsOf(alphabet, text);
    var zeros, n := ZeroBytes(Zeros(digits)), ValueOf(58, digits);
    DigitsAgain(digits, zeros, n);
    BytesForNumber(zeros, n);
    EncodeSpells(alphabet, bytes, zeros, n);
    FirstLettersAreZeros(alphabet, digits, text);
    OneMoreZero(alphabet, digits);
  }

  lemma OneMoreZero(alphabet: string, digits: seq<int>)
    requires |alphabet| == 58 && Below(58, digits)
    ensures Letters(alphabet, digits + [0]) == Letters(alphabet, digits) + [alphabet[0]]
  {
  }

  lemma FirstLettersAreZeros(alphabet: string, digits: seq<int>, text: string)
    requires IsAlphabet(alphabet) && Below(58, digits) && Letters(alphabet, digits) == text
    ensures AllZero(digits) <==> AllFirst(alphabet, text)
  {
    forall i | 0 <= i < |digits| ensures digits[i] == 0 <==> text[i] == alphabet[0] {
      assert text[i] == alphabet[digits[i]];
    }
  }
}
