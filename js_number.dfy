/**
 * The JavaScript conversions the WebGPU driver relies on: Number(text) on
 * the trait inputs, String.prototype.split('-')[0], and the ToUint32
 * conversion of every store into a Uint32Array.
 */
module JsNumber {

  const Two32: int := 0x1_0000_0000

  /** ToUint32 of an integer: the value a Uint32Array element holds after `a[i] = x`. */
  function ToUint32(x: int): (r: int)
    ensures 0 <= r < Two32
    ensures (x - r) % Two32 == 0
    ensures 0 <= x < Two32 ==> r == x
  {
    x % Two32
  }

  /** The result of Number(text). */
  datatype Num = Finite(value: int) | NaN

  /** JavaScript white space and line terminators, which Number() ignores at either end. */
  predicate IsWhitespace(c: char)
  {
    || c == ' ' || c == '\t' || c == '\n' || c == '\r'
    || c == '\U{000B}' || c == '\U{000C}' || c == '\U{00A0}' || c == '\U{FEFF}'
    || c == '\U{1680}' || ('\U{2000}' <= c <= '\U{200A}')
    || c == '\U{2028}' || c == '\U{2029}' || c == '\U{202F}' || c == '\U{205F}' || c == '\U{3000}'
  }

  predicate IsDigit(c: char)
  {
    '0' <= c <= '9'
  }

  predicate AllDigits(s: string)
  {
    forall i :: 0 <= i < |s| ==> IsDigit(s[i])
  }

  predicate NoDigits(s: string)
  {
    forall i :: 0 <= i < |s| ==> !IsDigit(s[i])
  }

  function DigitValue(c: char): (d: nat)
    requires IsDigit(c)
    ensures d < 10
  {
    (c as int) - ('0' as int)
  }

  function DigitChar(d: nat): (c: char)
    requires d < 10
    ensures IsDigit(c) && DigitValue(c) == d
  {
    (('0' as int) + d) as char
  }

  /** The value of a run of decimal digits, most significant first. */
  function DigitsValue(s: string): nat
    requires AllDigits(s)
  {
    if s == [] then 0 else DigitsValue(s[..|s| - 1]) * 10 + DigitValue(s[|s| - 1])
  }

  /** Where a left-to-right reading of Number()'s text stands. */
  datatype Phase =
    | Lead                          // only white space so far
    | Signed(neg: bool)             // a sign, no digit yet
    | Digits(neg: bool, acc: nat)   // inside the digits; acc is their value so far
    | Trail(neg: bool, acc: nat)    // white space after the digits

  function SignedValue(neg: bool, acc: nat): int
  {
    if neg then -(acc as int) else acc
  }

  /**
   * The rest of the reading of s from index i in phase p: white space,
   * an optional sign, decimal digits, white space, and nothing else.
   */
  function Scan(s: string, i: nat, p: Phase): Num
    requires i <= |s|
    decreases |s| - i
  {
    if i == |s| then
      match p
      case Lead => Finite(0)
      case Signed(_) => NaN
      case Digits(neg, acc) => Finite(SignedValue(neg, acc))
      case Trail(neg, acc) => Finite(SignedValue(neg, acc))
    else
      var c := s[i];
      match p
      case Lead =>
        if IsWhitespace(c) then Scan(s, i + 1, Lead)
        else if c == '+' || c == '-' then Scan(s, i + 1, Signed(c == '-'))
        else if IsDigit(c) then Scan(s, i + 1, Digits(false, DigitValue(c)))
        else NaN
      case Signed(neg) =>
        if IsDigit(c) then Scan(s, i + 1, Digits(neg, DigitValue(c))) else NaN
      case Digits(neg, acc) =>
        if IsDigit(c) then Scan(s, i + 1, Digits(neg, acc * 10 + DigitValue(c)))
        else if IsWhitespace(c) then Scan(s, i + 1, Trail(neg, acc))
        else NaN
      case Trail(neg, acc) =>
        if IsWhitespace(c) then Scan(s, i + 1, Trail(neg, acc)) else NaN
  }

  /**
   * Number(text) for the forms the trait inputs take: surrounding white
   * space is ignored, an empty or blank text is 0, and an optionally signed
   * run of decimal digits is its value; anything else is NaN.
   */
  function NumberOf(text: string): Num
  {
    Scan(text, 0, Lead)
  }

  /** text.split(sep)[0]: the text before the first `sep`, or all of it. */
  function BeforeFirst(text: string, sep: char): string
  {
    if text == [] then []
    else if text[0] == sep then []
    else [text[0]] + BeforeFirst(text[1..], sep)
  }

  /** The head is a prefix of the text without `sep`, cut at the first `sep` if there is one. */
  lemma {:induction false} BeforeFirstIsHead(text: string, sep: char)
    ensures var r := BeforeFirst(text, sep);
      && |r| <= |text| && r == text[..|r|]
      && sep !in r
      && (|r| < |text| ==> text[|r|] == sep)
  {
    if text != [] && text[0] != sep {
      BeforeFirstIsHead(text[1..], sep);
    }
  }

  /**
   * A trait input of the WebGPU driver:
   * Number(text.split('-')[0] || text) || fallback. The head before the
   * first '-' is read, the whole text when that head is empty, and a result
   * of 0 or NaN gives the fallback.
   */
  function TraitValue(text: string, fallback: int): (v: int)
    ensures v == fallback || v != 0
  {
    var head := BeforeFirst(text, '-');
    var n := NumberOf(if head != [] then head else text);
    if n.Finite? && n.value != 0 then n.value else fallback
  }

  // ---------------------------------------------------------------------
  // Decimal text and its properties
  // ---------------------------------------------------------------------

  /** The decimal text of a natural number. */
  function DecimalString(n: nat): (s: string)
    ensures |s| > 0
  {
    if n < 10 then [DigitChar(n)] else DecimalString(n / 10) + [DigitChar(n % 10)]
  }

  lemma {:induction false} DecimalRoundTrip(n: nat)
    ensures AllDigits(DecimalString(n))
    ensures DigitsValue(DecimalString(n)) == n
  {
    var s := DecimalString(n);
    if n >= 10 {
      DecimalRoundTrip(n / 10);
      assert s[..|s| - 1] == DecimalString(n / 10);
    } else {
      assert s[..|s| - 1] == [];
    }
  }

  /** Reading on through a run of digits adds them to the value read so far. */
  lemma {:induction false} ScanDigitRun(s: string, j: nat, i: nat, neg: bool)
    requires j < i <= |s| && AllDigits(s[j..])
    ensures Scan(s, i, Digits(neg, DigitsValue(s[j..i]))) == Finite(SignedValue(neg, DigitsValue(s[j..])))
    decreases |s| - i
  {
    if i == |s| {
      assert s[j..i] == s[j..];
    } else {
      var run := s[j..i + 1];
      assert run[..|run| - 1] == s[j..i];
      assert IsDigit(s[i]) by { assert s[i] == s[j..][i - j]; }
      assert DigitsValue(run) == DigitsValue(s[j..i]) * 10 + DigitValue(s[i]);
      ScanDigitRun(s, j, i + 1, neg);
    }
  }

  /** Number() reads the decimal text of a number back as that number. */
  lemma NumberOfDecimal(n: nat)
    ensures NumberOf(DecimalString(n)) == Finite(n)
    ensures NumberOf("-" + DecimalString(n)) == Finite(-(n as int))
  {
    var s := DecimalString(n);
    DecimalRoundTrip(n);
    assert s[0..] == s;
    assert s[0..1] == [s[0]];
    assert IsDigit(s[0]);
    ScanDigitRun(s, 0, 1, false);
    var m := "-" + s;
    assert m[0] == '-' && m[1] == s[0];
    assert m[1..] == s;
    assert m[1..2] == [s[0]];
    assert DigitsValue(m[1..2]) == DigitValue(s[0]) by {
      assert m[1..2][..0] == [];
    }
    assert Scan(m, 0, Lead) == Scan(m, 1, Signed(true));
    ScanDigitRun(m, 1, 2, true);
  }

  lemma {:induction false} BeforeFirstSeparator(head: string, sep: char, rest: string)
    requires sep !in head
    ensures BeforeFirst(head + [sep] + rest, sep) == head
    ensures BeforeFirst(head, sep) == head
  {
    if head != [] {
      assert (head + [sep] + rest)[1..] == head[1..] + [sep] + rest;
      BeforeFirstSeparator(head[1..], sep, rest);
    }
  }

  lemma DigitsHaveNoMinus(n: nat)
    ensures '-' !in DecimalString(n)
  {
    DecimalRoundTrip(n);
  }

  /**
   * A number typed alone, or as the low end of a range "lo-hi", is read as
   * that number, and 0 gives the fallback. A leading '-' leaves an empty
   * head, so the whole text is read and a negative number results.
   */
  lemma TraitOfDecimal(n: nat, rest: string, fallback: int)
    ensures TraitValue(DecimalString(n), fallback) == if n > 0 then n else fallback
    ensures TraitValue(DecimalString(n) + "-" + rest, fallback) == if n > 0 then n else fallback
    ensures TraitValue("-" + DecimalString(n), fallback) == if n > 0 then -(n as int) else fallback
  {
    var s := DecimalString(n);
    DigitsHaveNoMinus(n);
    BeforeFirstSeparator(s, '-', rest);
    NumberOfDecimal(n);
    assert BeforeFirst("-" + s, '-') == [];
  }

  /** Without a digit the reading never leaves the white space and sign phases. */
  lemma {:induction false} ScanWithoutDigits(s: string, i: nat, p: Phase)
    requires i <= |s| && (p.Lead? || p.Signed?)
    requires forall k :: i <= k < |s| ==> !IsDigit(s[k])
    ensures Scan(s, i, p) == Finite(0) || Scan(s, i, p) == NaN
    decreases |s| - i
  {
    if i < |s| {
      var c := s[i];
      if p.Lead? && IsWhitespace(c) {
        ScanWithoutDigits(s, i + 1, Lead);
      } else if p.Lead? && (c == '+' || c == '-') {
        ScanWithoutDigits(s, i + 1, Signed(c == '-'));
      }
    }
  }

  /** A readable non-zero number needs at least one digit. */
  lemma NumberNeedsDigit(text: string)
    requires NoDigits(text)
    ensures NumberOf(text) == Finite(0) || NumberOf(text) == NaN
  {
    ScanWithoutDigits(text, 0, Lead);
  }

  /** Text without any digit leaves the trait at its fallback. */
  lemma NonNumericFallsBack(text: string, fallback: int)
    requires NoDigits(text)
    ensures TraitValue(text, fallback) == fallback
  {
    var head := BeforeFirst(text, '-');
    BeforeFirstIsHead(text, '-');
    assert forall i :: 0 <= i < |head| ==> head[i] == text[i];
    NumberNeedsDigit(text);
    NumberNeedsDigit(head);
  }

  /** The text is "n" or "n-" followed by anything: a number, or a range whose low end is n. */
  predicate IsDecimalLow(text: string, n: nat)
  {
    var d := DecimalString(n);
    |d| <= |text| && text[..|d|] == d && (|text| == |d| || text[|d|] == '-')
  }

  /**
   * What a trait input reads as: the low end n of "n" or "n-hi" when n is
   * positive, and the fallback for "0", "0-hi" and any text without digits.
   */
  lemma TraitOfText(text: string, fallback: int, n: nat)
    ensures IsDecimalLow(text, n) ==> TraitValue(text, fallback) == if n > 0 then n else fallback
    ensures NoDigits(text) ==> TraitValue(text, fallback) == fallback
  {
    var d := DecimalString(n);
    if IsDecimalLow(text, n) {
      var rest := if |text| == |d| then [] else text[|d| + 1..];
      TraitOfDecimal(n, rest, fallback);
      if |text| == |d| {
        assert text == d;
      } else {
        assert text == d + "-" + rest;
      }
    }
    if NoDigits(text) {
      NonNumericFallsBack(text, fallback);
    }
  }
}
