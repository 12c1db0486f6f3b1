/**
  Python's `float(text)` on a string, as far as the parsers need it, written as
  the left-to-right scan of the text that the accepted grammar describes:
  optional surrounding whitespace, an optional sign, `inf`, `infinity` or
  `nan` in any letter case, or a decimal literal made of digits with single
  underscores between them, an optional point and an optional exponent.
  `None` is the `ValueError` that `float` raises.

  A finite result is the exact rational the text denotes; rounding it to the
  nearest IEEE double is not modelled.
 */
module Number {
  import opened Wrappers
  import Text

  datatype Number = Finite(value: real) | Infinite(negative: bool) | NaN

  predicate IsDigit(c: char) {
    '0' <= c <= '9'
  }

  predicate IsLetter(c: char) {
    ('a' <= c <= 'z') || ('A' <= c <= 'Z')
  }

  predicate IsSign(c: char) {
    c == '+' || c == '-'
  }

  predicate IsMark(c: char) {
    c == 'e' || c == 'E'
  }

  predicate AllDigits(s: string) {
    forall i :: 0 <= i < |s| ==> IsDigit(s[i])
  }

  /** A character that no text `float` accepts can contain: not a digit, letter, sign, point, underscore or whitespace. */
  predicate Foreign(c: char) {
    !IsDigit(c) && !IsLetter(c) && c != '_' && c != '.' && !IsSign(c) && !Text.IsSpace(c)
  }

  function DigitValue(c: char): nat {
    if IsDigit(c) then c as int - '0' as int else 0
  }

  /** The value of a string of decimal digits, most significant digit first. */
  function DecimalValue(ds: string): nat {
    if ds == [] then 0 else 10 * DecimalValue(ds[..|ds| - 1]) + DigitValue(ds[|ds| - 1])
  }

  function Pow10(n: nat): (p: nat)
    ensures p >= 1
  {
    if n == 0 then 1 else 10 * Pow10(n - 1)
  }

  /** The value of `whole.fraction` for digit strings `whole` and `fraction`. */
  function FixedValue(whole: string, fraction: string): real {
    DecimalValue(whole) as real + DecimalValue(fraction) as real / Pow10(|fraction|) as real
  }

  /** `v` times ten to the power `e`. */
  function Scale(v: real, e: int): real {
    if e >= 0 then v * Pow10(e) as real else v / Pow10(-e) as real
  }

  function Negate(negative: bool, v: real): real {
    if negative then -v else v
  }

  function Lower(c: char): char {
    if 'A' <= c <= 'Z' then (c as int + 32) as char else c
  }

  /**
    How much of a literal the scan has read. Digit strings hold the digits
    read so far with the underscores left out; `under` says the last
    character was an underscore, which must be followed by a digit.
   */
  datatype Phase =
    | Lead                                             // only whitespace so far
    | Signed(negative: bool)                           // a sign
    | Letters(negative: bool, word: string)            // letters, lower-cased: `inf`, `infinity`, `nan`
    | Whole(negative: bool, whole: string, under: bool)  // the digits before the point
    | Point(negative: bool, whole: string)             // the point, possibly with no digits before it
    | Fraction(negative: bool, whole: string, fraction: string, under: bool)
    | Mark(negative: bool, whole: string, fraction: string)  // the exponent marker `e` or `E`
    | ExpSigned(negative: bool, whole: string, fraction: string, down: bool)  // the exponent's sign
    | Exponent(negative: bool, whole: string, fraction: string, down: bool, digits: string, under: bool)
    | Done(result: Number)                             // a complete literal and trailing whitespace

  /** The number a scan that stops in phase `p` denotes; `None` when the text so far is not a complete literal. */
  function Complete(p: Phase): Option<Number> {
    match p
    case Letters(negative, word) =>
      if word == "inf" || word == "infinity" then Some(Infinite(negative))
      else if word == "nan" then Some(NaN)
      else None
    case Whole(negative, whole, under) =>
      if under then None else Some(Finite(Negate(negative, FixedValue(whole, []))))
    case Point(negative, whole) =>
      if whole == [] then None else Some(Finite(Negate(negative, FixedValue(whole, []))))
    case Fraction(negative, whole, fraction, under) =>
      if under then None else Some(Finite(Negate(negative, FixedValue(whole, fraction))))
    case Exponent(negative, whole, fraction, down, digits, under) =>
      if under then None
      else
        var e: int := DecimalValue(digits);
        Some(Finite(Negate(negative, Scale(FixedValue(whole, fraction), if down then -e else e))))
    case Done(result) => Some(result)
    case _ => None
  }

  /** The first character of a literal, after the optional sign. */
  function Start(negative: bool, c: char): Option<Phase> {
    if IsDigit(c) then Some(Whole(negative, [c], false))
    else if c == '.' then Some(Point(negative, []))
    else if IsLetter(c) then Some(Letters(negative, [Lower(c)]))
    else None
  }

  /** Whitespace after a literal: accepted only when the literal is complete. */
  function Finish(p: Phase, c: char): Option<Phase> {
    if !Text.IsSpace(c) then None
    else match Complete(p)
      case Some(r) => Some(Done(r))
      case None => None
  }

  /** Reads one character; `None` when no literal starts with the text read so far. */
  function Step(p: Phase, c: char): Option<Phase> {
    match p
    case Lead =>
      if Text.IsSpace(c) then Some(Lead)
      else if IsSign(c) then Some(Signed(c == '-'))
      else Start(false, c)
    case Signed(negative) => Start(negative, c)
    case Letters(negative, word) =>
      if IsLetter(c) then Some(Letters(negative, word + [Lower(c)])) else Finish(p, c)
    case Whole(negative, whole, under) =>
      if IsDigit(c) then Some(Whole(negative, whole + [c], false))
      else if under then None
      else if c == '_' then Some(Whole(negative, whole, true))
      else if c == '.' then Some(Point(negative, whole))
      else if IsMark(c) then Some(Mark(negative, whole, []))
      else Finish(p, c)
    case Point(negative, whole) =>
      if IsDigit(c) then Some(Fraction(negative, whole, [c], false))
      else if whole == [] then None
      else if IsMark(c) then Some(Mark(negative, whole, []))
      else Finish(p, c)
    case Fraction(negative, whole, fraction, under) =>
      if IsDigit(c) then Some(Fraction(negative, whole, fraction + [c], false))
      else if under then None
      else if c == '_' then Some(Fraction(negative, whole, fraction, true))
      else if IsMark(c) then Some(Mark(negative, whole, fraction))
      else Finish(p, c)
    case Mark(negative, whole, fraction) =>
      if IsSign(c) then Some(ExpSigned(negative, whole, fraction, c == '-'))
      else if IsDigit(c) then Some(Exponent(negative, whole, fraction, false, [c], false))
      else None
    case ExpSigned(negative, whole, fraction, down) =>
      if IsDigit(c) then Some(Exponent(negative, whole, fraction, down, [c], false)) else None
    case Exponent(negative, whole, fraction, down, digits, under) =>
      if IsDigit(c) then Some(Exponent(negative, whole, fraction, down, digits + [c], false))
      else if under then None
      else if c == '_' then Some(Exponent(negative, whole, fraction, down, digits, true))
      else Finish(p, c)
    case Done(result) =>
      if Text.IsSpace(c) then Some(p) else None
  }

  /** Scans the rest `s` of the text from phase `p`. */
  function Scan(s: string, p: Phase): Option<Number>
    decreases |s|
  {
    if s == [] then Complete(p)
    else match Step(p, s[0])
      case None => None
      case Some(q) => Scan(s[1..], q)
  }

  /** `float(s)`; `None` when Python raises `ValueError`. */
  function ParseFloat(s: string): Option<Number> {
    Scan(s, Lead)
  }

  // ---------------------------------------------------------------------------
  // Properties

  /** No phase reads a foreign character. */
  lemma StepForeign(p: Phase, c: char)
    requires Foreign(c)
    ensures Step(p, c) == None
  {
  }

  /** A foreign character anywhere in the rest of the text ends the scan in failure. */
  lemma {:induction false} ScanForeign(s: string, p: Phase, i: nat)
    requires i < |s| && Foreign(s[i])
    ensures Scan(s, p) == None
    decreases i
  {
    if i == 0 {
      StepForeign(p, s[0]);
    } else if Step(p, s[0]).Some? {
      ScanForeign(s[1..], Step(p, s[0]).value, i - 1);
    }
  }

  /** A text with a character that no number can contain is rejected: `float` raises `ValueError`. */
  lemma ForeignRejected(s: string, i: nat)
    requires i < |s| && Foreign(s[i])
    ensures ParseFloat(s) == None
  {
    ScanForeign(s, Lead, i);
  }

  /** A decimal comma is foreign to `float`: `12,5` raises `ValueError`. */
  lemma CommaRejected(whole: string, fraction: string)
    ensures ParseFloat(whole + "," + fraction) == None
  {
    ForeignRejected(whole + "," + fraction, |whole|);
  }

  /** Digits continue the whole part. */
  lemma {:induction false} ScanWhole(ds: string, rest: string, negative: bool, whole: string)
    requires AllDigits(ds)
    ensures Scan(ds + rest, Whole(negative, whole, false)) == Scan(rest, Whole(negative, whole + ds, false))
    decreases |ds|
  {
    if ds == [] {
      assert ds + rest == rest && whole + ds == whole;
    } else {
      assert Step(Whole(negative, whole, false), ds[0]) == Some(Whole(negative, whole + [ds[0]], false));
      assert (ds + rest)[1..] == ds[1..] + rest;
      assert whole + [ds[0]] + ds[1..] == whole + ds;
      ScanWhole(ds[1..], rest, negative, whole + [ds[0]]);
    }
  }

  /** Digits continue the fraction. */
  lemma {:induction false} ScanFraction(ds: string, negative: bool, whole: string, fraction: string)
    requires AllDigits(ds)
    ensures Scan(ds, Fraction(negative, whole, fraction, false)) == Scan([], Fraction(negative, whole, fraction + ds, false))
    decreases |ds|
  {
    if ds == [] {
      assert fraction + ds == fraction;
    } else {
      assert Step(Fraction(negative, whole, fraction, false), ds[0]) == Some(Fraction(negative, whole, fraction + [ds[0]], false));
      assert fraction + [ds[0]] + ds[1..] == fraction + ds;
      ScanFraction(ds[1..], negative, whole, fraction + [ds[0]]);
    }
  }

  /** A fixed-point text `whole.fraction` parses to `whole + fraction / 10^|fraction|`. */
  lemma FixedPoint(whole: string, fraction: string)
    requires whole != [] && AllDigits(whole) && AllDigits(fraction)
    ensures ParseFloat(whole + "." + fraction) == Some(Finite(FixedValue(whole, fraction)))
  {
    var s := whole + "." + fraction;
    assert s == [whole[0]] + (whole[1..] + ("." + fraction));
    assert Step(Lead, whole[0]) == Some(Whole(false, [whole[0]], false));
    ScanWhole(whole[1..], "." + fraction, false, [whole[0]]);
    assert [whole[0]] + whole[1..] == whole;
    assert Scan("." + fraction, Whole(false, whole, false)) == Scan(fraction, Point(false, whole));
    if fraction == [] {
      assert FixedValue(whole, []) == FixedValue(whole, fraction);
    } else {
      assert Scan(fraction, Point(false, whole)) == Scan(fraction[1..], Fraction(false, whole, [fraction[0]], false));
      ScanFraction(fraction[1..], false, whole, [fraction[0]]);
      assert [fraction[0]] + fraction[1..] == fraction;
    }
  }
}
