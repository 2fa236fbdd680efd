/**
 * Python's `decimal.Decimal(text)` constructor for a `str` argument: the
 * numeric-string grammar of the `decimal` module (surrounding whitespace is
 * ignored, letters are case-insensitive, the representation -- sign,
 * coefficient and exponent -- is kept exactly, nothing is rounded).
 *
 *   numeric-string ::= [sign] (decimal-part [exponent-part] | 'Inf' | 'Infinity'
 *                              | 'NaN' [digits] | 'sNaN' [digits])
 *   decimal-part   ::= digits '.' [digits] | ['.'] digits
 *   exponent-part  ::= ('e' | 'E') [sign] digits
 *
 * `None` stands for the `InvalidOperation` the constructor raises.
 */
module DecimalLiteral {
  import opened Wrappers
  import opened Text

  /** A `decimal.Decimal` value, as its sign, coefficient and exponent. */
  datatype Decimal =
    | Finite(negative: bool, coefficient: nat, exponent: int)
    | Infinite(negative: bool)
    | NotANumber(negative: bool, signaling: bool, payload: nat)

  /** The characters that may appear in a literal the grammar accepts. */
  predicate LiteralChar(c: char) {
    var l := LowerChar(c);
    IsDigit(c) || c == '+' || c == '-' || c == '.'
    || l == 'e' || l == 'i' || l == 'n' || l == 'f' || l == 't' || l == 'y' || l == 'a' || l == 's'
  }

  /** Position of the first exponent indicator in a lower-cased body, or its length. */
  function ExponentIndex(b: string): (i: nat)
    ensures i <= |b| && 'e' !in b[..i]
    ensures i < |b| ==> b[i] == 'e'
  {
    if 'e' in b then FirstIndex(b, 'e') else assert b[..|b|] == b; |b|
  }

  /** `[sign] digits`, the part after the exponent indicator. */
  function ParseExponent(x: string): Option<int> {
    var (neg, digits) := if |x| > 0 && (x[0] == '+' || x[0] == '-') then (x[0] == '-', x[1..]) else (false, x);
    if |digits| >= 1 && AllDigits(digits) then
      var v: int := DigitsValue(digits);
      Some(if neg then -v else v)
    else None
  }

  /** `digits '.' [digits] | ['.'] digits` as (coefficient, exponent shift). */
  function ParseMantissa(m: string): Option<(nat, int)> {
    if '.' in m then
      var dot := FirstIndex(m, '.');
      var whole, frac := m[..dot], m[dot + 1..];
      if AllDigits(whole) && AllDigits(frac) && |whole| + |frac| >= 1 then
        Some((DigitsValue(whole + frac), -|frac|))
      else None
    else if |m| >= 1 && AllDigits(m) then Some((DigitsValue(m), 0))
    else None
  }

  /** A finite number `decimal-part [exponent-part]`, lower-cased, without its sign. */
  function ParseFinite(negative: bool, b: string): Option<Decimal> {
    var e := ExponentIndex(b);
    var exp := if e == |b| then Some(0) else ParseExponent(b[e + 1..]);
    match (ParseMantissa(b[..e]), exp)
    case (Some((coefficient, shift)), Some(x)) => Some(Finite(negative, coefficient, x + shift))
    case _ => None
  }

  /** A lower-cased unsigned body: an infinity, a NaN with optional payload, or a finite number. */
  function ParseBody(negative: bool, b: string): Option<Decimal> {
    if b == "inf" || b == "infinity" then Some(Infinite(negative))
    else if |b| >= 3 && b[..3] == "nan" && AllDigits(b[3..]) then Some(NotANumber(negative, false, DigitsValue(b[3..])))
    else if |b| >= 4 && b[..4] == "snan" && AllDigits(b[4..]) then Some(NotANumber(negative, true, DigitsValue(b[4..])))
    else ParseFinite(negative, b)
  }

  /** A stripped literal: an optional sign, then the body, case-insensitively. */
  function ParseSigned(s: string): Option<Decimal> {
    if |s| > 0 && (s[0] == '+' || s[0] == '-') then ParseBody(s[0] == '-', Lower(s[1..]))
    else ParseBody(false, Lower(s))
  }

  /** `Decimal(text)`; `None` where the constructor raises `InvalidOperation`. */
  function Parse(text: string): Option<Decimal> {
    ParseSigned(Strip(text))
  }

  /** A non-empty run of digits is the finite number it spells, with exponent 0. */
  lemma DigitsBody(negative: bool, b: string)
    requires |b| >= 1 && AllDigits(b)
    ensures ParseBody(negative, b) == Some(Finite(negative, DigitsValue(b), 0))
  {
    assert IsDigit(b[0]);
    assert b != "inf" && b != "infinity";
    assert !(|b| >= 3 && b[..3] == "nan") by {
      if |b| >= 3 { assert b[..3][0] == b[0]; }
    }
    assert !(|b| >= 4 && b[..4] == "snan") by {
      if |b| >= 4 { assert b[..4][0] == b[0]; }
    }
    DigitsFinite(negative, b);
  }

  lemma DigitsFinite(negative: bool, b: string)
    requires |b| >= 1 && AllDigits(b)
    ensures ParseFinite(negative, b) == Some(Finite(negative, DigitsValue(b), 0))
  {
    assert 'e' !in b && '.' !in b by {
      assert forall k :: 0 <= k < |b| ==> IsDigit(b[k]);
    }
    assert ExponentIndex(b) == |b|;
    assert b[..|b|] == b;
    assert ParseMantissa(b) == Some((DigitsValue(b), 0));
  }

  lemma LowerDigits(s: string)
    requires AllDigits(s)
    ensures Lower(s) == s
  {
  }

  lemma StripIntText(i: int)
    ensures Strip(IntToString(i)) == IntToString(i)
  {
    var t := IntToString(i);
    assert t[0] == '-' || IsDigit(t[0]);
    assert IsDigit(t[|t| - 1]);
    TrimFixesTrimmed(t, Whitespace);
  }

  /** A run of digits with no sign is the non-negative integer it spells. */
  lemma UnsignedDigits(digits: string)
    requires |digits| >= 1 && AllDigits(digits)
    ensures ParseSigned(digits) == Some(Finite(false, DigitsValue(digits), 0))
  {
    assert IsDigit(digits[0]);
    assert ParseSigned(digits) == ParseBody(false, Lower(digits));
    LowerDigits(digits);
    DigitsBody(false, digits);
  }

  /** A minus sign followed by digits is the negative integer they spell. */
  lemma NegatedDigits(digits: string)
    requires |digits| >= 1 && AllDigits(digits)
    ensures ParseSigned("-" + digits) == Some(Finite(true, DigitsValue(digits), 0))
  {
    var s := "-" + digits;
    assert s[0] == '-' && s[1..] == digits;
    assert ParseSigned(s) == ParseBody(true, Lower(digits));
    LowerDigits(digits);
    DigitsBody(true, digits);
  }

  /** `Decimal(str(i))` is the integer `i` itself, with exponent 0. */
  lemma ParseIntText(i: int)
    ensures Parse(IntToString(i)) == Some(Finite(i < 0, if i < 0 then -i else i, 0))
  {
    var n: nat := if i < 0 then -i else i;
    var digits := NatToString(n);
    StripIntText(i);
    NatToStringValue(n);
    if i < 0 {
      assert IntToString(i) == "-" + digits;
      NegatedDigits(digits);
    } else {
      assert IntToString(i) == digits;
      UnsignedDigits(digits);
    }
  }

  /** Every character of an accepted literal, apart from surrounding whitespace, is a literal character. */
  lemma ParsedCharsAreLiteral(text: string, k: nat)
    requires k < |Strip(text)|
    ensures Parse(text).Some? ==> LiteralChar(Strip(text)[k])
  {
    if Parse(text).Some? {
      SignedCharsAreLiteral(Strip(text), k);
    }
  }

  /** A text holding, inside its surrounding whitespace, a character no literal uses does not parse. */
  lemma NonLiteralCharRejected(text: string, c: char)
    requires c in text && !IsSpace(c) && !LiteralChar(c)
    ensures Parse(text).None?
  {
    var k :| 0 <= k < |text| && text[k] == c;
    TrimKeepsInside(text, Whitespace, k);
    var s := Strip(text);
    var j :| 0 <= j < |s| && s[j] == c;
    ParsedCharsAreLiteral(text, j);
  }

  lemma SignedCharsAreLiteral(s: string, k: nat)
    requires ParseSigned(s).Some?
    requires k < |s|
    ensures LiteralChar(s[k])
  {
    var signed := |s| > 0 && (s[0] == '+' || s[0] == '-');
    if !signed || k > 0 {
      var body := if signed then s[1..] else s;
      var j := if signed then k - 1 else k;
      assert body[j] == s[k];
      var b := Lower(body);
      assert ParseBody(if signed then s[0] == '-' else false, b).Some?;
      BodyCharsAreLiteral(if signed then s[0] == '-' else false, b, j);
      assert b[j] == LowerChar(s[k]);
      LowerCharLiteral(s[k]);
    }
  }

  lemma LowerCharLiteral(c: char)
    requires IsDigit(LowerChar(c)) || LowerChar(c) in "+-.einftyas"
    ensures LiteralChar(c)
  {
  }

  lemma BodyCharsAreLiteral(negative: bool, b: string, j: nat)
    requires ParseBody(negative, b).Some?
    requires j < |b|
    ensures IsDigit(b[j]) || b[j] in "+-.einftyas"
  {
    if b == "inf" || b == "infinity" {
      assert b[j] in "infty";
    } else if |b| >= 3 && b[..3] == "nan" && AllDigits(b[3..]) {
      if j >= 3 { assert IsDigit(b[3..][j - 3]); } else { assert b[..3][j] in "na"; }
    } else if |b| >= 4 && b[..4] == "snan" && AllDigits(b[4..]) {
      if j >= 4 { assert IsDigit(b[4..][j - 4]); } else { assert b[..4][j] in "sna"; }
    } else {
      FiniteCharsAreLiteral(negative, b, j);
    }
  }

  lemma FiniteCharsAreLiteral(negative: bool, b: string, j: nat)
    requires ParseFinite(negative, b).Some?
    requires j < |b|
    ensures IsDigit(b[j]) || b[j] in "+-.e"
  {
    var e := ExponentIndex(b);
    if j < e {
      var m := b[..e];
      assert m[j] == b[j];
      if '.' in m {
        var dot := FirstIndex(m, '.');
        if j < dot { assert m[..dot][j] == b[j]; }
        else if j > dot { assert m[dot + 1..][j - dot - 1] == b[j]; }
      }
    } else if j > e {
      var x := b[e + 1..];
      assert x[j - e - 1] == b[j];
      if j - e - 1 > 0 || !(x[0] == '+' || x[0] == '-') {
        var neg := |x| > 0 && (x[0] == '+' || x[0] == '-');
        var digits := if neg then x[1..] else x;
        var d := if neg then j - e - 2 else j - e - 1;
        assert digits[d] == b[j];
      }
    }
  }
}
