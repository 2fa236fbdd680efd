/**
 * The three cell converters of the import (`DataTransforms`). A cell is what
 * pandas hands over for one column of one row; a converter either yields the
 * value to store or, in the one case the source does not guard, raises.
 */
module DataTransforms {
  import opened Wrappers
  import opened Text
  import opened DecimalLiteral
  import opened DateUtils

  /** The converter names a catalogue entry may use (`"parse_datetime"`, `"parse_decimal"`,
      `"parse_decimal_from_string"`). */
  datatype TransformName = DatetimeTransform | DecimalTransform | DecimalFromStringTransform

  /** A cell value as pandas delivers it. */
  datatype Cell =
    | Missing                  // NaN, NaT or None: `pd.isna` holds
    | Int(i: int)
    | Float(repr: string)      // a float that is not NaN, by its `str()` text
    | Bool(b: bool)            // Python counts a bool as an int
    | Str(s: string)
    | Stamp(t: DateTime)       // a `datetime` (pandas `Timestamp` included)
    | Other(text: string)      // any other object, by its `str()` text

  /** What goes into a record field: a cell passed through untouched, or a converter's result. */
  datatype Value =
    | Null                     // Python `None`
    | Raw(cell: Cell)
    | DateTimeValue(t: DateTime)
    | DecimalValue(d: Decimal)

  /** `pd.to_datetime` on a cell that is neither missing nor a datetime; `None` where it raises. */
  type DatetimeParser = Cell -> Option<DateTime>

  /** `str()` of the `InvalidOperation` that `Decimal` raises on a malformed literal. */
  const ConversionSyntax := "[<class 'decimal.ConversionSyntax'>]"

  /** A datetime cell holds a real calendar instant. */
  predicate WellFormedCell(c: Cell) {
    c.Stamp? ==> ValidDateTime(c.t)
  }

  /** `str(value)` for a present cell. */
  function PyStr(c: Cell): string
    requires !c.Missing? && WellFormedCell(c)
  {
    match c
    case Int(i) => IntToString(i)
    case Float(repr) => repr
    case Bool(b) => if b then "True" else "False"
    case Str(s) => s
    case Stamp(t) => DateTimeText(t)
    case Other(text) => text
  }

  /** `parse_datetime`: `None` for a missing cell, a datetime unchanged, otherwise
      whatever `pd.to_datetime` makes of it, with `None` where that raises. */
  function ParseDatetime(toDatetime: DatetimeParser, c: Cell): (v: Value)
    ensures v.Null? || v.DateTimeValue?
    ensures c.Missing? ==> v == Null
    ensures c.Stamp? ==> v == DateTimeValue(c.t)
    ensures !c.Missing? && !c.Stamp? ==>
      (v.Null? <==> toDatetime(c).None?) && (v.DateTimeValue? ==> toDatetime(c) == Some(v.t))
  {
    if c.Missing? then Null
    else if c.Stamp? then DateTimeValue(c.t)
    else match toDatetime(c)
      case None => Null
      case Some(t) => DateTimeValue(t)
  }

  /** `parse_decimal`: `None` for a missing cell, else `Decimal(str(value))`, with `None` where that raises. */
  function ParseDecimal(c: Cell): (v: Value)
    requires WellFormedCell(c)
    ensures v.Null? || v.DecimalValue?
    ensures c.Missing? ==> v == Null
    ensures !c.Missing? ==> (v.Null? <==> Parse(PyStr(c)).None?)
  {
    if c.Missing? then Null
    else match Parse(PyStr(c))
      case None => Null
      case Some(d) => DecimalValue(d)
  }

  /** The text `parse_decimal_from_string` hands to `Decimal` for a string cell. */
  function CleanFormula(s: string): (t: string)
    ensures '=' !in t
  {
    Strip(Remove(s, '='))
  }

  /** `parse_decimal_from_string`. Numbers (bools included) go through `Decimal(str(value))`
      outside any `try`, so a literal that does not parse raises; a string loses every `=`
      and its surrounding whitespace, and yields `None` if it still does not parse;
      anything else yields `None`. */
  function ParseDecimalFromString(c: Cell): (r: Result<Value, string>)
    requires WellFormedCell(c)
    ensures r.Success? ==> r.value.Null? || r.value.DecimalValue?
    ensures r.Failure? <==> (c.Int? || c.Float? || c.Bool?) && Parse(PyStr(c)).None?
    ensures r.Failure? ==> r.error == ConversionSyntax
    ensures c.Int? || c.Float? || c.Bool? ==> r.Success? ==> r.value == ParseDecimal(c)
    ensures c.Str? ==> r == Success(ParseDecimal(Str(CleanFormula(c.s))))
    ensures c.Missing? || c.Stamp? || c.Other? ==> r == Success(Null)
  {
    if c.Int? || c.Float? || c.Bool? then
      var p := Parse(PyStr(c));
      if p.None? then Failure(ConversionSyntax) else Success(DecimalValue(p.value))
    else if c.Str? then
      var t := CleanFormula(c.s);
      assert PyStr(Str(t)) == t;
      var p := Parse(t);
      if p.None? then Success(Null) else Success(DecimalValue(p.value))
    else Success(Null)
  }

  /** Applies the converter a catalogue entry names. */
  function ApplyTransform(toDatetime: DatetimeParser, name: TransformName, c: Cell): (r: Result<Value, string>)
    requires WellFormedCell(c)
    ensures r.Failure? ==> name == DecimalFromStringTransform
    ensures name == DatetimeTransform ==> r == Success(ParseDatetime(toDatetime, c))
    ensures name == DecimalTransform ==> r == Success(ParseDecimal(c))
    ensures name == DecimalFromStringTransform ==> r == ParseDecimalFromString(c)
  {
    match name
    case DatetimeTransform => Success(ParseDatetime(toDatetime, c))
    case DecimalTransform => Success(ParseDecimal(c))
    case DecimalFromStringTransform => ParseDecimalFromString(c)
  }

  // ---------------------------------------------------------------------------
  // Properties

  lemma StripIdempotent(s: string)
    ensures Strip(Strip(s)) == Strip(s)
  {
    TrimFixesTrimmed(Strip(s), Whitespace);
  }

  /** A datetime is its own `parse_datetime`, so converting a converted value changes nothing. */
  lemma ParseDatetimeIdempotent(toDatetime: DatetimeParser, c: Cell)
    ensures ParseDatetime(toDatetime, c).DateTimeValue? ==>
      ParseDatetime(toDatetime, Stamp(ParseDatetime(toDatetime, c).t)) == ParseDatetime(toDatetime, c)
  {
  }

  /** An integer cell becomes the integer itself, as a decimal with exponent 0, under both decimal converters. */
  lemma IntegerCellsConvertExactly(i: int)
    ensures ParseDecimal(Int(i)) == DecimalValue(Finite(i < 0, if i < 0 then -i else i, 0))
    ensures ParseDecimalFromString(Int(i)) == Success(ParseDecimal(Int(i)))
  {
    ParseIntText(i);
  }

  /** A bool is not a decimal literal: `parse_decimal` gives `None`, `parse_decimal_from_string` raises. */
  lemma BoolCells(b: bool)
    ensures ParseDecimal(Bool(b)) == Null
    ensures ParseDecimalFromString(Bool(b)) == Failure(ConversionSyntax)
  {
    NonLiteralCharRejected(PyStr(Bool(b)), if b then 'r' else 'l');
  }

  /** A datetime cell's text has a `:`, so `parse_decimal` gives `None`. */
  lemma DatetimeCellsAreNotDecimals(t: DateTime)
    requires ValidDateTime(t)
    ensures ParseDecimal(Stamp(t)) == Null
  {
    var s := PyStr(Stamp(t));
    assert s == DateTimeText(t);
    assert s[13] == ':';
    NonLiteralCharRejected(s, ':');
  }

  /** No percent or thousands-separator handling: a `%` or `,` in the text makes `parse_decimal` give `None`. */
  lemma PercentAndCommaRejected(s: string)
    requires '%' in s || ',' in s
    ensures ParseDecimal(Str(s)) == Null
  {
    var c := if '%' in s then '%' else ',';
    assert !IsSpace(c) && !LiteralChar(c);
    NonLiteralCharRejected(s, c);
    StrCellNotDecimal(s);
  }

  /** A string cell whose text is not a decimal literal gives `None`. */
  lemma StrCellNotDecimal(s: string)
    requires Parse(s).None?
    ensures ParseDecimal(Str(s)) == Null
  {
    StrText(s);
  }

  /** The text of a string cell is the string itself. */
  lemma StrText(s: string)
    ensures PyStr(Str(s)) == s
  {
  }

  /** `Decimal` of the cleaned text is `Decimal` of the text with its `=` removed. */
  lemma CleanFormulaParse(s: string)
    ensures Parse(CleanFormula(s)) == Parse(Remove(s, '='))
  {
    StripIdempotent(Remove(s, '='));
  }

  /** A formula holding an operator such as `/`, `*` or `(` still does not parse once
      its `=` is gone, so it yields `None` rather than raising. */
  lemma FormulaWithOperatorYieldsNone(s: string, op: char)
    requires op in s && op != '=' && !IsSpace(op) && !LiteralChar(op)
    ensures ParseDecimalFromString(Str(s)) == Success(Null)
  {
    assert op in Remove(s, '=');
    NonLiteralCharRejected(Remove(s, '='), op);
    CleanFormulaParse(s);
  }

  /** Removing the `=` in front of a run of digits leaves the digits. */
  lemma FormulaDigits(digits: string)
    requires AllDigits(digits)
    ensures Remove(['='] + digits, '=') == digits
  {
    var s := ['='] + digits;
    assert '=' !in digits by {
      assert forall k :: 0 <= k < |digits| ==> IsDigit(digits[k]);
    }
    assert s[1..] == digits;
  }

  /** A string cell whose cleaned text is a decimal literal yields that decimal. */
  lemma StrCellParsed(s: string, d: Decimal)
    requires Parse(CleanFormula(s)) == Some(d)
    ensures ParseDecimalFromString(Str(s)) == Success(DecimalValue(d))
  {
  }

  /** A formula around a number (`=12`) yields that number. */
  lemma FormulaMarkerRemoved(n: nat)
    ensures ParseDecimalFromString(Str(['='] + NatToString(n))) == Success(DecimalValue(Finite(false, n, 0)))
  {
    var digits := NatToString(n);
    var s := ['='] + digits;
    FormulaDigits(digits);
    CleanFormulaParse(s);
    ParseNatText(n);
    StrCellParsed(s, Finite(false, n, 0));
  }

  /** `Decimal(str(n))` for a natural number. */
  lemma ParseNatText(n: nat)
    ensures Parse(NatToString(n)) == Some(Finite(false, n, 0))
  {
    ParseIntText(n);
    assert IntToString(n) == NatToString(n);
  }
}
