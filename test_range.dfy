/**
 * `TestRange`: the colour-zone thresholds of the indicators. Two attribute
 * validators normalise or refuse what is assigned, and the table admits one
 * row per (indicator, low bound, high bound).
 */
module TestRangeModel {
  import opened Wrappers
  import opened Text

  const AllowedAreas: seq<string> := ["RED", "ORANGE", "GREEN"]

  /** `f"Area must be one of {allowed_values}"`, the list as Python prints it. */
  const AreaError := "Area must be one of ['RED', 'ORANGE', 'GREEN']"

  /** `validate_area`: an empty or missing value is kept as it is; any other value is
      accepted in upper case when that is a colour zone, and refused otherwise. */
  function ValidateArea(value: Option<string>): (r: Result<Option<string>, string>)
    ensures r.Failure? <==> value.Some? && value.value != [] && Upper(value.value) !in AllowedAreas
    ensures r.Failure? ==> r.error == AreaError
    ensures value.None? || value.value == [] ==> r == Success(value)
    ensures r.Success? && value.Some? && value.value != [] ==> r.value == Some(Upper(value.value))
    ensures r.Success? && r.value.Some? && r.value.value != [] ==> r.value.value in AllowedAreas
  {
    match value
    case None => Success(None)
    case Some(v) =>
      if v == [] then Success(value)
      else if Upper(v) !in AllowedAreas then Failure(AreaError)
      else Success(Some(Upper(v)))
  }

  lemma UpperIdempotent(s: string)
    ensures Upper(Upper(s)) == Upper(s)
  {
  }

  /** Validating an accepted value again accepts it unchanged. */
  lemma ValidateAreaIdempotent(value: Option<string>)
    requires ValidateArea(value).Success?
    ensures ValidateArea(ValidateArea(value).value) == ValidateArea(value)
  {
    if value.Some? && value.value != [] {
      UpperIdempotent(value.value);
    }
  }

  /** A zone is accepted in any letter case: an accepted value differs from its zone
      only in the case of its letters. */
  lemma AreaCaseInsensitive(v: string, zone: string)
    requires zone in AllowedAreas && Upper(v) == zone
    ensures ValidateArea(Some(v)) == Success(Some(zone))
  {
  }

  /** `validate_range`: `f"{key} cannot be None"` for a missing bound, the bound itself otherwise. */
  function ValidateRange<T>(key: string, value: Option<T>): (r: Result<T, string>)
    ensures r.Failure? <==> value.None?
    ensures r.Failure? ==> r.error == key + " cannot be None"
    ensures r.Success? ==> value == Some(r.value)
  {
    match value
    case None => Failure(key + " cannot be None")
    case Some(v) => Success(v)
  }

  // ---------------------------------------------------------------------------
  // The `uq_indicator_range` constraint

  /** A stored range row (the bounds are `DECIMAL(15, 6)`, compared by value). */
  datatype RangeRow = RangeRow(indicator: string, rangeLow: real, rangeHigh: real, area: string)

  /** The columns `uq_indicator_range` covers. */
  function RangeKey(r: RangeRow): (string, real, real) {
    (r.indicator, r.rangeLow, r.rangeHigh)
  }

  predicate UniqueRanges(rows: seq<RangeRow>) {
    forall i, j :: 0 <= i < j < |rows| ==> RangeKey(rows[i]) != RangeKey(rows[j])
  }

  /** An `INSERT` into `test_range`: refused (`None`) when a row with the same key is stored. */
  function InsertRange(rows: seq<RangeRow>, r: RangeRow): (res: Option<seq<RangeRow>>)
    ensures res.None? <==> exists i :: 0 <= i < |rows| && RangeKey(rows[i]) == RangeKey(r)
    ensures res.Some? ==> res.value == rows + [r]
  {
    if exists i :: 0 <= i < |rows| && RangeKey(rows[i]) == RangeKey(r) then None
    else Some(rows + [r])
  }

  /** Inserts keep the key unique: no two stored rows share indicator and bounds. */
  lemma InsertKeepsUnique(rows: seq<RangeRow>, r: RangeRow)
    requires UniqueRanges(rows) && InsertRange(rows, r).Some?
    ensures UniqueRanges(InsertRange(rows, r).value)
  {
    var t := InsertRange(rows, r).value;
    forall i, j | 0 <= i < j < |t| ensures RangeKey(t[i]) != RangeKey(t[j]) {
      if j == |rows| {
        assert t[i] == rows[i];
      } else {
        assert t[i] == rows[i] && t[j] == rows[j];
      }
    }
  }
}
