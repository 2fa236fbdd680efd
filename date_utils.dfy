/**
 * Calendar dates as Python's `datetime.date` sees them (proleptic Gregorian,
 * years 1..9999, ordinal 1 is 0001-01-01, `weekday()` 0 is Monday), and the
 * date helpers of the dashboard: the business date, the year start, strict
 * `YYYY-MM-DD` parsing and the display format.
 */
module DateUtils {
  import opened Wrappers
  import opened Text

  datatype Date = Date(year: int, month: int, day: int)

  /** A naive `datetime` at whole-second precision. */
  datatype DateTime = DateTime(date: Date, hour: nat, minute: nat, second: nat)

  predicate IsLeap(y: int) {
    y % 4 == 0 && (y % 100 != 0 || y % 400 == 0)
  }

  function DaysInMonth(y: int, m: int): (n: int)
    requires 1 <= m <= 12
    ensures 28 <= n <= 31
  {
    if m == 2 then (if IsLeap(y) then 29 else 28)
    else if m == 4 || m == 6 || m == 9 || m == 11 then 30
    else 31
  }

  function DaysInYear(y: int): int {
    if IsLeap(y) then 366 else 365
  }

  predicate ValidDateTime(t: DateTime) {
    ValidDate(t.date) && t.hour < 24 && t.minute < 60 && t.second < 60
  }

  predicate ValidDate(d: Date) {
    1 <= d.year <= 9999 && 1 <= d.month <= 12 && 1 <= d.day <= DaysInMonth(d.year, d.month)
  }

  /** Days in the years before `y` (CPython's `_days_before_year`). */
  function DaysBeforeYear(y: int): int
    requires y >= 1
  {
    var p := y - 1;
    p * 365 + p / 4 - p / 100 + p / 400
  }

  /** Days in the months of year `y` before month `m` (CPython's `_days_before_month`). */
  function DaysBeforeMonth(y: int, m: int): (n: int)
    requires 1 <= m <= 12
    ensures 0 <= n <= 335
  {
    [0, 31, 59, 90, 120, 151, 181, 212, 243, 273, 304, 334][m - 1] + (if m > 2 && IsLeap(y) then 1 else 0)
  }

  lemma DaysBeforeNextMonth(y: int, m: int)
    requires 1 <= m < 12
    ensures DaysBeforeMonth(y, m + 1) == DaysBeforeMonth(y, m) + DaysInMonth(y, m)
  {
  }

  lemma DaysBeforeDecember(y: int)
    ensures DaysBeforeMonth(y, 12) + 31 == DaysInYear(y)
  {
  }

  /** `date.toordinal()` */
  function Ordinal(d: Date): (o: int)
    requires ValidDate(d)
    ensures o >= 1
  {
    DaysBeforeYear(d.year) + DaysBeforeMonth(d.year, d.month) + d.day
  }

  /** The weekday of an ordinal: ordinal 1 (0001-01-01) was a Monday. */
  function WeekdayOf(o: int): (w: int)
    ensures 0 <= w < 7
  {
    (o + 6) % 7
  }

  /** `date.weekday()`: Monday is 0, Saturday 5, Sunday 6. */
  function Weekday(d: Date): (w: int)
    requires ValidDate(d)
    ensures 0 <= w < 7
  {
    WeekdayOf(Ordinal(d))
  }

  lemma WeekdayBefore(o: int)
    ensures WeekdayOf(o - 1) == (if WeekdayOf(o) == 0 then 6 else WeekdayOf(o) - 1)
  {
  }

  lemma DaysBeforeNextYear(y: int)
    requires y >= 1
    ensures DaysBeforeYear(y + 1) == DaysBeforeYear(y) + DaysInYear(y)
  {
    var p := y - 1;
    assert (p + 1) / 4 == p / 4 + (if y % 4 == 0 then 1 else 0);
    assert (p + 1) / 100 == p / 100 + (if y % 100 == 0 then 1 else 0);
    assert (p + 1) / 400 == p / 400 + (if y % 400 == 0 then 1 else 0);
  }

  lemma DaysBeforeYearMonotone(x: int, y: int)
    requires 1 <= x <= y
    ensures DaysBeforeYear(x) <= DaysBeforeYear(y)
    decreases y - x
  {
    if x < y {
      DaysBeforeYearMonotone(x, y - 1);
      DaysBeforeNextYear(y - 1);
    }
  }

  /** A date lies inside its year: after the days of earlier years, within the days of its own. */
  lemma YearBounds(d: Date)
    requires ValidDate(d)
    ensures DaysBeforeYear(d.year) < Ordinal(d) <= DaysBeforeYear(d.year) + DaysInYear(d.year)
  {
  }

  /** Ordinals identify dates. */
  lemma OrdinalInjective(a: Date, b: Date)
    requires ValidDate(a) && ValidDate(b) && Ordinal(a) == Ordinal(b)
    ensures a == b
  {
    OrdinalYear(a, b);
    MonthDayInjective(a, b);
  }

  /** Dates with the same ordinal lie in the same year. */
  lemma OrdinalYear(a: Date, b: Date)
    requires ValidDate(a) && ValidDate(b) && Ordinal(a) == Ordinal(b)
    ensures a.year == b.year
  {
    if a.year < b.year {
      YearOrder(a, b);
    } else if a.year > b.year {
      YearOrder(b, a);
    }
  }

  /** Every date of an earlier year has a smaller ordinal. */
  lemma YearOrder(a: Date, b: Date)
    requires ValidDate(a) && ValidDate(b) && a.year < b.year
    ensures Ordinal(a) < Ordinal(b)
  {
    YearBounds(a);
    YearBounds(b);
    DaysBeforeNextYear(a.year);
    DaysBeforeYearMonotone(a.year + 1, b.year);
  }

  /** Within one year, the day of the year identifies the date. */
  lemma MonthDayInjective(a: Date, b: Date)
    requires ValidDate(a) && ValidDate(b) && a.year == b.year
    requires DaysBeforeMonth(a.year, a.month) + a.day == DaysBeforeMonth(b.year, b.month) + b.day
    ensures a == b
  {
    if a.month < b.month {
      MonthsBefore(a.year, a.month, b.month);
    } else if a.month > b.month {
      MonthsBefore(a.year, b.month, a.month);
    }
  }

  /** A month's days all come before the first day of any later month of the year. */
  lemma MonthsBefore(y: int, m: int, n: int)
    requires 1 <= m < n <= 12
    ensures DaysBeforeMonth(y, m) + DaysInMonth(y, m) <= DaysBeforeMonth(y, n)
    decreases n - m
  {
    DaysBeforeNextMonth(y, m);
    if m + 1 < n {
      MonthsBefore(y, m + 1, n);
    }
  }

  /** The calendar day before `d` (`d - timedelta(days=1)`), defined on every date but 0001-01-01. */
  function PreviousDay(d: Date): (r: Date)
    requires ValidDate(d) && Ordinal(d) > 1
    ensures ValidDate(r) && Ordinal(r) == Ordinal(d) - 1
  {
    if d.day > 1 then Date(d.year, d.month, d.day - 1)
    else if d.month > 1 then
      DaysBeforeNextMonth(d.year, d.month - 1);
      Date(d.year, d.month - 1, DaysInMonth(d.year, d.month - 1))
    else
      DaysBeforeNextYear(d.year - 1);
      DaysBeforeDecember(d.year - 1);
      Date(d.year - 1, 12, 31)
  }

  /** `d - timedelta(days=n)` */
  function MinusDays(d: Date, n: nat): (r: Date)
    requires ValidDate(d) && Ordinal(d) > n
    ensures ValidDate(r) && Ordinal(r) == Ordinal(d) - n
    decreases n
  {
    if n == 0 then d else MinusDays(PreviousDay(d), n - 1)
  }

  // ---------------------------------------------------------------------------
  // get_business_date

  /** Saturday goes back one day and Sunday two, to the Friday before; weekdays stay. */
  function GetBusinessDate(d: Date): (r: Date)
    requires ValidDate(d)
    ensures ValidDate(r) && Weekday(r) < 5
    ensures Ordinal(r) <= Ordinal(d) && Ordinal(d) - Ordinal(r) <= 2
    ensures Weekday(d) < 5 ==> r == d
    ensures Weekday(d) >= 5 ==> Weekday(r) == 4
  {
    var o := Ordinal(d);
    if WeekdayOf(o) == 5 then
      WeekendBack(o, 1);
      MinusDays(d, 1)
    else if WeekdayOf(o) == 6 then
      WeekendBack(o, 2);
      MinusDays(d, 2)
    else d
  }

  /** Going back from Saturday one day, or from Sunday two, reaches a Friday after day 0. */
  lemma WeekendBack(o: int, n: nat)
    requires o >= 1 && 1 <= n <= 2 && WeekdayOf(o) == 4 + n
    ensures o > n && WeekdayOf(o - n) == 4
  {
    WeekdayBefore(o);
    WeekdayBefore(o - 1);
    assert WeekdayOf(1) == 0 && WeekdayOf(2) == 1;
  }

  /** The business date of a business date is itself. */
  lemma BusinessDateIdempotent(d: Date)
    requires ValidDate(d)
    ensures GetBusinessDate(GetBusinessDate(d)) == GetBusinessDate(d)
  {
  }

  /** The business date is the latest weekday on or before the date. */
  lemma BusinessDateIsLatestWeekday(d: Date, e: Date)
    requires ValidDate(d) && ValidDate(e) && Weekday(e) < 5 && Ordinal(e) <= Ordinal(d)
    ensures Ordinal(e) <= Ordinal(GetBusinessDate(d))
  {
    var o := Ordinal(d);
    WeekdayBefore(o);
    assert Ordinal(e) != o || Weekday(d) < 5;
    assert Ordinal(e) != o - 1 || WeekdayOf(o) != 6;
  }

  // ---------------------------------------------------------------------------
  // get_year_start_date

  /** 1 January of the reference date's year; `today` stands in for `date.today()`. */
  function GetYearStartDate(reference: Option<Date>, today: Date): (r: Date)
    requires reference.Some? ==> ValidDate(reference.value)
    requires ValidDate(today)
    ensures ValidDate(r) && r.month == 1 && r.day == 1
    ensures r.year == (if reference.Some? then reference.value else today).year
    ensures Ordinal(r) <= Ordinal(if reference.Some? then reference.value else today)
  {
    var ref := if reference.Some? then reference.value else today;
    Date(ref.year, 1, 1)
  }

  /** No date of the same year comes before its year start. */
  lemma YearStartIsFirst(ref: Date, e: Date, today: Date)
    requires ValidDate(ref) && ValidDate(e) && ValidDate(today) && e.year == ref.year
    ensures Ordinal(GetYearStartDate(Some(ref), today)) <= Ordinal(e)
  {
  }

  // ---------------------------------------------------------------------------
  // parse_date_string / validate_date_format

  /** Why `datetime.strptime(s, "%Y-%m-%d")` raised. */
  datatype StrptimeFailure =
    | DoesNotMatch(data: string)  // the text does not start with the format's pattern
    | UnconvertedData(rest: string)
    | YearOutOfRange          // year 0000
    | DayOutOfRange           // e.g. 2023-02-29

  /** The `ValueError` raised by `parse_date_string`. */
  datatype DateFormatError = InvalidDateFormat(cause: StrptimeFailure)

  const InvalidDateFormatPrefix := "Invalid date format. Use YYYY-MM-DD format"

  const MismatchHead := "time data "
  const MismatchSuffix := " does not match format '%Y-%m-%d'"

  /** `str()` of the raised error: the prefix, then the text of `strptime`'s own `ValueError`. */
  function ErrorMessage(e: DateFormatError): (m: string)
    ensures |m| > |InvalidDateFormatPrefix| && m[..|InvalidDateFormatPrefix|] == InvalidDateFormatPrefix
  {
    (InvalidDateFormatPrefix + ": ") + CauseText(e.cause)
  }

  /** The text of `strptime`'s `ValueError`; a mismatch quotes the input with `%r`. */
  function CauseText(c: StrptimeFailure): (t: string)
    ensures t != []
  {
    match c
    case DoesNotMatch(data) => MismatchHead + PyRepr(data) + MismatchSuffix
    case UnconvertedData(rest) => "unconverted data remains: " + rest
    case YearOutOfRange => "year 0 is out of range"
    case DayOutOfRange => "day is out of range for month"
  }

  /** `%m` accepts `1[0-2]|0[1-9]|[1-9]`. */
  predicate MonthText(t: string) {
    || (|t| == 1 && '1' <= t[0] <= '9')
    || (|t| == 2 && t[0] == '1' && '0' <= t[1] <= '2')
    || (|t| == 2 && t[0] == '0' && '1' <= t[1] <= '9')
  }

  /** The length the first alternative of `%d` (`3[01]|[12]\d|0[1-9]|[1-9]| [1-9]`) matches at the start of `t`. */
  function DayMatch(t: string): (n: Option<nat>)
    ensures n.Some? ==> 1 <= n.value <= |t| && n.value <= 2
  {
    if |t| >= 2 && t[0] == '3' && (t[1] == '0' || t[1] == '1') then Some(2)
    else if |t| >= 2 && (t[0] == '1' || t[0] == '2') && IsDigit(t[1]) then Some(2)
    else if |t| >= 2 && t[0] == '0' && '1' <= t[1] <= '9' then Some(2)
    else if |t| >= 1 && '1' <= t[0] <= '9' then Some(1)
    else if |t| >= 2 && t[0] == ' ' && '1' <= t[1] <= '9' then Some(2)
    else None
  }

  /** The value of a one- or two-character day or month field (a leading space counts as 0). */
  function FieldValue(t: string): (v: nat)
    requires 1 <= |t| <= 2
    ensures v < 100
  {
    var last := DigitValueOrZero(t[|t| - 1]);
    if |t| == 1 then last else DigitValueOrZero(t[0]) * 10 + last
  }

  function DigitValueOrZero(c: char): (v: nat)
    ensures v < 10
  {
    if IsDigit(c) then DigitValue(c) else 0
  }

  lemma MonthFieldRange(t: string)
    requires MonthText(t)
    ensures 1 <= FieldValue(t) <= 12
  {
  }

  lemma DayFieldRange(t: string)
    requires DayMatch(t) == Some(|t|)
    ensures 1 <= FieldValue(t) <= 31
  {
  }

  lemma {:induction false} DigitsValueBelow(s: string, bound: nat)
    requires AllDigits(s) && |s| <= 4 && bound == [1, 10, 100, 1000, 10000][|s|]
    ensures DigitsValue(s) < bound
  {
    if s != [] {
      DigitsValueBelow(s[..|s| - 1], [1, 10, 100, 1000, 10000][|s| - 1]);
    }
  }

  /** Converts the matched fields; `datetime` rejects year 0 and a day past the month's end. */
  function DateFromFields(yearText: string, monthText: string, dayText: string): (r: Result<Date, DateFormatError>)
    requires |yearText| == 4 && AllDigits(yearText) && MonthText(monthText) && DayMatch(dayText) == Some(|dayText|)
    ensures r.Success? ==> ValidDate(r.value)
  {
    var y := DigitsValue(yearText);
    var m := FieldValue(monthText);
    var d := FieldValue(dayText);
    DigitsValueBelow(yearText, 10000);
    MonthFieldRange(monthText);
    DayFieldRange(dayText);
    if y == 0 then Failure(InvalidDateFormat(YearOutOfRange))
    else if d > DaysInMonth(y, m) then Failure(InvalidDateFormat(DayOutOfRange))
    else Success(Date(y, m, d))
  }

  /** The pattern `\d\d\d\d-(month)-(day)` must match a prefix of the text and then consume all of it. */
  function MatchFields(s: string): (r: Result<(string, string, string), DateFormatError>)
    ensures r.Success? ==> var (y, m, d) := r.value;
      |y| == 4 && AllDigits(y) && MonthText(m) && DayMatch(d) == Some(|d|) && s == y + "-" + m + "-" + d
  {
    if !(|s| >= 7 && AllDigits(s[..4]) && s[4] == '-' && '-' in s[5..]) then Failure(InvalidDateFormat(DoesNotMatch(s)))
    else
      var k := 5 + FirstIndex(s[5..], '-');
      var monthText, dayText := s[5..k], s[k + 1..];
      if !MonthText(monthText) then Failure(InvalidDateFormat(DoesNotMatch(s)))
      else match DayMatch(dayText)
        case None => Failure(InvalidDateFormat(DoesNotMatch(s)))
        case Some(n) =>
          if n < |dayText| then Failure(InvalidDateFormat(UnconvertedData(dayText[n..])))
          else
            assert s == s[..4] + "-" + monthText + "-" + dayText;
            Success((s[..4], monthText, dayText))
  }

  /** `parse_date_string`: `datetime.strptime(s, "%Y-%m-%d").date()`, or the `ValueError` it re-raises. */
  function ParseDateString(s: string): (r: Result<Date, DateFormatError>)
    ensures r.Success? ==> ValidDate(r.value)
  {
    match MatchFields(s)
    case Failure(e) => Failure(e)
    case Success((y, m, d)) => DateFromFields(y, m, d)
  }

  /** `validate_date_format`: true exactly when `parse_date_string` does not raise. */
  function ValidateDateFormat(s: string): (ok: bool)
    ensures ok <==> ParseDateString(s).Success?
    ensures ok ==> |s| >= 8 && s[4] == '-' && AllDigits(s[..4])
  {
    ParseDateString(s).Success?
  }

  /** A mismatch names the whole input, so its message tells inputs apart. */
  lemma MismatchMessageInjective(a: string, b: string)
    requires ErrorMessage(InvalidDateFormat(DoesNotMatch(a))) == ErrorMessage(InvalidDateFormat(DoesNotMatch(b)))
    ensures a == b
  {
    PrefixCancel(InvalidDateFormatPrefix + ": ", CauseText(DoesNotMatch(a)), CauseText(DoesNotMatch(b)));
    SuffixCancel(MismatchHead + PyRepr(a), MismatchHead + PyRepr(b), MismatchSuffix);
    PrefixCancel(MismatchHead, PyRepr(a), PyRepr(b));
    ReprInjective(a, b);
  }

  /** For an input of plain characters the mismatch quotes it as it is. */
  lemma PlainMismatchText(s: string)
    requires forall i :: 0 <= i < |s| ==> ReprPlain(s[i], '\'')
    ensures CauseText(DoesNotMatch(s)) == MismatchHead + ("'" + s + "'") + MismatchSuffix
  {
    ReprOfPlainText(s);
  }

  /** A slash-separated date is refused as a mismatch naming the input. */
  lemma SlashDateRefused()
    ensures ParseDateString("2024/01/15") == Failure(InvalidDateFormat(DoesNotMatch("2024/01/15")))
  {
    var s := "2024/01/15";
    assert s[4] == '/';
    assert MatchFields(s) == Failure(InvalidDateFormat(DoesNotMatch(s)));
  }

  // ---------------------------------------------------------------------------
  // strftime

  /** `strftime("%Y")` with glibc: the year without padding (four digits from year 1000 on). */
  function YearText(y: int): string
    requires y >= 1
  {
    NatToString(y)
  }

  /** `strftime("%Y-%m-%d")` */
  function IsoDateText(d: Date): string
    requires ValidDate(d)
  {
    YearText(d.year) + "-" + Pad2(d.month) + "-" + Pad2(d.day)
  }

  /** `str(datetime)`: `YYYY-MM-DD HH:MM:SS` with the year zero-padded to four digits. */
  function DateTimeText(t: DateTime): (s: string)
    requires ValidDateTime(t)
    ensures |s| == 19 && s[13] == ':'
  {
    Pad4(t.date.year) + "-" + Pad2(t.date.month) + "-" + Pad2(t.date.day) + " "
      + Pad2(t.hour) + ":" + Pad2(t.minute) + ":" + Pad2(t.second)
  }

  /** `%B` in the C/English locale. */
  function MonthName(m: int): (name: string)
    requires 1 <= m <= 12
    ensures |name| >= 3 && ' ' !in name
  {
    ["January", "February", "March", "April", "May", "June", "July",
     "August", "September", "October", "November", "December"][m - 1]
  }

  /** `format_date_for_display`: `strftime("%B %d, %Y")`, e.g. "January 15, 2024". */
  function FormatDateForDisplay(d: Date): string
    requires ValidDate(d)
  {
    MonthName(d.month) + " " + Pad2(d.day) + ", " + YearText(d.year)
  }

  /** Midnight of a date (`datetime.combine(d, datetime.min.time())`). */
  function Midnight(d: Date): (t: DateTime)
    ensures t.date == d && t.hour == 0 && t.minute == 0 && t.second == 0
  {
    DateTime(d, 0, 0, 0)
  }

  // ---------------------------------------------------------------------------
  // Properties

  /** The documented example. */
  lemma DisplayExample()
    ensures FormatDateForDisplay(Date(2024, 1, 15)) == "January 15, 2024"
  {
    assert NatToString(2024) == "2024" by {
      assert NatToString(2) == "2";
      assert NatToString(20) == "20";
      assert NatToString(202) == "202";
    }
  }

  lemma MonthNamesDistinct(m: int, n: int)
    requires 1 <= m <= 12 && 1 <= n <= 12 && MonthName(m) == MonthName(n)
    ensures m == n
  {
  }

  /** Two different dates never display alike. */
  lemma DisplayInjective(a: Date, b: Date)
    requires ValidDate(a) && ValidDate(b)
    requires FormatDateForDisplay(a) == FormatDateForDisplay(b)
    ensures a == b
  {
    var ra, rb := Pad2(a.day) + ", " + YearText(a.year), Pad2(b.day) + ", " + YearText(b.year);
    DisplayParts(a);
    DisplayParts(b);
    SplitAtFirst(MonthName(a.month), ra, MonthName(b.month), rb);
    MonthNamesDistinct(a.month, b.month);
    DayYearInjective(a, b);
  }

  /** The display is the month name, a space and the rest. */
  lemma DisplayParts(d: Date)
    requires ValidDate(d)
    ensures FormatDateForDisplay(d) == MonthName(d.month) + " " + (Pad2(d.day) + ", " + YearText(d.year))
  {
  }

  /** The day-and-year part of the display determines the day and the year. */
  lemma DayYearInjective(a: Date, b: Date)
    requires ValidDate(a) && ValidDate(b)
    requires Pad2(a.day) + ", " + YearText(a.year) == Pad2(b.day) + ", " + YearText(b.year)
    ensures a.day == b.day && a.year == b.year
  {
    SplitAfterFixed(Pad2(a.day), YearText(a.year), Pad2(b.day), YearText(b.year));
    Pad2Value(a.day);
    Pad2Value(b.day);
    NatToStringInjective(a.year, b.year);
  }

  /** Texts glued at their first space come apart at it. */
  lemma SplitAtFirst(a: string, x: string, b: string, y: string)
    requires ' ' !in a && ' ' !in b && a + " " + x == b + " " + y
    ensures a == b && x == y
  {
    var s := a + " " + x;
    assert s == a + [' '] + x && s == b + [' '] + y;
    FirstIndexAfter(a, ' ', x);
    FirstIndexAfter(b, ' ', y);
    assert a == s[..|a|] == b;
    assert x == s[|a| + 1..] == y;
  }

  lemma SplitAfterFixed(p: string, x: string, q: string, y: string)
    requires |p| == 2 && |q| == 2 && p + ", " + x == q + ", " + y
    ensures p == q && x == y
  {
    var s := p + ", " + x;
    assert p == s[..2] == q;
    assert x == s[4..] == y;
  }

  lemma YearTextFourDigits(y: int)
    requires 1000 <= y <= 9999
    ensures |YearText(y)| == 4 && DigitsValue(YearText(y)) == y
  {
    NatToStringValue(y);
    assert NatToString(y) == NatToString(y / 10) + [DigitChar(y % 10)];
    assert NatToString(y / 10) == NatToString(y / 100) + [DigitChar(y / 10 % 10)];
    assert NatToString(y / 100) == NatToString(y / 1000) + [DigitChar(y / 100 % 10)];
  }

  lemma MatchIsoDateText(d: Date)
    requires ValidDate(d) && d.year >= 1000
    ensures MatchFields(IsoDateText(d)) == Success((YearText(d.year), Pad2(d.month), Pad2(d.day)))
  {
    var y, m, dd := YearText(d.year), Pad2(d.month), Pad2(d.day);
    var s := IsoDateText(d);
    YearTextFourDigits(d.year);
    assert s[..4] == y;
    assert s[5..] == m + ['-'] + dd;
    FirstIndexAfter(m, '-', dd);
    assert s[5..7] == m;
    assert s[8..] == dd;
    assert DayMatch(dd) == Some(2);
  }

  /** `parse_date_string` reads back what `strftime("%Y-%m-%d")` wrote, from year 1000 on. */
  lemma ParseIsoDateText(d: Date)
    requires ValidDate(d) && d.year >= 1000
    ensures ParseDateString(IsoDateText(d)) == Success(d)
  {
    MatchIsoDateText(d);
    YearTextFourDigits(d.year);
    Pad2Value(d.month);
    Pad2Value(d.day);
    assert FieldValue(Pad2(d.month)) == d.month;
    assert FieldValue(Pad2(d.day)) == d.day;
  }
}
