/**
 * The rules of the dashboard service, over the rows its queries return:
 * year-to-date performance, the gauges of the indicators with their colour
 * zones, the recommendation list, the chart series and the position of the day.
 */
module DashboardService {
  import opened Wrappers
  import opened Text
  import opened DateUtils
  import opened TestRangeModel

  /** The `technicals` columns the dashboard reads. */
  datatype TechnicalsRow = TechnicalsRow(
    timestamp: DateTime,
    close: Option<real>, volume: Option<real>, openInterest: Option<real>, rsi14d: Option<real>,
    macd: Option<real>, stockUs: Option<real>, comNetUs: Option<real>,
    score: Option<string>, conclusion: Option<real>)

  /** The `indicator` columns the dashboard reads. */
  datatype IndicatorRow = IndicatorRow(
    date: DateTime,
    macroecoScore: Option<real>, rsiNorm: Option<real>, macdNorm: Option<real>,
    stochKNorm: Option<real>, atrNorm: Option<real>, volOiNorm: Option<real>,
    conclusion: Option<string>)

  // ---------------------------------------------------------------------------
  // `calculate_ytd_performance`

  /** `a <= b` between calendar dates (`func.date(...)` compared with a `date`). */
  predicate DateLe(a: Date, b: Date) {
    a.year < b.year || (a.year == b.year && (a.month < b.month || (a.month == b.month && a.day <= b.day)))
  }

  /** The `WHERE` clause of the query: dated from `start` to `reference`, with a conclusion. */
  predicate InYtd(r: TechnicalsRow, start: Date, reference: Date) {
    DateLe(start, r.timestamp.date) && DateLe(r.timestamp.date, reference) && r.conclusion.Some?
  }

  /** Some row of the year to date carries conclusion `c`. */
  predicate YtdHas(rows: seq<TechnicalsRow>, c: real, start: Date, reference: Date) {
    exists i :: 0 <= i < |rows| && InYtd(rows[i], start, reference) && rows[i].conclusion == Some(c)
  }

  /** The non-null conclusions of the rows dated from `start` to `reference`, in row order. */
  function YtdConclusions(rows: seq<TechnicalsRow>, start: Date, reference: Date): (cs: seq<real>)
    ensures |cs| <= |rows|
    ensures cs == [] <==> forall i :: 0 <= i < |rows| ==> !InYtd(rows[i], start, reference)
    ensures forall c :: c in cs <==> YtdHas(rows, c, start, reference)
  {
    if rows == [] then []
    else
      var r := rows[|rows| - 1];
      var init := YtdConclusions(rows[..|rows| - 1], start, reference);
      YtdHasSplit(rows, start, reference);
      if InYtd(r, start, reference) then init + [r.conclusion.value]
      else init
  }

  /** A conclusion of the rows is one of the rows before the last, or the last row's own. */
  lemma YtdHasSplit(rows: seq<TechnicalsRow>, start: Date, reference: Date)
    requires rows != []
    ensures var r := rows[|rows| - 1];
      forall c :: YtdHas(rows, c, start, reference) <==>
        YtdHas(rows[..|rows| - 1], c, start, reference) || (InYtd(r, start, reference) && r.conclusion == Some(c))
  {
    var init := rows[..|rows| - 1];
    forall c | YtdHas(init, c, start, reference) ensures YtdHas(rows, c, start, reference) {
      var i :| 0 <= i < |init| && InYtd(init[i], start, reference) && init[i].conclusion == Some(c);
      assert rows[i] == init[i];
    }
    forall c | YtdHas(rows, c, start, reference) && !YtdHas(init, c, start, reference)
      ensures rows[|rows| - 1].conclusion == Some(c) && InYtd(rows[|rows| - 1], start, reference)
    {
      var i :| 0 <= i < |rows| && InYtd(rows[i], start, reference) && rows[i].conclusion == Some(c);
    }
  }

  /** The conclusions of two runs of rows are the conclusions of each, in order. */
  lemma {:induction false} YtdConclusionsAppend(a: seq<TechnicalsRow>, b: seq<TechnicalsRow>, start: Date, reference: Date)
    ensures YtdConclusions(a + b, start, reference) == YtdConclusions(a, start, reference) + YtdConclusions(b, start, reference)
  {
    if b == [] {
      assert a + b == a;
    } else {
      assert (a + b)[..|a + b| - 1] == a + b[..|b| - 1];
      YtdConclusionsAppend(a, b[..|b| - 1], start, reference);
    }
  }

  function Sum(s: seq<real>): real {
    if s == [] then 0.0 else Sum(s[..|s| - 1]) + s[|s| - 1]
  }

  /** No conclusions give 0.0; otherwise 100 times their mean. */
  function YtdPerformance(conclusions: seq<real>): (p: real)
    ensures conclusions == [] ==> p == 0.0
    ensures conclusions != [] ==> p * (|conclusions| as real) == 100.0 * Sum(conclusions)
  {
    if conclusions == [] then 0.0 else Sum(conclusions) / (|conclusions| as real) * 100.0
  }

  /** `calculate_ytd_performance(reference_date)` over the rows of `technicals`; `today` is `date.today()`. */
  function CalculateYtdPerformance(rows: seq<TechnicalsRow>, reference: Option<Date>, today: Date): real
    requires reference.Some? ==> ValidDate(reference.value)
    requires ValidDate(today)
  {
    var ref := if reference.Some? then reference.value else today;
    YtdPerformance(YtdConclusions(rows, GetYearStartDate(reference, today), ref))
  }

  lemma {:induction false} SumBounds(s: seq<real>, lo: real, hi: real)
    requires forall i :: 0 <= i < |s| ==> lo <= s[i] <= hi
    ensures (|s| as real) * lo <= Sum(s) <= (|s| as real) * hi
  {
    if s != [] {
      SumBounds(s[..|s| - 1], lo, hi);
    }
  }

  /** The performance lies between 100 times the smallest and 100 times the largest conclusion. */
  lemma YtdWithinBounds(conclusions: seq<real>, lo: real, hi: real)
    requires conclusions != [] && forall i :: 0 <= i < |conclusions| ==> lo <= conclusions[i] <= hi
    ensures 100.0 * lo <= YtdPerformance(conclusions) <= 100.0 * hi
  {
    SumBounds(conclusions, lo, hi);
    var n := |conclusions| as real;
    var p := YtdPerformance(conclusions);
    assert p * n == 100.0 * Sum(conclusions);
    assert p * n >= 100.0 * lo * n;
    assert p * n <= 100.0 * hi * n;
  }

  // ---------------------------------------------------------------------------
  // `get_indicators_with_ranges`

  /** The ranges of one indicator, in the order the query returned them. */
  function RangesFor(all: seq<RangeRow>, name: string): (g: seq<RangeRow>)
    ensures |g| <= |all|
    ensures forall k :: 0 <= k < |g| ==> g[k].indicator == name
    ensures g == [] <==> forall i :: 0 <= i < |all| ==> all[i].indicator != name
  {
    if all == [] then []
    else
      var init := RangesFor(all[..|all| - 1], name);
      if all[|all| - 1].indicator == name then init + [all[|all| - 1]] else init
  }

  /** Every range of the indicator is in its group. */
  lemma {:induction false} RangesForComplete(all: seq<RangeRow>, name: string, i: nat)
    requires i < |all| && all[i].indicator == name
    ensures all[i] in RangesFor(all, name)
  {
    if i < |all| - 1 {
      assert all[..|all| - 1][i] == all[i];
      RangesForComplete(all[..|all| - 1], name, i);
    }
  }

  /** Grouping two runs of ranges gives the groups of each, in order. */
  lemma {:induction false} RangesForAppend(a: seq<RangeRow>, b: seq<RangeRow>, name: string)
    ensures RangesFor(a + b, name) == RangesFor(a, name) + RangesFor(b, name)
  {
    if b == [] {
      assert a + b == a;
    } else {
      assert (a + b)[..|a + b| - 1] == a + b[..|b| - 1];
      RangesForAppend(a, b[..|b| - 1], name);
    }
  }

  /** The grouping loop: one group per indicator name that has a range. */
  method GroupRanges(allRanges: seq<RangeRow>) returns (groups: map<string, seq<RangeRow>>)
    ensures forall name :: name in groups <==> RangesFor(allRanges, name) != []
    ensures forall name :: name in groups ==> groups[name] == RangesFor(allRanges, name)
  {
    groups := map[];
    var i := 0;
    while i < |allRanges|
      invariant 0 <= i <= |allRanges|
      invariant forall name :: name in groups <==> RangesFor(allRanges[..i], name) != []
      invariant forall name :: name in groups ==> groups[name] == RangesFor(allRanges[..i], name)
    {
      var r := allRanges[i];
      ghost var before := groups;
      if r.indicator !in groups {
        groups := groups[r.indicator := []];
      }
      groups := groups[r.indicator := groups[r.indicator] + [r]];
      forall name
        ensures name in groups <==> RangesFor(allRanges[..i + 1], name) != []
        ensures name in groups ==> groups[name] == RangesFor(allRanges[..i + 1], name)
      {
        RangesForStep(allRanges, i, name);
        if name == r.indicator && name !in before {
          assert RangesFor(allRanges[..i], name) == [];
        }
      }
      i := i + 1;
    }
    assert allRanges[..i] == allRanges;
  }

  /** One more range extends the group of its own indicator and no other. */
  lemma RangesForStep(all: seq<RangeRow>, i: nat, name: string)
    requires i < |all|
    ensures RangesFor(all[..i + 1], name)
      == if all[i].indicator == name then RangesFor(all[..i], name) + [all[i]] else RangesFor(all[..i], name)
  {
    assert all[..i + 1][..i] == all[..i];
  }

  /** Every bound of the ranges, low then high, range by range (`all_values`). */
  function Bounds(ranges: seq<RangeRow>): (vs: seq<real>)
    ensures |vs| == 2 * |ranges|
    ensures forall k :: 0 <= k < |ranges| ==> vs[2 * k] == ranges[k].rangeLow && vs[2 * k + 1] == ranges[k].rangeHigh
  {
    if ranges == [] then []
    else Bounds(ranges[..|ranges| - 1]) + [ranges[|ranges| - 1].rangeLow, ranges[|ranges| - 1].rangeHigh]
  }

  /** The loop that fills `all_values`. */
  method CollectBounds(ranges: seq<RangeRow>) returns (allValues: seq<real>)
    ensures allValues == Bounds(ranges)
  {
    allValues := [];
    var k := 0;
    while k < |ranges|
      invariant 0 <= k <= |ranges|
      invariant allValues == Bounds(ranges[..k])
    {
      assert ranges[..k + 1][..k] == ranges[..k];
      allValues := allValues + [ranges[k].rangeLow, ranges[k].rangeHigh];
      k := k + 1;
    }
    assert ranges[..k] == ranges;
  }

  /** `min(values)` */
  function SeqMin(s: seq<real>): (m: real)
    requires s != []
    ensures m in s && forall k :: 0 <= k < |s| ==> m <= s[k]
  {
    if |s| == 1 then s[0]
    else
      var rest := SeqMin(s[1..]);
      assert forall k :: 1 <= k < |s| ==> s[k] == s[1..][k - 1];
      if s[0] <= rest then s[0] else rest
  }

  /** `max(values)` */
  function SeqMax(s: seq<real>): (m: real)
    requires s != []
    ensures m in s && forall k :: 0 <= k < |s| ==> s[k] <= m
  {
    if |s| == 1 then s[0]
    else
      var rest := SeqMax(s[1..]);
      assert forall k :: 1 <= k < |s| ==> s[k] == s[1..][k - 1];
      if s[0] >= rest then s[0] else rest
  }

  /** A range as the response lists it. */
  datatype RangeView = RangeView(rangeLow: real, rangeHigh: real, area: string)

  function RangeViews(ranges: seq<RangeRow>): (vs: seq<RangeView>)
    ensures |vs| == |ranges|
    ensures forall k :: 0 <= k < |ranges| ==> vs[k] == RangeView(ranges[k].rangeLow, ranges[k].rangeHigh, ranges[k].area)
  {
    seq(|ranges|, k requires 0 <= k < |ranges| => RangeView(ranges[k].rangeLow, ranges[k].rangeHigh, ranges[k].area))
  }

  /** The entry of one indicator: its value, the extent of its ranges, its label and its ranges. */
  datatype IndicatorData = IndicatorData(value: real, min: real, max: real, labelText: string, ranges: seq<RangeView>)

  /** One line of `indicator_configs`: result key, value, label, indicator name in `test_range`. */
  datatype IndicatorConfig = IndicatorConfig(key: string, value: Option<real>, labelText: string, rangeName: string)

  function IndicatorConfigs(ind: IndicatorRow): (cs: seq<IndicatorConfig>)
    ensures |cs| == 6
  {
    [ IndicatorConfig("macroeco", ind.macroecoScore, "MACROECO", "MACROECO"),
      IndicatorConfig("rsi", ind.rsiNorm, "RSI", "RSI"),
      IndicatorConfig("macd", ind.macdNorm, "MACD", "MACD"),
      IndicatorConfig("percentK", ind.stochKNorm, "%K", "%K"),
      IndicatorConfig("atr", ind.atrNorm, "ATR", "ATR"),
      IndicatorConfig("volOi", ind.volOiNorm, "VOL/OI", "VOL_OI") ]
  }

  /** The entry a present value with a non-empty group of ranges gets. */
  function GaugeOf(value: real, labelText: string, group: seq<RangeRow>): IndicatorData
    requires group != []
  {
    IndicatorData(value, SeqMin(Bounds(group)), SeqMax(Bounds(group)), labelText, RangeViews(group))
  }

  /** The configuration at `i` gets an entry: its value is present and its range name has ranges. */
  predicate Shown(c: IndicatorConfig, allRanges: seq<RangeRow>) {
    c.value.Some? && RangesFor(allRanges, c.rangeName) != []
  }

  /** The dict `indicators` after the first `n` configurations. */
  function IndicatorsFrom(configs: seq<IndicatorConfig>, allRanges: seq<RangeRow>, n: nat): (r: map<string, IndicatorData>)
    requires n <= |configs|
  {
    if n == 0 then map[]
    else
      var c := configs[n - 1];
      var init := IndicatorsFrom(configs, allRanges, n - 1);
      if Shown(c, allRanges) then init[c.key := GaugeOf(c.value.value, c.labelText, RangesFor(allRanges, c.rangeName))]
      else init
  }

  /** `get_indicators_with_ranges`, given the indicator row its query found (if any) and
      every row of `test_range`. */
  function IndicatorsWithRanges(indicator: Option<IndicatorRow>, allRanges: seq<RangeRow>): map<string, IndicatorData> {
    match indicator
    case None => map[]
    case Some(ind) => IndicatorsFrom(IndicatorConfigs(ind), allRanges, 6)
  }

  /** The body of `get_indicators_with_ranges` after its queries. */
  method GetIndicatorsWithRanges(indicator: Option<IndicatorRow>, allRanges: seq<RangeRow>) returns (indicators: map<string, IndicatorData>)
    ensures indicators == IndicatorsWithRanges(indicator, allRanges)
  {
    if indicator.None? {
      return map[];
    }
    var rangesByIndicator := GroupRanges(allRanges);
    indicators := FillIndicators(IndicatorConfigs(indicator.value), allRanges, rangesByIndicator);
  }

  /** The loop over `indicator_configs`, given the grouping of `allRanges`. */
  method FillIndicators(configs: seq<IndicatorConfig>, allRanges: seq<RangeRow>, rangesByIndicator: map<string, seq<RangeRow>>)
      returns (indicators: map<string, IndicatorData>)
    requires forall name :: name in rangesByIndicator <==> RangesFor(allRanges, name) != []
    requires forall name :: name in rangesByIndicator ==> rangesByIndicator[name] == RangesFor(allRanges, name)
    ensures indicators == IndicatorsFrom(configs, allRanges, |configs|)
  {
    indicators := map[];
    var n := 0;
    while n < |configs|
      invariant 0 <= n <= |configs|
      invariant indicators == IndicatorsFrom(configs, allRanges, n)
    {
      var c := configs[n];
      if c.value.Some? && c.rangeName in rangesByIndicator {
        var ranges := rangesByIndicator[c.rangeName];
        var allValues := CollectBounds(ranges);
        indicators := indicators[c.key := IndicatorData(c.value.value, SeqMin(allValues), SeqMax(allValues), c.labelText, RangeViews(ranges))];
      }
      n := n + 1;
    }
  }

  /** Every key of the result names a configuration that is shown. */
  lemma {:induction false} IndicatorsFromKeys(configs: seq<IndicatorConfig>, allRanges: seq<RangeRow>, n: nat, k: string)
    requires n <= |configs| && k in IndicatorsFrom(configs, allRanges, n)
    ensures exists i :: 0 <= i < n && configs[i].key == k && Shown(configs[i], allRanges)
  {
    var c := configs[n - 1];
    if !(Shown(c, allRanges) && c.key == k) {
      IndicatorsFromKeys(configs, allRanges, n - 1, k);
    }
  }

  /** A position of `all_values` holds a low or a high bound of the range at half that position. */
  lemma BoundAt(group: seq<RangeRow>, a: nat)
    requires a < |Bounds(group)|
    ensures Bounds(group)[a] == group[a / 2].rangeLow || Bounds(group)[a] == group[a / 2].rangeHigh
  {
    if a % 2 == 0 {
      assert a == 2 * (a / 2);
    } else {
      assert a == 2 * (a / 2) + 1;
    }
  }

  /** The gauge of one indicator spans its ranges: the minimum and the maximum are bounds
      of its ranges, and every bound lies between them. */
  lemma GaugeSpansRanges(value: real, labelText: string, group: seq<RangeRow>)
    requires group != []
    ensures var g := GaugeOf(value, labelText, group);
      && (exists k :: 0 <= k < |group| && (g.min == group[k].rangeLow || g.min == group[k].rangeHigh))
      && (exists k :: 0 <= k < |group| && (g.max == group[k].rangeLow || g.max == group[k].rangeHigh))
      && forall k :: 0 <= k < |group| ==>
           g.min <= group[k].rangeLow <= g.max && g.min <= group[k].rangeHigh <= g.max
  {
    var vs := Bounds(group);
    var g := GaugeOf(value, labelText, group);
    var a :| 0 <= a < |vs| && vs[a] == g.min;
    var b :| 0 <= b < |vs| && vs[b] == g.max;
    BoundAt(group, a);
    BoundAt(group, b);
    forall k | 0 <= k < |group|
      ensures g.min <= group[k].rangeLow <= g.max && g.min <= group[k].rangeHigh <= g.max
    {
      assert vs[2 * k] == group[k].rangeLow && vs[2 * k + 1] == group[k].rangeHigh;
    }
  }

  /** With distinct keys, configuration `i` has an entry exactly when it is shown, and the
      entry is its gauge. */
  lemma {:induction false} IndicatorsFromEntry(configs: seq<IndicatorConfig>, allRanges: seq<RangeRow>, n: nat, i: nat)
    requires i < n <= |configs|
    requires forall a, b :: 0 <= a < b < |configs| ==> configs[a].key != configs[b].key
    ensures var r := IndicatorsFrom(configs, allRanges, n); var c := configs[i];
      && (c.key in r <==> Shown(c, allRanges))
      && (c.key in r ==> r[c.key] == GaugeOf(c.value.value, c.labelText, RangesFor(allRanges, c.rangeName)))
  {
    var c := configs[n - 1];
    var init := IndicatorsFrom(configs, allRanges, n - 1);
    var r := IndicatorsFrom(configs, allRanges, n);
    assert r == if Shown(c, allRanges) then init[c.key := GaugeOf(c.value.value, c.labelText, RangesFor(allRanges, c.rangeName))] else init;
    if i < n - 1 {
      IndicatorsFromEntry(configs, allRanges, n - 1, i);
      assert c.key != configs[i].key;
    } else if !Shown(c, allRanges) {
      IndicatorsFromAbsent(configs, allRanges, n - 1, c.key);
    }
  }

  /** A key no configuration among the first `n` has stays out of the result. */
  lemma {:induction false} IndicatorsFromAbsent(configs: seq<IndicatorConfig>, allRanges: seq<RangeRow>, n: nat, k: string)
    requires n <= |configs| && forall i :: 0 <= i < n ==> configs[i].key != k
    ensures k !in IndicatorsFrom(configs, allRanges, n)
  {
    if n > 0 {
      IndicatorsFromAbsent(configs, allRanges, n - 1, k);
    }
  }

  lemma ConfigKeysDistinct(ind: IndicatorRow)
    ensures var cs := IndicatorConfigs(ind);
      forall a, b :: 0 <= a < b < |cs| ==> cs[a].key != cs[b].key
  {
    var cs := IndicatorConfigs(ind);
    forall a, b | 0 <= a < b < |cs| ensures cs[a].key != cs[b].key {
      assert cs[a].key[0] != cs[b].key[0] || cs[a].key[|cs[a].key| - 1] != cs[b].key[|cs[b].key| - 1];
    }
  }

  /** An indicator appears in the result exactly when its value is present and its range
      name has ranges, and then it carries that value, its label and the gauge of its group;
      no row at all gives an empty result. */
  lemma IndicatorPresence(indicator: Option<IndicatorRow>, allRanges: seq<RangeRow>, i: nat)
    requires i < 6
    ensures indicator.None? ==> IndicatorsWithRanges(indicator, allRanges) == map[]
    ensures indicator.Some? ==>
      var c := IndicatorConfigs(indicator.value)[i];
      var r := IndicatorsWithRanges(indicator, allRanges);
      && (c.key in r <==> Shown(c, allRanges))
      && (c.key in r ==> r[c.key] == GaugeOf(c.value.value, c.labelText, RangesFor(allRanges, c.rangeName)))
  {
    if indicator.Some? {
      ConfigKeysDistinct(indicator.value);
      IndicatorsFromEntry(IndicatorConfigs(indicator.value), allRanges, 6, i);
    }
  }

  // ---------------------------------------------------------------------------
  // `parse_recommendations_text`

  predicate IsBullet(c: char) {
    c == '-' || c == '•' || c == '*'
  }

  /** One stripped line without one leading `-`, `•` or `*` and the whitespace after it (`re.sub(r"^[-•*]\s*", "", line)`). */
  function CleanRecommendation(line: string): string {
    DropBullet(Strip(line))
  }

  /** `re.sub(r"^[-•*]\s*", "", t)` */
  function DropBullet(t: string): string {
    if t != [] && IsBullet(t[0]) then t[1..][LeadingCount(t[1..], Whitespace)..] else t
  }

  /** The non-empty cleaned lines, in order. */
  function Recommendations(lines: seq<string>): seq<string> {
    if lines == [] then []
    else
      var init := Recommendations(lines[..|lines| - 1]);
      var item := CleanRecommendation(lines[|lines| - 1]);
      if item != [] then init + [item] else init
  }

  /** `parse_recommendations_text` */
  method ParseRecommendationsText(text: string) returns (recommendations: seq<string>)
    ensures recommendations == if text == [] then [] else Recommendations(Split(text, '\n'))
  {
    if text == [] {
      return [];
    }
    var lines := Split(text, '\n');
    recommendations := [];
    var i := 0;
    while i < |lines|
      invariant 0 <= i <= |lines|
      invariant recommendations == Recommendations(lines[..i])
    {
      RecommendationsStep(lines, i);
      var line := Strip(lines[i]);
      if line != [] {
        line := DropBullet(line);
        if line != [] {
          recommendations := recommendations + [line];
        }
      }
      i := i + 1;
    }
    assert lines[..i] == lines;
  }

  /** One more line adds its cleaned form, unless that is empty. */
  lemma RecommendationsStep(lines: seq<string>, i: nat)
    requires i < |lines|
    ensures var c := CleanRecommendation(lines[i]);
      Recommendations(lines[..i + 1]) == if c != [] then Recommendations(lines[..i]) + [c] else Recommendations(lines[..i])
  {
    assert lines[..i + 1][..i] == lines[..i];
  }

  /** A cleaned line is what is left of the stripped line once its leading bullet, when it
      has one, and the whitespace after it are dropped; it has no surrounding whitespace. */
  lemma CleanRecommendationShape(line: string)
    ensures var t := Strip(line); var c := CleanRecommendation(line);
      && (exists k :: 0 <= k <= |t| && c == t[k..] && (k > 0 <==> t != [] && IsBullet(t[0]))
            && (k > 0 ==> forall j :: 1 <= j < k ==> IsSpace(t[j])))
      && (c != [] ==> !IsSpace(c[0]) && !IsSpace(c[|c| - 1]))
  {
    StripEnds(line);
    DropBulletShape(Strip(line));
  }

  /** On a text without surrounding whitespace, a leading bullet is always dropped with the
      whitespace after it, nothing else is, and no surrounding whitespace is left. */
  lemma DropBulletShape(t: string)
    requires t != [] ==> !IsSpace(t[0]) && !IsSpace(t[|t| - 1])
    ensures var c := DropBullet(t);
      && (exists k :: 0 <= k <= |t| && c == t[k..] && (k > 0 <==> t != [] && IsBullet(t[0]))
            && (k > 0 ==> forall j :: 1 <= j < k ==> IsSpace(t[j])))
      && (c != [] ==> !IsSpace(c[0]) && !IsSpace(c[|c| - 1]))
  {
    if t != [] && IsBullet(t[0]) {
      var n := LeadingCount(t[1..], Whitespace);
      BulletRemoved(t, n);
      assert DropBullet(t) == t[1 + n..];
    } else {
      assert DropBullet(t) == t[0..];
    }
  }

  /** A stripped text neither starts nor ends with whitespace. */
  lemma StripEnds(s: string)
    ensures var t := Strip(s); t != [] ==> !IsSpace(t[0]) && !IsSpace(t[|t| - 1])
  {
  }

  /** Dropping a bullet and the `n` spaces after it from a line that does not end in
      whitespace leaves a suffix of it that neither starts nor ends with whitespace. */
  lemma BulletRemoved(t: string, n: nat)
    requires t != [] && IsBullet(t[0]) && n == LeadingCount(t[1..], Whitespace)
    requires !IsSpace(t[|t| - 1])
    ensures var c := t[1..][n..];
      && c == t[1 + n..] && (forall j :: 1 <= j < 1 + n ==> IsSpace(t[j]))
      && (c != [] ==> !IsSpace(c[0]) && !IsSpace(c[|c| - 1]))
  {
    var u := t[1..];
    assert u[n..] == t[1 + n..];
    forall j | 1 <= j < 1 + n ensures IsSpace(t[j]) {
      assert t[j] == u[j - 1];
    }
  }

  /** Every recommendation is non-empty and is the cleaned form of one of the lines. */
  lemma {:induction false} RecommendationsItems(lines: seq<string>)
    ensures var r := Recommendations(lines);
      |r| <= |lines| && forall k :: 0 <= k < |r| ==> r[k] != [] && exists i :: 0 <= i < |lines| && r[k] == CleanRecommendation(lines[i])
  {
    if lines != [] {
      var init := lines[..|lines| - 1];
      RecommendationsItems(init);
      forall i | 0 <= i < |init| ensures init[i] == lines[i] {
      }
    }
  }

  /** Every line whose cleaned form is not empty contributes that form. */
  lemma {:induction false} RecommendationsComplete(lines: seq<string>, i: nat)
    requires i < |lines| && CleanRecommendation(lines[i]) != []
    ensures CleanRecommendation(lines[i]) in Recommendations(lines)
  {
    var init := lines[..|lines| - 1];
    if i < |lines| - 1 {
      assert init[i] == lines[i];
      RecommendationsComplete(init, i);
    }
  }

  /** The recommendations of consecutive blocks of lines are those of each block, in order. */
  lemma {:induction false} RecommendationsAppend(a: seq<string>, b: seq<string>)
    ensures Recommendations(a + b) == Recommendations(a) + Recommendations(b)
    decreases |b|
  {
    if b != [] {
      var b' := b[..|b| - 1];
      assert (a + b)[..|a + b| - 1] == a + b';
      RecommendationsAppend(a, b');
    } else {
      assert a + b == a;
    }
  }

  /** `get_latest_recommendations`: nothing without a row or a score, else the parsed score, the score and the row's time. */
  method GetLatestRecommendations(technicals: Option<TechnicalsRow>) returns (recommendations: seq<string>, score: Option<string>, at: Option<DateTime>)
    ensures technicals.None? || technicals.value.score.None? || technicals.value.score.value == [] ==>
      recommendations == [] && score.None? && at.None?
    ensures technicals.Some? && technicals.value.score.Some? && technicals.value.score.value != [] ==>
      && recommendations == Recommendations(Split(technicals.value.score.value, '\n'))
      && score == technicals.value.score && at == Some(technicals.value.timestamp)
  {
    if technicals.None? || technicals.value.score.None? || technicals.value.score.value == [] {
      return [], None, None;
    }
    recommendations := ParseRecommendationsText(technicals.value.score.value);
    return recommendations, technicals.value.score, Some(technicals.value.timestamp);
  }

  // ---------------------------------------------------------------------------
  // `get_chart_data`

  /** One point of the chart series. */
  datatype ChartPoint = ChartPoint(
    date: string, close: Option<real>, volume: Option<real>, openInterest: Option<real>,
    rsi14d: Option<real>, macd: Option<real>, stockUs: Option<real>, comNetUs: Option<real>)

  function ChartPointOf(t: TechnicalsRow): ChartPoint
    requires ValidDate(t.timestamp.date)
  {
    ChartPoint(IsoDateText(t.timestamp.date), t.close, t.volume, t.openInterest, t.rsi14d, t.macd, t.stockUs, t.comNetUs)
  }

  /** `a` is later than `b`. */
  predicate Later(a: DateTime, b: DateTime) {
    var (x, y) := (a.date, b.date);
    x.year > y.year || (x.year == y.year && (x.month > y.month || (x.month == y.month && (x.day > y.day
    || (x.day == y.day && (a.hour > b.hour || (a.hour == b.hour && (a.minute > b.minute || (a.minute == b.minute && a.second > b.second)))))))))
  }

  /** The number of rows `LIMIT days` keeps. */
  function ChartLength(rows: seq<TechnicalsRow>, days: nat): (m: nat)
    ensures m <= |rows| && m <= days && (m == |rows| || m == days)
  {
    if days < |rows| then days else |rows|
  }

  /** `list(reversed(s))` */
  function Reverse<T>(s: seq<T>): (r: seq<T>)
    ensures |r| == |s| && forall k :: 0 <= k < |s| ==> r[k] == s[|s| - 1 - k]
  {
    if s == [] then [] else [s[|s| - 1]] + Reverse(s[..|s| - 1])
  }

  /** The rows the chart shows: the first `days` of the query's rows, reversed. */
  function ChartRows(newestFirst: seq<TechnicalsRow>, days: nat): seq<TechnicalsRow> {
    Reverse(newestFirst[..ChartLength(newestFirst, days)])
  }

  /** `get_chart_data(days)`, given the rows of `technicals` newest first (the query's
      `ORDER BY timestamp DESC`): one point per row of `ChartRows`, in its order. */
  method GetChartData(newestFirst: seq<TechnicalsRow>, days: nat) returns (chartData: seq<ChartPoint>)
    requires forall i :: 0 <= i < |newestFirst| ==> ValidDate(newestFirst[i].timestamp.date)
    ensures |chartData| == ChartLength(newestFirst, days)
    ensures forall k :: 0 <= k < |chartData| ==> chartData[k] == ChartPointOf(ChartRows(newestFirst, days)[k])
  {
    var m := ChartLength(newestFirst, days);
    var technicalsData := Reverse(newestFirst[..m]);
    chartData := [];
    var k := 0;
    while k < |technicalsData|
      invariant 0 <= k <= |technicalsData|
      invariant |chartData| == k
      invariant forall j :: 0 <= j < k ==> chartData[j] == ChartPointOf(technicalsData[j])
    {
      chartData := chartData + [ChartPointOf(technicalsData[k])];
      k := k + 1;
    }
  }

  /** If the rows really are newest first, the chart is in ascending time order and holds
      the most recent rows: every row left out is older than every row shown. */
  lemma ChartAscending(newestFirst: seq<TechnicalsRow>, days: nat)
    requires forall i, j :: 0 <= i < j < |newestFirst| ==> Later(newestFirst[i].timestamp, newestFirst[j].timestamp)
    ensures var chart := ChartRows(newestFirst, days);
      && |chart| == ChartLength(newestFirst, days)
      && (forall a, b :: 0 <= a < b < |chart| ==> Later(chart[b].timestamp, chart[a].timestamp))
      && (forall k, j :: 0 <= k < |chart| && |chart| <= j < |newestFirst| ==> Later(chart[k].timestamp, newestFirst[j].timestamp))
  {
    var m := ChartLength(newestFirst, days);
    var chart := ChartRows(newestFirst, days);
    forall k | 0 <= k < |chart| ensures chart[k] == newestFirst[m - 1 - k] {
    }
  }

  // ---------------------------------------------------------------------------
  // `get_position_from_indicator`

  /** No indicator row gives no position; otherwise the row's conclusion, or "MONITOR" when it is empty. */
  function PositionFromIndicator(indicator: Option<IndicatorRow>): (p: Option<string>)
    ensures p.None? <==> indicator.None?
    ensures p.Some? ==> p.value != []
    ensures indicator.Some? && indicator.value.conclusion.Some? && indicator.value.conclusion.value != [] ==>
      p == indicator.value.conclusion
    ensures indicator.Some? && (indicator.value.conclusion.None? || indicator.value.conclusion.value == []) ==>
      p == Some("MONITOR")
  {
    match indicator
    case None => None
    case Some(ind) =>
      if ind.conclusion.Some? && ind.conclusion.value != [] then ind.conclusion else Some("MONITOR")
  }
}
