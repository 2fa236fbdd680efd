/**
 * The dashboard transformers: the rules that turn rows and service results
 * into response records — the gauge of one indicator built from a technicals
 * row, the position with its default, the indicator grid and the text
 * defaults of the news and weather cards.
 */
module DashboardTransformers {
  import opened Wrappers
  import opened DateUtils
  import opened TestRangeModel
  import opened DashboardService

  // ---------------------------------------------------------------------------
  // `create_indicator_for_gauge`

  /** A technicals object as `hasattr`/`getattr` see it: the attributes it has, each with
      its value (`None` for a null column). */
  datatype TechnicalsObject = TechnicalsObject(attrs: map<string, Option<real>>)

  /** `indicator_mappings`: indicator name to technicals attribute. */
  const IndicatorAttributes: map<string, string> := map[
    "macroeco" := "macroeco", "rsi" := "rsi_14d", "macd" := "macd",
    "percent_k" := "percent_k", "atr" := "atr", "vol_oi" := "vol_oi"]

  /** `display_names`: indicator name to gauge label. */
  const DisplayNames: map<string, string> := map[
    "macroeco" := "MACROECO", "rsi" := "RSI", "macd" := "MACD",
    "percent_k" := "%K", "atr" := "ATR", "vol_oi" := "VOL/OI"]

  function UnknownIndicator(name: string): string { "Unknown indicator: " + name }
  function MissingAttribute(attr: string): string { "Technicals object missing attribute: " + attr }
  function NoValue(name: string): string { "No value available for indicator: " + name }
  function NoRanges(name: string): string { "No ranges defined for indicator '" + name + "' in test_range table" }

  /** `create_indicator_for_gauge`: the four `ValueError`s in the order the source checks
      them, else the gauge of the value over the given ranges. */
  function CreateIndicator(name: string, technicals: TechnicalsObject, ranges: seq<RangeRow>): (r: Result<IndicatorData, string>)
    ensures name !in IndicatorAttributes ==> r == Failure(UnknownIndicator(name))
    ensures name in IndicatorAttributes && IndicatorAttributes[name] !in technicals.attrs ==>
      r == Failure(MissingAttribute(IndicatorAttributes[name]))
    ensures (name in IndicatorAttributes && IndicatorAttributes[name] in technicals.attrs
             && technicals.attrs[IndicatorAttributes[name]].None?) ==> r == Failure(NoValue(name))
    ensures (name in IndicatorAttributes && IndicatorAttributes[name] in technicals.attrs
             && technicals.attrs[IndicatorAttributes[name]].Some? && ranges == []) ==> r == Failure(NoRanges(name))
    ensures r.Success? <==> (name in IndicatorAttributes && IndicatorAttributes[name] in technicals.attrs
                             && technicals.attrs[IndicatorAttributes[name]].Some? && ranges != [])
  {
    if name !in IndicatorAttributes then Failure(UnknownIndicator(name))
    else
      var attr := IndicatorAttributes[name];
      if attr !in technicals.attrs then Failure(MissingAttribute(attr))
      else if technicals.attrs[attr].None? then Failure(NoValue(name))
      else if ranges == [] then Failure(NoRanges(name))
      else Success(GaugeOf(technicals.attrs[attr].value, DisplayNames[name], ranges))
  }

  /** The body of `create_indicator_for_gauge`, with its `all_values` loop. */
  method CreateIndicatorForGauge(name: string, technicals: TechnicalsObject, ranges: seq<RangeRow>) returns (r: Result<IndicatorData, string>)
    ensures r == CreateIndicator(name, technicals, ranges)
  {
    if name !in IndicatorAttributes {
      return Failure(UnknownIndicator(name));
    }
    var attr := IndicatorAttributes[name];
    if attr !in technicals.attrs {
      return Failure(MissingAttribute(attr));
    }
    var value := technicals.attrs[attr];
    if value.None? {
      return Failure(NoValue(name));
    }
    if ranges == [] {
      return Failure(NoRanges(name));
    }
    var allValues := CollectBounds(ranges);
    r := Success(IndicatorData(value.value, SeqMin(allValues), SeqMax(allValues), DisplayNames[name], RangeViews(ranges)));
  }

  /** A gauge that is built carries the attribute's value and the fixed label of its name;
      its minimum and maximum are bounds of its ranges and enclose every bound; its ranges
      are the given ones, in their order. */
  lemma GaugeOnSuccess(name: string, technicals: TechnicalsObject, ranges: seq<RangeRow>)
    requires CreateIndicator(name, technicals, ranges).Success?
    ensures var g := CreateIndicator(name, technicals, ranges).value;
      && Some(g.value) == technicals.attrs[IndicatorAttributes[name]]
      && g.labelText == DisplayNames[name]
      && |g.ranges| == |ranges|
      && (forall k :: 0 <= k < |ranges| ==>
            g.ranges[k] == RangeView(ranges[k].rangeLow, ranges[k].rangeHigh, ranges[k].area))
      && (exists k :: 0 <= k < |ranges| && (g.min == ranges[k].rangeLow || g.min == ranges[k].rangeHigh))
      && (exists k :: 0 <= k < |ranges| && (g.max == ranges[k].rangeLow || g.max == ranges[k].rangeHigh))
      && (forall k :: 0 <= k < |ranges| ==>
            g.min <= ranges[k].rangeLow <= g.max && g.min <= ranges[k].rangeHigh <= g.max)
  {
    var g := CreateIndicator(name, technicals, ranges).value;
    GaugeSpansRanges(g.value, DisplayNames[name], ranges);
  }

  /** The columns of the `Technicals` model that `create_indicator_for_gauge` receives,
      section by section. */
  const PriceColumns: set<string> := {"id", "timestamp", "commodity_symbol", "close", "high", "low", "volume", "open_interest"}
  const MarketColumns: set<string> := {"implied_volatility", "stock_us", "com_net_us", "r3", "r2", "r1", "pivot", "s1", "s2", "s3"}
  const MomentumColumns: set<string> := {"ema12", "ema26", "macd", "signal", "rsi_14d", "stochastic_k_14", "stochastic_d_14", "atr"}
  const VolatilityColumns: set<string> := {"atr_14d", "volatility", "bollinger", "bollinger_upper", "bollinger_lower", "bollinger_width"}
  const RatioColumns: set<string> := {"close_pivot_ratio", "volume_oi_ratio", "gain_14d", "loss_14d", "rs", "decision", "confidence"}
  const SignalColumns: set<string> := {"direction", "score", "conclusion", "row_number", "created_at", "updated_at"}
  const TechnicalsColumns: set<string> :=
    PriceColumns + MarketColumns + MomentumColumns + VolatilityColumns + RatioColumns + SignalColumns

  predicate LacksGaugeOnlyAttributes(columns: set<string>) {
    "macroeco" !in columns && "percent_k" !in columns && "vol_oi" !in columns
  }

  lemma TechnicalsLacksGaugeOnlyAttributes()
    ensures LacksGaugeOnlyAttributes(TechnicalsColumns)
  {
    PriceAndMarketLack();
    MomentumAndVolatilityLack();
    RatiosAndSignalsLack();
  }

  lemma PriceAndMarketLack()
    ensures LacksGaugeOnlyAttributes(PriceColumns) && LacksGaugeOnlyAttributes(MarketColumns)
  {
  }

  lemma MomentumAndVolatilityLack()
    ensures LacksGaugeOnlyAttributes(MomentumColumns) && LacksGaugeOnlyAttributes(VolatilityColumns)
  {
  }

  lemma RatiosAndSignalsLack()
    ensures LacksGaugeOnlyAttributes(RatioColumns) && LacksGaugeOnlyAttributes(SignalColumns)
  {
  }

  /** Three of the six names point at attributes the `Technicals` model does not declare,
      so for a row of that model they always raise "missing attribute". */
  lemma GaugeAttributesMissingFromTechnicals(technicals: TechnicalsObject, ranges: seq<RangeRow>)
    requires technicals.attrs.Keys == TechnicalsColumns
    ensures CreateIndicator("macroeco", technicals, ranges) == Failure(MissingAttribute("macroeco"))
    ensures CreateIndicator("percent_k", technicals, ranges) == Failure(MissingAttribute("percent_k"))
    ensures CreateIndicator("vol_oi", technicals, ranges) == Failure(MissingAttribute("vol_oi"))
  {
    TechnicalsLacksGaugeOnlyAttributes();
  }

  // ---------------------------------------------------------------------------
  // `transform_to_position_status_response`

  const Positions: seq<string> := ["OPEN", "HEDGE", "MONITOR"]

  datatype PositionStatusResponse = PositionStatusResponse(date: DateTime, position: string, ytdPerformance: real)

  /** A missing, empty or unknown position becomes "MONITOR"; a known one is kept. */
  function TransformToPositionStatus(position: Option<string>, ytdPerformance: real, responseDate: DateTime): (r: PositionStatusResponse)
    ensures r.position in Positions
    ensures position.Some? && position.value in Positions ==> r.position == position.value
    ensures !(position.Some? && position.value in Positions) ==> r.position == "MONITOR"
    ensures r.date == responseDate && r.ytdPerformance == ytdPerformance
  {
    var p := if position.None? || position.value == [] || position.value !in Positions then "MONITOR" else position.value;
    PositionStatusResponse(responseDate, p, ytdPerformance)
  }

  /** Feeding a response's position back in leaves it as it is. */
  lemma PositionIdempotent(position: Option<string>, ytdPerformance: real, responseDate: DateTime)
    ensures var r := TransformToPositionStatus(position, ytdPerformance, responseDate);
      TransformToPositionStatus(Some(r.position), ytdPerformance, responseDate) == r
  {
  }

  /** The service's position reaches the response unchanged exactly when the indicator row's
      conclusion is one of the three positions or is empty (which the service already turns
      into "MONITOR"); no row at all also gives "MONITOR". */
  lemma ServicePositionInResponse(indicator: Option<IndicatorRow>, ytdPerformance: real, responseDate: DateTime)
    ensures var p := PositionFromIndicator(indicator);
      var r := TransformToPositionStatus(p, ytdPerformance, responseDate);
      && (indicator.None? ==> r.position == "MONITOR")
      && (indicator.Some? ==> (r.position == p.value <==> p.value in Positions))
  {
  }

  // ---------------------------------------------------------------------------
  // `transform_to_indicators_grid_response`

  datatype IndicatorsGridResponse = IndicatorsGridResponse(date: DateTime, indicators: map<string, IndicatorData>)

  /** The loop over `indicators_data.items()`: every entry is copied field by field under its
      own key, and the date becomes midnight of the response date. */
  method TransformToIndicatorsGrid(indicatorsData: map<string, IndicatorData>, responseDate: Date) returns (resp: IndicatorsGridResponse)
    ensures resp.indicators.Keys == indicatorsData.Keys
    ensures forall k :: k in indicatorsData ==> resp.indicators[k] == indicatorsData[k]
    ensures resp.date == Midnight(responseDate)
  {
    var indicators: map<string, IndicatorData> := map[];
    var remaining := indicatorsData.Keys;
    while remaining != {}
      invariant remaining <= indicatorsData.Keys
      invariant indicators.Keys == indicatorsData.Keys - remaining
      invariant forall k :: k in indicators ==> indicators[k] == indicatorsData[k]
      decreases |remaining|
    {
      var name :| name in remaining;
      var data := indicatorsData[name];
      var ranges := seq(|data.ranges|, k requires 0 <= k < |data.ranges| =>
        RangeView(data.ranges[k].rangeLow, data.ranges[k].rangeHigh, data.ranges[k].area));
      assert ranges == data.ranges;
      indicators := indicators[name := IndicatorData(data.value, data.min, data.max, data.labelText, ranges)];
      remaining := remaining - {name};
    }
    resp := IndicatorsGridResponse(Midnight(responseDate), indicators);
  }

  // ---------------------------------------------------------------------------
  // `transform_market_research_to_news` and `transform_weather_data_to_response`

  /** `value or default` on a text column. */
  function OrDefault(value: Option<string>, default: string): (r: string)
    ensures value.Some? && value.value != [] ==> r == value.value
    ensures value.None? || value.value == [] ==> r == default
  {
    if value.Some? && value.value != [] then value.value else default
  }

  datatype MarketResearchRow = MarketResearchRow(date: DateTime, impactSynthesis: Option<string>, summary: Option<string>, author: Option<string>)
  datatype NewsResponse = NewsResponse(date: string, title: string, content: string, author: string)

  const DefaultTitle := "Market Research Update"
  const DefaultContent := "No summary available"
  const DefaultAuthor := "Market Research Team"

  /** The news card: the row's display date; each text column, or its default where it is empty. */
  function TransformMarketResearchToNews(m: MarketResearchRow): (r: NewsResponse)
    requires ValidDate(m.date.date)
    ensures r.date == FormatDateForDisplay(m.date.date)
    ensures r.title != [] && r.content != [] && r.author != []
    ensures r.title == DefaultTitle || Some(r.title) == m.impactSynthesis
    ensures r.content == DefaultContent || Some(r.content) == m.summary
    ensures r.author == DefaultAuthor || Some(r.author) == m.author
  {
    NewsResponse(FormatDateForDisplay(m.date.date), OrDefault(m.impactSynthesis, DefaultTitle),
      OrDefault(m.summary, DefaultContent), OrDefault(m.author, DefaultAuthor))
  }

  datatype WeatherRow = WeatherRow(date: DateTime, summary: Option<string>, impactSynthesis: Option<string>)
  datatype WeatherResponse = WeatherResponse(date: string, description: string, impact: string)

  const DefaultDescription := "No weather description available"
  const DefaultImpact := "No market impact assessment available"

  /** The weather card: the row's display date; summary and impact, or their defaults where empty. */
  function TransformWeatherDataToResponse(w: WeatherRow): (r: WeatherResponse)
    requires ValidDate(w.date.date)
    ensures r.date == FormatDateForDisplay(w.date.date)
    ensures r.description != [] && r.impact != []
    ensures r.description == DefaultDescription || Some(r.description) == w.summary
    ensures r.impact == DefaultImpact || Some(r.impact) == w.impactSynthesis
  {
    WeatherResponse(FormatDateForDisplay(w.date.date), OrDefault(w.summary, DefaultDescription),
      OrDefault(w.impactSynthesis, DefaultImpact))
  }

  /** A default text appears exactly when the column is empty: a column holding the default
      text itself is the only way to see it otherwise. */
  lemma NewsDefaultsExactly(m: MarketResearchRow)
    requires ValidDate(m.date.date)
    ensures var r := TransformMarketResearchToNews(m);
      && (m.impactSynthesis.None? || m.impactSynthesis.value == [] <==> r.title == DefaultTitle && m.impactSynthesis != Some(DefaultTitle))
      && (m.summary.None? || m.summary.value == [] <==> r.content == DefaultContent && m.summary != Some(DefaultContent))
      && (m.author.None? || m.author.value == [] <==> r.author == DefaultAuthor && m.author != Some(DefaultAuthor))
  {
  }

  lemma WeatherDefaultsExactly(w: WeatherRow)
    requires ValidDate(w.date.date)
    ensures var r := TransformWeatherDataToResponse(w);
      && (w.summary.None? || w.summary.value == [] <==> r.description == DefaultDescription && w.summary != Some(DefaultDescription))
      && (w.impactSynthesis.None? || w.impactSynthesis.value == [] <==> r.impact == DefaultImpact && w.impactSynthesis != Some(DefaultImpact))
  {
  }
}
