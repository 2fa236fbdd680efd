/**
 * The import catalogue: for every workbook sheet, the table model it fills,
 * the header-to-field mapping (in declaration order) and the fields that go
 * through a converter first; and the lookups over it.
 */
module ExcelMappings {
  import opened Wrappers
  import opened TableModels
  import opened DataTransforms

  datatype MappingEntry = MappingEntry(
    key: string,
    tableModel: TableModel,
    sheetName: string,
    columnMapping: seq<(string, string)>,   // Excel header -> database field, a dict in insertion order
    transforms: map<string, TransformName>)

  /** Some header of the mapping feeds field `f`. */
  predicate IsTarget(mapping: seq<(string, string)>, f: string) {
    exists i :: 0 <= i < |mapping| && mapping[i].1 == f
  }

  predicate Distinct(s: seq<string>) {
    forall i, j :: 0 <= i < j < |s| ==> s[i] != s[j]
  }

  const TechnicalsColumns: seq<(string, string)> :=
    [("Timestamp", "timestamp"), ("CLOSE", "close"), ("HIGH", "high"), ("LOW", "low"), ("VOLUME", "volume"), ("OPEN INTEREST", "open_interest"), ("IMPLIED VOLATILITY", "implied_volatility"), ("STOCK US", "stock_us")]
    + [("COM NET US", "com_net_us"), ("R3", "r3"), ("R2", "r2"), ("R1", "r1"), ("Pivot", "pivot"), ("S1", "s1"), ("S2", "s2"), ("S3", "s3")]
    + [("EMA12", "ema12"), ("EMA26", "ema26"), ("MACD", "macd"), ("SIGNAL", "signal"), ("RSI 14D", "rsi_14d"), ("%D", "d"), ("ATR(14d)", "atr_14d"), ("Limites de Bolinger", "bollinger_width")]
    + [("Gain", "gain_14d"), ("Perte", "loss_14d"), ("Gain(14d)", "gain_14d"), ("Perte(14d)", "loss_14d"), ("RS", "rs"), ("RSI(14d)", "rsi_14d"), ("Stochastic %K (14)", "stochastic_k_14"), ("Stochastic %D (14)", "stochastic_d_14")]
    + [("Close/Pivot", "close_pivot_ratio"), ("Volatility", "volatility"), ("Volume/OI", "volume_oi_ratio"), ("ATR", "atr"), ("BOLLINGER", "bollinger"), ("BANDE SUP", "bollinger_upper"), ("BANDE INF", "bollinger_lower"), ("MOYENNE DECALER", "displaced_average")]
    + [("DECISION", "decision"), ("CONFIANCE", "confidence"), ("DIRECTION", "direction"), ("SCORE", "score"), ("CONCLUSION", "conclusion"), ("ROW", "row_number")]

  const IndicatorColumns: seq<(string, string)> :=
    [("DATE", "date"), ("RSI SCORE", "rsi_score"), ("MACD SCORE", "macd_score"), ("STOCHASTIC SCORE", "stochastic_score"), ("ATR SCORE", "atr_score"), ("# CLOSE/PIVOT", "close_pivot"), ("VOLUME/OI", "volume_oi"), ("RSI NORM", "rsi_norm")]
    + [("MACD NORM", "macd_norm"), ("STOCH %K NORM", "stoch_k_norm"), ("ATR NORM", "atr_norm"), ("CLOSE/PIVOT NORM", "close_pivot_norm"), ("VOL/OI NORM", "vol_oi_norm"), ("INDICATOR", "indicator"), ("MOMENTUM", "momentum"), ("MACROECO BONUS", "macroeco_bonus")]
    + [("FINAL INDICATOR", "final_indicator"), ("CONCLUSION", "conclusion"), ("MACROECO SCORE", "macroeco_score"), ("ECO", "eco"), ("FINAL INDICATOR DERNIER", "final_indicator_previous"), ("DERNIER MACROECO", "previous_macroeco"), ("DERNIER RSI", "previous_rsi"), ("DERNIER MACD", "previous_macd")]
    + [("DERNIER %K", "previous_k"), ("DERNIER ATR", "previous_atr"), ("DERNIER CLOSE/PIVOT", "previous_close_pivot"), ("DERNIER VOL/OI", "previous_vol_oi"), ("DERNIERE CONCLUSION", "previous_conclusion")]

  const BiblioAllColumns: seq<(string, string)> :=
    [("DATE", "date"), ("AUTEUR", "author"), ("RESUME", "summary"), ("MOTS-CLE", "keywords"), ("IMPACT SYNTHETIQUES", "impact_synthesis"), ("DATE TEXT", "date_text")]

  const MeteoAllColumns: seq<(string, string)> :=
    [("DATE", "date"), ("TEXTE", "text"), ("RESUME", "summary"), ("MOTS-CLE", "keywords"), ("IMPACT SYNTHETIQUES", "impact_synthesis")]

  const ConfigColumns: seq<(string, string)> :=
    [("PARAMETRE", "parameter"), ("INDICATOR", "indicator"), ("VAL MIN", "val_min"), ("VAL MAX", "val_max"), ("PAS", "step"), ("ACTUEL", "current"), ("NEW CHAMPION", "new_champion"), ("TEST", "test")]

  const BestPerfColumns: seq<(string, string)> :=
    [("PERFORMANCE", "performance"), ("ACTUELLE", "current"), ("NEW", "new"), ("LIMITE", "limit")]

  const PodcastColumns: seq<(string, string)> :=
    [("DATE", "date"), ("CONCLUSION", "conclusion"), ("METEO DATE", "meteo_date"), ("METEO CONCLUSION", "meteo_conclusion"), ("PRESS DATE", "press_date"), ("PRESS AUTEUR", "press_author"), ("PRESS TEXT", "press_text"), ("POSITION", "position")]
    + [("DIALOGUE", "dialogue")]

  /** `EXCEL_MAPPINGS`, in declaration order. */
  const ExcelMappings: seq<MappingEntry> := [
    MappingEntry("TECHNICALS", Technicals, "TECHNICALS", TechnicalsColumns,
      map["timestamp" := DatetimeTransform, "close" := DecimalTransform, "high" := DecimalTransform, "low" := DecimalTransform, "atr_14d" := DecimalFromStringTransform, "atr" := DecimalFromStringTransform, "gain_14d" := DecimalFromStringTransform, "loss_14d" := DecimalFromStringTransform, "close_pivot_ratio" := DecimalFromStringTransform, "displaced_average" := DecimalFromStringTransform]),
    MappingEntry("INDICATOR", Indicator, "INDICATOR", IndicatorColumns,
      map["date" := DatetimeTransform]),
    MappingEntry("BIBLIO_ALL", MarketResearch, "BIBLIO_ALL", BiblioAllColumns,
      map["date" := DatetimeTransform]),
    MappingEntry("METEO_ALL", WeatherData, "METEO_ALL", MeteoAllColumns,
      map["date" := DatetimeTransform]),
    MappingEntry("CONFIG", Config, "CONFIG", ConfigColumns,
      map[]),
    MappingEntry("BEST PERF", PerformanceTracking, "BEST PERF", BestPerfColumns,
      map[]),
    MappingEntry("PODCAST", Podcast, "PODCAST", PodcastColumns,
      map["date" := DatetimeTransform, "meteo_date" := DatetimeTransform, "press_date" := DatetimeTransform])
  ]

  /** The catalogue keys, in order (`EXCEL_MAPPINGS.keys()`). */
  function Keys(entries: seq<MappingEntry>): (ks: seq<string>)
    ensures |ks| == |entries| && forall i :: 0 <= i < |entries| ==> ks[i] == entries[i].key
  {
    seq(|entries|, i requires 0 <= i < |entries| => entries[i].key)
  }

  /** The first entry of `entries` whose sheet name is `sheetName`. */
  function FindSheet(entries: seq<MappingEntry>, sheetName: string): (r: Option<nat>)
    ensures r.Some? ==> r.value < |entries| && entries[r.value].sheetName == sheetName
    ensures r.Some? ==> forall j :: 0 <= j < r.value ==> entries[j].sheetName != sheetName
    ensures r.None? <==> forall j :: 0 <= j < |entries| ==> entries[j].sheetName != sheetName
  {
    if entries == [] then None
    else if entries[0].sheetName == sheetName then Some(0)
    else match FindSheet(entries[1..], sheetName)
      case None => None
      case Some(i) => Some(i + 1)
  }

  /** `get_sheet_mapping`: the first catalogue entry for the sheet, or `None`. */
  function GetSheetMapping(sheetName: string): (r: Option<MappingEntry>)
    ensures r.Some? <==> exists i :: 0 <= i < |ExcelMappings| && ExcelMappings[i].sheetName == sheetName
    ensures r.Some? ==> r.value in ExcelMappings && r.value.sheetName == sheetName
  {
    match FindSheet(ExcelMappings, sheetName)
    case None => None
    case Some(i) => Some(ExcelMappings[i])
  }

  /** `get_model_for_sheet` */
  function GetModelForSheet(sheetName: string): (r: Option<TableModel>)
    ensures r.None? <==> GetSheetMapping(sheetName).None?
    ensures r.Some? ==> r.value == GetSheetMapping(sheetName).value.tableModel
  {
    match GetSheetMapping(sheetName)
    case None => None
    case Some(m) => Some(m.tableModel)
  }

  /** `get_column_mapping_for_sheet`: the entry's mapping, or `{}` for an unknown sheet. */
  function GetColumnMappingForSheet(sheetName: string): (r: seq<(string, string)>)
    ensures GetSheetMapping(sheetName).None? ==> r == []
    ensures GetSheetMapping(sheetName).Some? ==> r == GetSheetMapping(sheetName).value.columnMapping
  {
    match GetSheetMapping(sheetName)
    case None => []
    case Some(m) => m.columnMapping
  }

  /** `get_all_sheet_names`: one name per entry, in declaration order. */
  function GetAllSheetNames(): (names: seq<string>)
    ensures |names| == |ExcelMappings|
    ensures forall i :: 0 <= i < |ExcelMappings| ==> names[i] == ExcelMappings[i].sheetName
  {
    seq(|ExcelMappings|, i requires 0 <= i < |ExcelMappings| => ExcelMappings[i].sheetName)
  }

  // ---------------------------------------------------------------------------
  // Properties of the catalogue

  /** Every entry is keyed by its own sheet name, and no two entries share one. */
  lemma KeysAreSheetNames()
    ensures forall i :: 0 <= i < |ExcelMappings| ==> ExcelMappings[i].key == ExcelMappings[i].sheetName
    ensures Distinct(GetAllSheetNames())
  {
  }

  /** Looking an entry up by its sheet name (which is also its key) finds that very entry. */
  lemma LookupBySheetNameFindsEntry(i: nat)
    requires i < |ExcelMappings|
    ensures GetSheetMapping(ExcelMappings[i].key) == Some(ExcelMappings[i])
  {
    KeysAreSheetNames();
    var r := FindSheet(ExcelMappings, ExcelMappings[i].sheetName);
    assert GetAllSheetNames()[r.value] == GetAllSheetNames()[i];
  }

  /** Every transform names one of the three converters (by its type) and a field the entry's mapping fills. */
  lemma TransformKeysAreTargets(i: nat)
    requires i < |ExcelMappings|
    ensures forall f :: f in ExcelMappings[i].transforms ==> IsTarget(ExcelMappings[i].columnMapping, f)
  {
    if i == 0 {
      assert TechnicalsColumns[0].1 == "timestamp";
      assert TechnicalsColumns[1].1 == "close";
      assert TechnicalsColumns[2].1 == "high";
      assert TechnicalsColumns[3].1 == "low";
      assert TechnicalsColumns[22].1 == "atr_14d";
      assert TechnicalsColumns[35].1 == "atr";
      assert TechnicalsColumns[24].1 == "gain_14d";
      assert TechnicalsColumns[25].1 == "loss_14d";
      assert TechnicalsColumns[32].1 == "close_pivot_ratio";
      assert TechnicalsColumns[39].1 == "displaced_average";
    }
    if i == 1 {
      assert IndicatorColumns[0].1 == "date";
    }
    if i == 2 {
      assert BiblioAllColumns[0].1 == "date";
    }
    if i == 3 {
      assert MeteoAllColumns[0].1 == "date";
    }
    if i == 6 {
      assert PodcastColumns[0].1 == "date";
      assert PodcastColumns[2].1 == "meteo_date";
      assert PodcastColumns[4].1 == "press_date";
    }
  }

  /** The alias headers: two headers each feed `rsi_14d`, `gain_14d` and `loss_14d`. */
  lemma TechnicalsAliases()
    ensures TechnicalsColumns[20] == ("RSI 14D", "rsi_14d") && TechnicalsColumns[29] == ("RSI(14d)", "rsi_14d")
    ensures TechnicalsColumns[24] == ("Gain", "gain_14d") && TechnicalsColumns[26] == ("Gain(14d)", "gain_14d")
    ensures TechnicalsColumns[25] == ("Perte", "loss_14d") && TechnicalsColumns[27] == ("Perte(14d)", "loss_14d")
  {
  }

  predicate IsFieldOrDisplaced(m: TableModel, f: string) {
    f in m.fields || f == "displaced_average"
  }

  /** Every mapped field is an attribute of the entry's table model, except `displaced_average`. */
  lemma TargetsAreModelFields(i: nat)
    requires i < |ExcelMappings|
    ensures forall j :: 0 <= j < |ExcelMappings[i].columnMapping| ==>
      IsFieldOrDisplaced(ExcelMappings[i].tableModel, ExcelMappings[i].columnMapping[j].1)
  {
    if i == 0 {
      TechnicalsChunk0();
      TechnicalsChunk8();
      TechnicalsChunk16();
      TechnicalsChunk24();
      TechnicalsChunk32();
      TechnicalsChunk40();
    } else if i == 1 {
      IndicatorFieldsMapped();
    } else if i == 2 {
      BiblioAllFieldsMapped();
    } else if i == 3 {
      MeteoAllFieldsMapped();
    } else if i == 4 {
      ConfigFieldsMapped();
    } else if i == 5 {
      BestPerfFieldsMapped();
    } else {
      PodcastFieldsMapped();
    }
  }

  lemma TechnicalsChunk0()
    ensures forall j :: 0 <= j < 8 ==> IsFieldOrDisplaced(Technicals, TechnicalsColumns[j].1)
  {
  }

  lemma TechnicalsChunk8()
    ensures forall j :: 8 <= j < 16 ==> IsFieldOrDisplaced(Technicals, TechnicalsColumns[j].1)
  {
  }

  lemma TechnicalsChunk16()
    ensures forall j :: 16 <= j < 24 ==> IsFieldOrDisplaced(Technicals, TechnicalsColumns[j].1)
  {
  }

  lemma TechnicalsChunk24()
    ensures forall j :: 24 <= j < 32 ==> IsFieldOrDisplaced(Technicals, TechnicalsColumns[j].1)
  {
  }

  lemma TechnicalsChunk32()
    ensures forall j :: 32 <= j < 40 ==> IsFieldOrDisplaced(Technicals, TechnicalsColumns[j].1)
  {
  }

  lemma TechnicalsChunk40()
    ensures forall j :: 40 <= j < 46 ==> IsFieldOrDisplaced(Technicals, TechnicalsColumns[j].1)
  {
  }

  lemma IndicatorFieldsMapped()
    ensures forall j :: 0 <= j < |IndicatorColumns| ==> IsFieldOrDisplaced(Indicator, IndicatorColumns[j].1)
  {
    assert forall j :: 0 <= j < 8 ==> IsFieldOrDisplaced(Indicator, IndicatorColumns[j].1);
    assert forall j :: 8 <= j < 16 ==> IsFieldOrDisplaced(Indicator, IndicatorColumns[j].1);
    assert forall j :: 16 <= j < 24 ==> IsFieldOrDisplaced(Indicator, IndicatorColumns[j].1);
    assert forall j :: 24 <= j < 29 ==> IsFieldOrDisplaced(Indicator, IndicatorColumns[j].1);
  }

  lemma BiblioAllFieldsMapped()
    ensures forall j :: 0 <= j < |BiblioAllColumns| ==> IsFieldOrDisplaced(MarketResearch, BiblioAllColumns[j].1)
  {
    assert forall j :: 0 <= j < 6 ==> IsFieldOrDisplaced(MarketResearch, BiblioAllColumns[j].1);
  }

  lemma MeteoAllFieldsMapped()
    ensures forall j :: 0 <= j < |MeteoAllColumns| ==> IsFieldOrDisplaced(WeatherData, MeteoAllColumns[j].1)
  {
    assert forall j :: 0 <= j < 5 ==> IsFieldOrDisplaced(WeatherData, MeteoAllColumns[j].1);
  }

  lemma ConfigFieldsMapped()
    ensures forall j :: 0 <= j < |ConfigColumns| ==> IsFieldOrDisplaced(Config, ConfigColumns[j].1)
  {
    assert forall j :: 0 <= j < 8 ==> IsFieldOrDisplaced(Config, ConfigColumns[j].1);
  }

  lemma BestPerfFieldsMapped()
    ensures forall j :: 0 <= j < |BestPerfColumns| ==> IsFieldOrDisplaced(PerformanceTracking, BestPerfColumns[j].1)
  {
    assert forall j :: 0 <= j < 4 ==> IsFieldOrDisplaced(PerformanceTracking, BestPerfColumns[j].1);
  }

  lemma PodcastFieldsMapped()
    ensures forall j :: 0 <= j < |PodcastColumns| ==> IsFieldOrDisplaced(Podcast, PodcastColumns[j].1)
  {
    assert forall j :: 0 <= j < 8 ==> IsFieldOrDisplaced(Podcast, PodcastColumns[j].1);
    assert forall j :: 8 <= j < 9 ==> IsFieldOrDisplaced(Podcast, PodcastColumns[j].1);
  }

  /** The Technicals header "MOYENNE DECALER" feeds `displaced_average`, which the Technicals model does not declare. */
  lemma DisplacedAverageIsNotAField()
    ensures ExcelMappings[0].tableModel == Technicals && ExcelMappings[0].columnMapping[39] == ("MOYENNE DECALER", "displaced_average")
    ensures ExcelMappings[0].transforms["displaced_average"] == DecimalFromStringTransform
  {
  }

  lemma DisplacedAverageNotDeclared()
    ensures "displaced_average" !in Technicals.fields
  {
    var x := "displaced_average";
    var a := ["id", "timestamp", "close", "high", "low", "volume", "open_interest", "implied_volatility"];
    var b := ["stock_us", "com_net_us", "r3", "r2", "r1", "pivot", "s1", "s2"];
    var c := ["s3", "ema12", "ema26", "macd", "signal", "rsi_14d", "stochastic_k_14", "stochastic_d_14"];
    var d := ["d", "atr", "atr_14d", "volatility", "bollinger", "bollinger_upper", "bollinger_lower", "bollinger_width"];
    var e := ["close_pivot_ratio", "volume_oi_ratio", "gain_14d", "loss_14d", "rs", "decision", "confidence", "direction"];
    var f := ["score", "conclusion", "row_number", "created_at", "updated_at"];
    assert Technicals.fields == a + b + c + d + e + f;
    assert x !in a && x !in b && x !in c;
    assert x !in d && x !in e && x !in f;
  }
}
