/**
 * The seven mapped tables the import writes to, as constant tables: the
 * class name, the `__tablename__`, and the attribute names the class
 * declares (its mapped columns, in declaration order).
 */
module TableModels {

  /** A mapped class, as the import uses it: `cls.__name__`, `cls.__tablename__` and the
      attribute names the class declares (its mapped columns, in declaration order). */
  datatype TableModel = TableModel(className: string, tableName: string, fields: seq<string>)

  const Technicals := TableModel("Technicals", "technicals",
    ["id", "timestamp", "close", "high", "low", "volume", "open_interest", "implied_volatility"]
    + ["stock_us", "com_net_us", "r3", "r2", "r1", "pivot", "s1", "s2"]
    + ["s3", "ema12", "ema26", "macd", "signal", "rsi_14d", "stochastic_k_14", "stochastic_d_14"]
    + ["d", "atr", "atr_14d", "volatility", "bollinger", "bollinger_upper", "bollinger_lower", "bollinger_width"]
    + ["close_pivot_ratio", "volume_oi_ratio", "gain_14d", "loss_14d", "rs", "decision", "confidence", "direction"]
    + ["score", "conclusion", "row_number", "created_at", "updated_at"])

  const Indicator := TableModel("Indicator", "indicator",
    ["id", "date", "rsi_score", "macd_score", "stochastic_score", "atr_score", "close_pivot", "volume_oi"]
    + ["rsi_norm", "macd_norm", "stoch_k_norm", "atr_norm", "close_pivot_norm", "vol_oi_norm", "indicator", "momentum"]
    + ["macroeco_bonus", "final_indicator", "macroeco_score", "eco", "final_indicator_previous", "previous_macroeco", "previous_rsi", "previous_macd"]
    + ["previous_k", "previous_atr", "previous_close_pivot", "previous_vol_oi", "conclusion", "previous_conclusion", "created_at", "updated_at"])

  const MarketResearch := TableModel("MarketResearch", "market_research",
    ["id", "date", "author", "summary", "keywords", "impact_synthesis", "date_text", "created_at"]
    + ["updated_at"])

  const WeatherData := TableModel("WeatherData", "weather_data",
    ["id", "date", "text", "summary", "keywords", "impact_synthesis", "created_at", "updated_at"])

  const Config := TableModel("Config", "config",
    ["id", "parameter", "indicator", "val_min", "val_max", "step", "current", "new_champion"]
    + ["test", "created_at", "updated_at"])

  const PerformanceTracking := TableModel("PerformanceTracking", "performance_tracking",
    ["id", "performance", "current", "new", "limit", "created_at", "updated_at"])

  const Podcast := TableModel("Podcast", "podcast",
    ["id", "date", "conclusion", "meteo_date", "meteo_conclusion", "press_date", "press_author", "press_text"]
    + ["position", "dialogue", "created_at", "updated_at"])

  /** The seven classes the catalogue imports into. */
  const Models: seq<TableModel> := [Technicals, Indicator, MarketResearch, WeatherData, Config, PerformanceTracking, Podcast]

  /** Distinct classes map to distinct tables. */
  lemma TableNamesDistinct(i: nat, j: nat)
    requires i < j < |Models|
    ensures Models[i].tableName != Models[j].tableName && Models[i].className != Models[j].className
  {
  }
}
