/**
 * `risk_management.py`: the true range of every row, the ATR as the mean of
 * the last `atrPeriod` true ranges, and the ATR-scaled stop-loss and
 * take-profit around an entry price.
 */
module RiskManagement {
  import opened Wrappers
  import opened Candles
  import Rolling

  datatype Config = Config(atrPeriod: nat, atrMultiplier: real, riskRatio: real)

  /** The constructor's defaults: period 14, multiplier 1.5, ratio 2.0. */
  const DefaultConfig := Config(14, 1.5, 2.0)

  function Abs(x: real): real
  {
    if x < 0.0 then -x else x
  }

  /** The `previous_close` column: the close one row earlier, NaN on row 0. */
  function PreviousCloses(df: seq<Candle>): (pc: seq<Option<real>>)
    ensures |pc| == |df|
    ensures forall i :: 0 <= i < |df| ==> pc[i] == if i == 0 then None else Some(df[i - 1].close)
  {
    seq(|df|, i requires 0 <= i < |df| => if i == 0 then None else Some(df[i - 1].close))
  }

  /**
   * The `tr` column at row `i`: the row-wise maximum of high - low and the
   * two distances to the previous close; pandas skips the NaN distances of
   * row 0, leaving high - low there.
   */
  function TrueRange(df: seq<Candle>, i: nat): (tr: real)
    requires i < |df|
    ensures tr >= df[i].high - df[i].low
    ensures i == 0 ==> tr == df[i].high - df[i].low
    ensures i > 0 ==> tr >= Abs(df[i].high - df[i - 1].close) && tr >= Abs(df[i].low - df[i - 1].close)
    ensures i > 0 ==>
      tr == df[i].high - df[i].low || tr == Abs(df[i].high - df[i - 1].close) || tr == Abs(df[i].low - df[i - 1].close)
    ensures i > 0 || df[i].low <= df[i].high ==> tr >= 0.0
  {
    var range := df[i].high - df[i].low;
    if i == 0 then range
    else
      var up := Abs(df[i].high - df[i - 1].close);
      var down := Abs(df[i].low - df[i - 1].close);
      if range >= up && range >= down then range
      else if up >= down then up
      else down
  }

  function TrueRanges(df: seq<Candle>): (trs: seq<real>)
    ensures |trs| == |df|
    ensures forall i :: 0 <= i < |df| ==> trs[i] == TrueRange(df, i)
  {
    seq(|df|, i requires 0 <= i < |df| => TrueRange(df, i))
  }

  /**
   * `calculate_atr`'s value: the rolling mean of the last `period` true ranges
   * at the last row; `None` (NaN) with fewer than `period` rows.
   */
  function Atr(df: seq<Candle>, period: nat): (atr: Option<real>)
    requires |df| > 0
    ensures atr.Some? <==> 1 <= period <= |df|
  {
    Rolling.RollingMean(TrueRanges(df), period, |df| - 1)
  }

  /** The ATR lies between the smallest and the largest true range it averages. */
  lemma AtrWithinTrueRanges(df: seq<Candle>, period: nat, lo: real, hi: real)
    requires 1 <= period <= |df|
    requires forall i :: |df| - period <= i < |df| ==> lo <= TrueRange(df, i) <= hi
    ensures lo <= Atr(df, period).value <= hi
  {
    var win := Rolling.Window(TrueRanges(df), period, |df| - 1);
    assert forall k :: 0 <= k < period ==> win[k] == TrueRange(df, |df| - period + k);
    Rolling.MeanWithin(win, lo, hi);
  }

  /**
   * The ATR is never negative unless the window reaches back to row 0 and that
   * candle has high < low.
   */
  lemma AtrNonNegative(df: seq<Candle>, period: nat)
    requires 1 <= period <= |df|
    requires period < |df| || df[0].low <= df[0].high
    ensures Atr(df, period).value >= 0.0
  {
    assert forall i :: |df| - period <= i < |df| ==> TrueRange(df, i) >= 0.0;
    var win := Rolling.Window(TrueRanges(df), period, |df| - 1);
    Rolling.MeanWithin(win, 0.0, Rolling.Max(win));
  }

  /** A series whose high, low and close are all one constant has ATR 0. */
  lemma ConstantSeriesAtrZero(df: seq<Candle>, period: nat, c: real)
    requires 1 <= period <= |df|
    requires forall i :: 0 <= i < |df| ==> df[i].high == c && df[i].low == c && df[i].close == c
    ensures Atr(df, period) == Some(0.0)
  {
    assert forall i :: 0 <= i < |df| ==> TrueRange(df, i) == 0.0;
    AtrWithinTrueRanges(df, period, 0.0, 0.0);
  }

  /**
   * `calculate_atr`: adds the `previous_close` and `tr` columns to the frame
   * in place and returns the ATR at its last row.
   */
  method CalculateAtr(cfg: Config, df: Frame) returns (atr: Option<real>)
    requires |df.rows| > 0
    modifies df
    ensures df.rows == old(df.rows)
    ensures df.previousClose == Some(PreviousCloses(df.rows))
    ensures df.tr == Some(TrueRanges(df.rows))
    ensures atr == Atr(df.rows, cfg.atrPeriod)
  {
    df.previousClose := Some(PreviousCloses(df.rows));
    var trs := TrueRanges(df.rows);
    df.tr := Some(trs);
    atr := Rolling.RollingMean(trs, cfg.atrPeriod, |df.rows| - 1);
  }

  /**
   * Outcome of `calculate_dynamic_risk_management`: the two levels, the NaN
   * pair that an undefined ATR produces, or the ValueError for a trend that is
   * neither 'long' nor 'short'.
   */
  datatype RiskOutcome = Levels(stopLoss: real, takeProfit: real) | Undefined | InvalidTrend

  function RiskLevels(cfg: Config, price: real, atr: Option<real>, trend: string): (r: RiskOutcome)
    ensures r.InvalidTrend? <==> trend != "long" && trend != "short"
    ensures r.Undefined? <==> (trend == "long" || trend == "short") && atr.None?
  {
    if trend == "long" then
      if atr.None? then Undefined
      else
        var distance := cfg.atrMultiplier * atr.value;
        Levels(price - distance, price + distance * cfg.riskRatio)
    else if trend == "short" then
      if atr.None? then Undefined
      else
        var distance := cfg.atrMultiplier * atr.value;
        Levels(price + distance, price - distance * cfg.riskRatio)
    else InvalidTrend
  }

  /**
   * With a non-negative multiplier, ATR and ratio, a long has
   * stop <= price <= take and a short take <= price <= stop, and in both the
   * take-profit is `riskRatio` times as far from the price as the stop.
   */
  lemma LevelsOrdered(cfg: Config, price: real, atr: real, trend: string)
    requires cfg.atrMultiplier >= 0.0 && cfg.riskRatio >= 0.0 && atr >= 0.0
    requires trend == "long" || trend == "short"
    ensures RiskLevels(cfg, price, Some(atr), trend).Levels?
    ensures var r := RiskLevels(cfg, price, Some(atr), trend);
      (trend == "long" ==> r.stopLoss <= price <= r.takeProfit) &&
      (trend == "short" ==> r.takeProfit <= price <= r.stopLoss) &&
      Abs(r.takeProfit - price) == cfg.riskRatio * Abs(price - r.stopLoss) &&
      Abs(price - r.stopLoss) == cfg.atrMultiplier * atr
  {
    var d := cfg.atrMultiplier * atr;
    assert d >= 0.0;
    assert d * cfg.riskRatio >= 0.0;
  }

  /** Entry 100, stop distance 5, ratio 2: long 95/110, short 105/90. */
  lemma LevelsExample()
    ensures RiskLevels(Config(14, 1.0, 2.0), 100.0, Some(5.0), "long") == Levels(95.0, 110.0)
    ensures RiskLevels(Config(14, 1.0, 2.0), 100.0, Some(5.0), "short") == Levels(105.0, 90.0)
    ensures RiskLevels(DefaultConfig, 60050.0, Some(200.0), "long") == Levels(59750.0, 60650.0)
  {
  }

  /**
   * `calculate_dynamic_risk_management`: computes the ATR (adding its columns
   * to the frame even when the trend then turns out invalid) and the levels.
   */
  method CalculateDynamicRiskManagement(cfg: Config, df: Frame, price: real, trend: string)
    returns (r: RiskOutcome)
    requires |df.rows| > 0
    modifies df
    ensures df.rows == old(df.rows)
    ensures df.previousClose == Some(PreviousCloses(df.rows))
    ensures df.tr == Some(TrueRanges(df.rows))
    ensures r == RiskLevels(cfg, price, Atr(df.rows, cfg.atrPeriod), trend)
  {
    var atr := CalculateAtr(cfg, df);
    r := RiskLevels(cfg, price, atr, trend);
  }
}
