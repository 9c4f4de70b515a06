/**
 * The support/resistance strategy of `strategy.py`: sorting the kline rows,
 * the 20-row rolling support (lowest low) and resistance (highest high), and
 * the 1% proximity rule that answers long, short or nothing.
 */
module Strategy {
  import opened Wrappers
  import opened Candles
  import Rolling

  /** Rows in the rolling support/resistance window. */
  const SupportResistanceWindow: nat := 20
  /** Proximity threshold: 1%. */
  const Threshold: real := 0.01

  datatype Signal = Long | Short

  predicate SortedByTimestamp(df: seq<Candle>)
  {
    forall i, j :: 0 <= i < j < |df| ==> df[i].timestamp <= df[j].timestamp
  }

  /** Inserts one row into a frame already sorted by timestamp. */
  function InsertByTimestamp(c: Candle, df: seq<Candle>): (r: seq<Candle>)
    requires SortedByTimestamp(df)
    ensures SortedByTimestamp(r)
    ensures multiset(r) == multiset(df) + multiset{c}
    ensures |r| == |df| + 1
    ensures r[0] == c || (|df| > 0 && r[0] == df[0])
  {
    if |df| == 0 then [c]
    else if c.timestamp <= df[0].timestamp then [c] + df
    else
      var tail := InsertByTimestamp(c, df[1..]);
      assert df == [df[0]] + df[1..];
      [df[0]] + tail
  }

  function SortByTimestamp(rows: seq<Candle>): (df: seq<Candle>)
    ensures SortedByTimestamp(df)
    ensures multiset(df) == multiset(rows)
  {
    if |rows| == 0 then []
    else
      assert rows == [rows[0]] + rows[1..];
      InsertByTimestamp(rows[0], SortByTimestamp(rows[1..]))
  }

  /**
   * `prepare_dataframe`: the rows ordered ascending by timestamp. An empty
   * kline list cannot be given the seven column names and raises, which is
   * `None` here.
   */
  function PrepareDataframe(rows: seq<Candle>): (df: Option<seq<Candle>>)
    ensures df.None? <==> |rows| == 0
    ensures df.Some? ==> SortedByTimestamp(df.value) && multiset(df.value) == multiset(rows)
  {
    if |rows| == 0 then None else Some(SortByTimestamp(rows))
  }

  /** The rolling 20-row minimum of `low` at the last row; `None` for NaN. */
  function Support(df: seq<Candle>): (s: Option<real>)
    requires |df| > 0
    ensures s.Some? <==> |df| >= SupportResistanceWindow
    ensures s.Some? ==> forall i :: |df| - SupportResistanceWindow <= i < |df| ==> s.value <= df[i].low
    ensures s.Some? ==> exists i :: |df| - SupportResistanceWindow <= i < |df| && s.value == df[i].low
  {
    var r := Rolling.RollingMin(Lows(df), SupportResistanceWindow, |df| - 1);
    if r.Some? then
      var win := Rolling.Window(Lows(df), SupportResistanceWindow, |df| - 1);
      assert forall i :: |df| - SupportResistanceWindow <= i < |df| ==>
        df[i].low == win[i - (|df| - SupportResistanceWindow)];
      r
    else r
  }

  /** The rolling 20-row maximum of `high` at the last row; `None` for NaN. */
  function Resistance(df: seq<Candle>): (s: Option<real>)
    requires |df| > 0
    ensures s.Some? <==> |df| >= SupportResistanceWindow
    ensures s.Some? ==> forall i :: |df| - SupportResistanceWindow <= i < |df| ==> df[i].high <= s.value
    ensures s.Some? ==> exists i :: |df| - SupportResistanceWindow <= i < |df| && s.value == df[i].high
  {
    var r := Rolling.RollingMax(Highs(df), SupportResistanceWindow, |df| - 1);
    if r.Some? then
      var win := Rolling.Window(Highs(df), SupportResistanceWindow, |df| - 1);
      assert forall i :: |df| - SupportResistanceWindow <= i < |df| ==>
        df[i].high == win[i - (|df| - SupportResistanceWindow)];
      r
    else r
  }

  /** `identify_support_resistance`: the pair (support, resistance). */
  function IdentifySupportResistance(df: seq<Candle>): (levels: (Option<real>, Option<real>))
    requires |df| > 0
    ensures levels.0 == Support(df) && levels.1 == Resistance(df)
  {
    (Support(df), Resistance(df))
  }

  /** When every candle in the window has low <= high, support <= resistance. */
  lemma SupportAtMostResistance(df: seq<Candle>)
    requires |df| >= SupportResistanceWindow
    requires forall i :: |df| - SupportResistanceWindow <= i < |df| ==> df[i].low <= df[i].high
    ensures Support(df).value <= Resistance(df).value
  {
    var i :| |df| - SupportResistanceWindow <= i < |df| && Support(df).value == df[i].low;
    assert df[i].high <= Resistance(df).value;
  }

  /**
   * `support_resistance_strategy`: long when the price is within 1% above
   * support, otherwise short when it is within 1% below resistance. A NaN
   * level (`None`) makes its comparison false.
   */
  function SupportResistanceStrategy(price: real, support: Option<real>, resistance: Option<real>): (r: Option<Signal>)
    ensures r == Some(Long) <==> support.Some? && price <= support.value * (1.0 + Threshold)
    ensures r == Some(Short) <==>
      !(support.Some? && price <= support.value * (1.0 + Threshold)) &&
      resistance.Some? && price >= resistance.value * (1.0 - Threshold)
  {
    if support.Some? && price <= support.value * (1.0 + Threshold) then Some(Long)
    else if resistance.Some? && price >= resistance.value * (1.0 - Threshold) then Some(Short)
    else None
  }

  /** With no level computed (fewer than 20 rows) there is never a signal. */
  lemma InsufficientDataNoSignal(df: seq<Candle>, price: real)
    requires 0 < |df| < SupportResistanceWindow
    ensures SupportResistanceStrategy(price, Support(df), Resistance(df)) == None
  {
  }

  /** A price near both levels opens long: the support test comes first. */
  lemma LongTakesPrecedence(price: real, support: real, resistance: real)
    requires price <= support * 1.01 && price >= resistance * 0.99
    ensures SupportResistanceStrategy(price, Some(support), Some(resistance)) == Some(Long)
  {
  }

  /** Support 60000, resistance 62000, price 60050: long. */
  lemma ProximityExample()
    ensures SupportResistanceStrategy(60050.0, Some(60000.0), Some(62000.0)) == Some(Long)
    ensures SupportResistanceStrategy(61500.0, Some(60000.0), Some(62000.0)) == Some(Short)
    ensures SupportResistanceStrategy(61000.0, Some(60000.0), Some(62000.0)) == None
  {
  }
}
