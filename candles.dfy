/**
 * One kline row as the exchange reports it (timestamp in milliseconds, then
 * open, high, low, close, volume, turnover), and the data frame the bot keeps
 * them in. Prices are exact reals; the string-to-float conversions of the
 * source are not modelled.
 */
module Candles {
  import opened Wrappers

  datatype Candle = Candle(
    timestamp: int,
    open: real,
    high: real,
    low: real,
    close: real,
    volume: real,
    turnover: real)

  function Lows(df: seq<Candle>): (xs: seq<real>)
    ensures |xs| == |df| && forall i :: 0 <= i < |df| ==> xs[i] == df[i].low
  {
    seq(|df|, i requires 0 <= i < |df| => df[i].low)
  }

  function Highs(df: seq<Candle>): (xs: seq<real>)
    ensures |xs| == |df| && forall i :: 0 <= i < |df| ==> xs[i] == df[i].high
  {
    seq(|df|, i requires 0 <= i < |df| => df[i].high)
  }

  function Closes(df: seq<Candle>): (xs: seq<real>)
    ensures |xs| == |df| && forall i :: 0 <= i < |df| ==> xs[i] == df[i].close
  {
    seq(|df|, i requires 0 <= i < |df| => df[i].close)
  }

  /**
   * A data frame: its rows and the two columns that the ATR computation adds
   * to it in place (`None` while the column does not exist yet).
   */
  class Frame {
    var rows: seq<Candle>
    var previousClose: Option<seq<Option<real>>>
    var tr: Option<seq<real>>

    constructor (rows: seq<Candle>)
      ensures this.rows == rows && previousClose == None && tr == None
    {
      this.rows := rows;
      previousClose := None;
      tr := None;
    }
  }
}
