/**
 * `indicators.py`: exponential moving averages (pandas `ewm(adjust=False)`),
 * MACD and its signal line, RSI over rolling mean gains and losses, the
 * stochastic oscillator and the Bollinger bands. Every series has one entry
 * per row; `None` stands for pandas' NaN.
 */
module Indicators {
  import opened Wrappers
  import opened Candles
  import Rolling

  const RsiPeriod: nat := 14
  const StochasticPeriod: nat := 14
  const StochasticSmoothing: nat := 3
  const BollingerWindow: nat := 20

  /** The smoothing factor pandas derives from a span: 2 / (span + 1). */
  function Alpha(span: nat): (a: real)
    requires span >= 1
    ensures 0.0 < a <= 1.0
  {
    2.0 / (span as real + 1.0)
  }

  /**
   * The EMA series: the first value is the first input, then each value mixes
   * the new input with the previous value.
   */
  function Ema(xs: seq<real>, alpha: real): (e: seq<real>)
    ensures |e| == |xs|
    ensures |xs| > 0 ==> e[0] == xs[0]
    decreases |xs|
  {
    if |xs| == 0 then []
    else if |xs| == 1 then [xs[0]]
    else
      var prev := Ema(xs[..|xs| - 1], alpha);
      prev + [alpha * xs[|xs| - 1] + (1.0 - alpha) * prev[|prev| - 1]]
  }

  /** Unfolds the EMA of a series of two or more values at its last value. */
  lemma EmaSnoc(xs: seq<real>, alpha: real)
    requires |xs| >= 2
    ensures var prev := Ema(xs[..|xs| - 1], alpha);
      Ema(xs, alpha)[..|xs| - 1] == prev &&
      Ema(xs, alpha)[|xs| - 1] == alpha * xs[|xs| - 1] + (1.0 - alpha) * prev[|xs| - 2]
  {
    var prev := Ema(xs[..|xs| - 1], alpha);
    assert |prev| == |xs| - 1;
    var last := alpha * xs[|xs| - 1] + (1.0 - alpha) * prev[|prev| - 1];
    assert Ema(xs, alpha) == prev + [last] by {
      assert |xs| != 0 && |xs| != 1;
    }
    assert (prev + [last])[..|xs| - 1] == prev;
    assert (prev + [last])[|xs| - 1] == last;
  }

  /** The EMA of a prefix is the prefix of the EMA. */
  lemma {:induction false} EmaPrefix(xs: seq<real>, alpha: real, k: nat)
    requires k <= |xs|
    ensures Ema(xs[..k], alpha) == Ema(xs, alpha)[..k]
    decreases |xs|
  {
    if k < |xs| {
      var init := xs[..|xs| - 1];
      assert xs[..k] == init[..k];
      EmaPrefix(init, alpha, k);
      if |xs| >= 2 {
        assert Ema(xs, alpha)[..|xs| - 1] == Ema(init, alpha);
      }
    } else {
      assert xs[..k] == xs;
    }
  }

  /** The recurrence: e[0] = x[0] and e[i] = alpha * x[i] + (1 - alpha) * e[i - 1]. */
  lemma EmaRecurrence(xs: seq<real>, alpha: real, i: nat)
    requires i < |xs|
    ensures Ema(xs, alpha)[0] == xs[0]
    ensures i > 0 ==> Ema(xs, alpha)[i] == alpha * xs[i] + (1.0 - alpha) * Ema(xs, alpha)[i - 1]
  {
    var e := Ema(xs, alpha);
    EmaPrefix(xs, alpha, 1);
    assert xs[..1] == [xs[0]];
    assert e[..1] == [xs[0]];
    if i > 0 {
      var p := xs[..i + 1];
      EmaPrefix(xs, alpha, i + 1);
      assert Ema(p, alpha) == e[..i + 1];
      EmaSnoc(p, alpha);
      assert p[..i] == xs[..i];
      EmaPrefix(xs, alpha, i);
      var prev := Ema(xs[..i], alpha);
      assert prev == e[..i];
      assert e[i] == Ema(p, alpha)[i];
    }
  }

  /** The EMA of a constant series is that constant. */
  lemma {:induction false} EmaConstant(xs: seq<real>, alpha: real, c: real)
    requires forall i :: 0 <= i < |xs| ==> xs[i] == c
    ensures forall i :: 0 <= i < |xs| ==> Ema(xs, alpha)[i] == c
    decreases |xs|
  {
    if |xs| >= 2 {
      var init := xs[..|xs| - 1];
      EmaConstant(init, alpha, c);
      var prev := Ema(init, alpha);
      EmaSnoc(xs, alpha);
      assert xs[|xs| - 1] == c && prev[|xs| - 2] == c;
      assert alpha * c + (1.0 - alpha) * c == c;
      assert forall i :: 0 <= i < |xs| - 1 ==> Ema(xs, alpha)[i] == Ema(xs, alpha)[..|xs| - 1][i];
    }
  }

  /** With a factor in [0, 1], the EMA stays within any bounds of its inputs. */
  lemma {:induction false} EmaWithin(xs: seq<real>, alpha: real, lo: real, hi: real)
    requires 0.0 <= alpha <= 1.0
    requires forall i :: 0 <= i < |xs| ==> lo <= xs[i] <= hi
    ensures forall i :: 0 <= i < |xs| ==> lo <= Ema(xs, alpha)[i] <= hi
    decreases |xs|
  {
    if |xs| >= 2 {
      var init := xs[..|xs| - 1];
      EmaWithin(init, alpha, lo, hi);
      var prev := Ema(init, alpha);
      EmaSnoc(xs, alpha);
      var x, p := xs[|xs| - 1], prev[|xs| - 2];
      assert lo <= x <= hi && lo <= p <= hi;
      MixWithin(alpha, x, p, lo, hi);
      assert forall i :: 0 <= i < |xs| - 1 ==> Ema(xs, alpha)[i] == Ema(xs, alpha)[..|xs| - 1][i];
    }
  }

  /** A convex mix of two values within [lo, hi] stays within [lo, hi]. */
  lemma MixWithin(alpha: real, x: real, p: real, lo: real, hi: real)
    requires 0.0 <= alpha <= 1.0 && lo <= x <= hi && lo <= p <= hi
    ensures lo <= alpha * x + (1.0 - alpha) * p <= hi
  {
    var v := alpha * x + (1.0 - alpha) * p;
    assert v - lo == alpha * (x - lo) + (1.0 - alpha) * (p - lo);
    assert hi - v == alpha * (hi - x) + (1.0 - alpha) * (hi - p);
    MulNonNegative(alpha, x - lo);
    MulNonNegative(1.0 - alpha, p - lo);
    MulNonNegative(alpha, hi - x);
    MulNonNegative(1.0 - alpha, hi - p);
  }

  lemma MulNonNegative(a: real, b: real)
    requires a >= 0.0 && b >= 0.0
    ensures a * b >= 0.0
  {
  }

  /**
   * `e` is the `adjust=False` exponential smoothing of `xs`: it starts at the
   * first value and each later value is alpha * x[i] + (1 - alpha) * e[i - 1].
   */
  predicate SmoothedBy(e: seq<real>, xs: seq<real>, alpha: real)
  {
    |e| == |xs| &&
    (|xs| > 0 ==> e[0] == xs[0]) &&
    forall i :: 0 < i < |xs| ==> e[i] == alpha * xs[i] + (1.0 - alpha) * e[i - 1]
  }

  /** The recursive EMA is that smoothing, at every row. */
  lemma EmaSmooths(xs: seq<real>, alpha: real)
    ensures SmoothedBy(Ema(xs, alpha), xs, alpha)
  {
    forall i | 0 < i < |xs|
      ensures Ema(xs, alpha)[i] == alpha * xs[i] + (1.0 - alpha) * Ema(xs, alpha)[i - 1]
    {
      EmaRecurrence(xs, alpha, i);
    }
    if |xs| > 0 {
      EmaRecurrence(xs, alpha, 0);
    }
  }

  /** `calculate_ema`: the EMA of the closes for a span. */
  function CalculateEma(df: seq<Candle>, span: nat): (e: seq<real>)
    requires span >= 1
    ensures SmoothedBy(e, Closes(df), Alpha(span))
  {
    EmaSmooths(Closes(df), Alpha(span));
    Ema(Closes(df), Alpha(span))
  }

  /** `calculate_macd`: EMA(12) - EMA(26) of the closes and the EMA(9) of that. */
  function CalculateMacd(df: seq<Candle>): (r: (seq<real>, seq<real>))
    ensures |r.0| == |df|
    ensures forall i :: 0 <= i < |df| ==> r.0[i] == CalculateEma(df, 12)[i] - CalculateEma(df, 26)[i]
    ensures SmoothedBy(r.1, r.0, Alpha(9))
  {
    var fast := CalculateEma(df, 12);
    var slow := CalculateEma(df, 26);
    var macd := seq(|df|, i requires 0 <= i < |df| => fast[i] - slow[i]);
    EmaSmooths(macd, Alpha(9));
    (macd, Ema(macd, Alpha(9)))
  }

  /** On a constant close series the MACD line and its signal are all zero. */
  lemma MacdOfConstantIsZero(df: seq<Candle>, c: real)
    requires forall i :: 0 <= i < |df| ==> df[i].close == c
    ensures var (macd, signal) := CalculateMacd(df);
      (forall i :: 0 <= i < |df| ==> macd[i] == 0.0) && (forall i :: 0 <= i < |df| ==> signal[i] == 0.0)
  {
    EmaConstant(Closes(df), Alpha(12), c);
    EmaConstant(Closes(df), Alpha(26), c);
    var (macd, signal) := CalculateMacd(df);
    EmaConstant(macd, Alpha(9), 0.0);
  }

  /** Positive part of the close-to-close change; row 0's NaN change counts as 0. */
  function Gain(xs: seq<real>, i: nat): real
    requires i < |xs|
  {
    if i > 0 && xs[i] - xs[i - 1] > 0.0 then xs[i] - xs[i - 1] else 0.0
  }

  /** Negated negative part of the change; row 0 counts as 0. */
  function Loss(xs: seq<real>, i: nat): real
    requires i < |xs|
  {
    if i > 0 && xs[i] - xs[i - 1] < 0.0 then xs[i - 1] - xs[i] else 0.0
  }

  /** Gains and losses are never negative, and their difference is the change. */
  function Gains(xs: seq<real>): (g: seq<real>)
    ensures |g| == |xs|
    ensures forall i :: 0 <= i < |xs| ==> g[i] == Gain(xs, i) && g[i] >= 0.0
  {
    seq(|xs|, i requires 0 <= i < |xs| => Gain(xs, i))
  }

  function Losses(xs: seq<real>): (l: seq<real>)
    ensures |l| == |xs|
    ensures forall i :: 0 <= i < |xs| ==> l[i] == Loss(xs, i) && l[i] >= 0.0
  {
    seq(|xs|, i requires 0 <= i < |xs| => Loss(xs, i))
  }

  lemma GainMinusLoss(xs: seq<real>, i: nat)
    requires 0 < i < |xs|
    ensures Gain(xs, i) >= 0.0 && Loss(xs, i) >= 0.0
    ensures Gain(xs, i) - Loss(xs, i) == xs[i] - xs[i - 1]
    ensures Gain(xs, i) == 0.0 || Loss(xs, i) == 0.0
  {
  }

  /**
   * RSI at row `i`: 100 - 100 / (1 + gain / loss) over the rolling means.
   * A zero mean loss makes the ratio infinite (RSI 100) when the mean gain is
   * positive and NaN when it is zero too.
   */
  function Rsi(xs: seq<real>, period: nat, i: nat): (r: Option<real>)
    requires i < |xs|
    ensures r.Some? ==> 0.0 <= r.value <= 100.0
  {
    var g := Rolling.RollingMean(Gains(xs), period, i);
    var l := Rolling.RollingMean(Losses(xs), period, i);
    if g.None? || l.None? then None
    else if l.value > 0.0 then
      MeanGainLossNonNegative(xs, period, i);
      RsiFormula(g.value, l.value);
      Some(100.0 - 100.0 / (1.0 + g.value / l.value))
    else if g.value > 0.0 then Some(100.0)
    else None
  }

  /** The rolling mean loss is never negative, nor the gain. */
  lemma MeanGainLossNonNegative(xs: seq<real>, period: nat, i: nat)
    requires Rolling.Fits(|xs|, period, i)
    ensures Rolling.RollingMean(Gains(xs), period, i).value >= 0.0
    ensures Rolling.RollingMean(Losses(xs), period, i).value >= 0.0
  {
    var gw := Rolling.Window(Gains(xs), period, i);
    var lw := Rolling.Window(Losses(xs), period, i);
    Rolling.MeanWithin(gw, 0.0, Rolling.Max(gw));
    Rolling.MeanWithin(lw, 0.0, Rolling.Max(lw));
  }

  /**
   * RSI is defined exactly when the window fits and some change in it is
   * non-zero. It then lies in [0, 100]; with a positive mean loss it is below
   * 100 and equals 100 * gain / (gain + loss); with losses all zero it is 100.
   */
  lemma RsiRange(xs: seq<real>, period: nat, i: nat)
    requires i < |xs|
    ensures Rsi(xs, period, i).Some? <==>
      Rolling.Fits(|xs|, period, i) &&
      (Rolling.RollingMean(Losses(xs), period, i).value > 0.0 ||
       Rolling.RollingMean(Gains(xs), period, i).value > 0.0)
    ensures Rsi(xs, period, i).Some? ==> 0.0 <= Rsi(xs, period, i).value <= 100.0
    ensures Rolling.Fits(|xs|, period, i) && Rolling.RollingMean(Losses(xs), period, i).value > 0.0 ==>
      var g := Rolling.RollingMean(Gains(xs), period, i).value;
      var l := Rolling.RollingMean(Losses(xs), period, i).value;
      Rsi(xs, period, i).value < 100.0 && Rsi(xs, period, i).value * (g + l) == 100.0 * g
    ensures (Rolling.Fits(|xs|, period, i) && Rolling.RollingMean(Losses(xs), period, i).value == 0.0 &&
             Rolling.RollingMean(Gains(xs), period, i).value > 0.0) ==> Rsi(xs, period, i) == Some(100.0)
  {
    if Rolling.Fits(|xs|, period, i) {
      MeanGainLossNonNegative(xs, period, i);
      var g := Rolling.RollingMean(Gains(xs), period, i).value;
      var l := Rolling.RollingMean(Losses(xs), period, i).value;
      if l > 0.0 {
        RsiFormula(g, l);
      }
    }
  }

  /** The arithmetic behind RsiRange, for gain >= 0 and loss > 0. */
  lemma RsiFormula(g: real, l: real)
    requires g >= 0.0 && l > 0.0
    ensures 0.0 <= 100.0 - 100.0 / (1.0 + g / l) < 100.0
    ensures (100.0 - 100.0 / (1.0 + g / l)) * (g + l) == 100.0 * g
  {
    var rs := g / l;
    assert rs * l == g;
    assert rs >= 0.0;
    var q := 100.0 / (1.0 + rs);
    assert q * (1.0 + rs) == 100.0;
    assert 0.0 < q <= 100.0;
    assert (1.0 + rs) * l == g + l;
    assert q * (g + l) == q * ((1.0 + rs) * l);
    assert q * (g + l) == 100.0 * l;
  }

  /** `calculate_rsi`: the RSI series of the closes. */
  function CalculateRsi(df: seq<Candle>, period: nat := RsiPeriod): (r: seq<Option<real>>)
    ensures |r| == |df|
    ensures forall i :: 0 <= i < |df| && r[i].Some? ==> 0.0 <= r[i].value <= 100.0
  {
    var xs := Closes(df);
    assert forall i :: 0 <= i < |df| ==> Rsi(xs, period, i).Some? ==> 0.0 <= Rsi(xs, period, i).value <= 100.0 by {
      forall i | 0 <= i < |df| { RsiRange(xs, period, i); }
    }
    seq(|df|, i requires 0 <= i < |df| => Rsi(xs, period, i))
  }

  /** Stochastic %K at row `i`; NaN (or an infinity) on a zero-width range. */
  function StochasticK(df: seq<Candle>, period: nat, i: nat): (r: Option<real>)
    requires i < |df|
    ensures r.Some? ==> Rolling.Fits(|df|, period, i)
  {
    var hi := Rolling.RollingMax(Highs(df), period, i);
    var lo := Rolling.RollingMin(Lows(df), period, i);
    if hi.Some? && lo.Some? && hi.value - lo.value != 0.0 then
      Some(100.0 * ((df[i].close - lo.value) / (hi.value - lo.value)))
    else None
  }

  /** %K is defined exactly when the window fits and its range has non-zero width. */
  lemma StochasticKDefined(df: seq<Candle>, period: nat, i: nat)
    requires i < |df|
    ensures StochasticK(df, period, i).Some? <==> (Rolling.Fits(|df|, period, i) &&
      Rolling.RollingMax(Highs(df), period, i).value != Rolling.RollingMin(Lows(df), period, i).value)
  {
  }

  /**
   * Stochastic %D at row `i` of the %K series: the mean of the last three %K
   * values, NaN if any of them is NaN.
   */
  function StochasticD(ks: seq<Option<real>>, i: nat): (r: Option<real>)
    requires i < |ks|
    ensures r.Some? <==> (i >= 2 && ks[i - 2].Some? && ks[i - 1].Some? && ks[i].Some?)
    ensures r.Some? ==> r.value == (ks[i - 2].value + ks[i - 1].value + ks[i].value) / 3.0
  {
    if i >= 2 && ks[i - 2].Some? && ks[i - 1].Some? && ks[i].Some? then
      Rolling.MeanOfThree(ks[i - 2].value, ks[i - 1].value, ks[i].value);
      Some(Rolling.Mean([ks[i - 2].value, ks[i - 1].value, ks[i].value]))
    else None
  }

  /** Every candle's close lies within its low and high. */
  predicate CloseWithinRange(df: seq<Candle>)
  {
    forall i :: 0 <= i < |df| ==> df[i].low <= df[i].close <= df[i].high
  }

  /** The arithmetic behind the %K bound. */
  lemma ScaledRatio(x: real, w: real)
    requires 0.0 <= x <= w && w > 0.0
    ensures 0.0 <= 100.0 * (x / w) <= 100.0
  {
    var q := x / w;
    assert q * w == x;
  }

  /** With low <= close <= high on every candle, a defined %K lies in [0, 100]. */
  lemma StochasticKRange(df: seq<Candle>, period: nat, i: nat)
    requires i < |df|
    requires CloseWithinRange(df)
    ensures StochasticK(df, period, i).Some? ==> 0.0 <= StochasticK(df, period, i).value <= 100.0
  {
    if StochasticK(df, period, i).Some? {
      var hw := Rolling.Window(Highs(df), period, i);
      var lw := Rolling.Window(Lows(df), period, i);
      var hi, lo := Rolling.Max(hw), Rolling.Min(lw);
      assert hw[period - 1] == df[i].high && lw[period - 1] == df[i].low;
      assert lo <= df[i].close <= hi;
      ScaledRatio(df[i].close - lo, hi - lo);
    }
  }

  /** A defined %D over a %K series within [0, 100] also lies in [0, 100]. */
  lemma StochasticDRange(ks: seq<Option<real>>, i: nat)
    requires i < |ks|
    requires forall j :: 0 <= j < |ks| && ks[j].Some? ==> 0.0 <= ks[j].value <= 100.0
    ensures StochasticD(ks, i).Some? ==> 0.0 <= StochasticD(ks, i).value <= 100.0
  {
    if StochasticD(ks, i).Some? {
      var a, b, c := ks[i - 2].value, ks[i - 1].value, ks[i].value;
      assert 0.0 <= a + b + c <= 300.0;
    }
  }

  /** The %K series, one value per row. */
  function StochasticKSeries(df: seq<Candle>, period: nat): (ks: seq<Option<real>>)
    ensures |ks| == |df|
    ensures forall i :: 0 <= i < |df| ==> ks[i] == StochasticK(df, period, i)
    ensures CloseWithinRange(df) ==> forall i :: 0 <= i < |df| && ks[i].Some? ==> 0.0 <= ks[i].value <= 100.0
  {
    forall i | 0 <= i < |df| && CloseWithinRange(df)
      ensures StochasticK(df, period, i).Some? ==> 0.0 <= StochasticK(df, period, i).value <= 100.0
    {
      StochasticKRange(df, period, i);
    }
    seq(|df|, i requires 0 <= i < |df| => StochasticK(df, period, i))
  }

  /** `k_percent.rolling(window=3).mean()`: the %D series of a %K series. */
  function StochasticDSeries(ks: seq<Option<real>>): (ds: seq<Option<real>>)
    ensures |ds| == |ks|
    ensures forall i {:trigger ds[i]} :: StochasticSmoothing - 1 <= i < |ks| ==>
      ds[i] == if ks[i - 2].Some? && ks[i - 1].Some? && ks[i].Some?
               then Some((ks[i - 2].value + ks[i - 1].value + ks[i].value) / 3.0) else None
    ensures forall i :: 0 <= i < |ks| && i < StochasticSmoothing - 1 ==> ds[i].None?
    ensures (forall i :: 0 <= i < |ks| && ks[i].Some? ==> 0.0 <= ks[i].value <= 100.0) ==>
      forall i :: 0 <= i < |ds| && ds[i].Some? ==> 0.0 <= ds[i].value <= 100.0
  {
    var ds := seq(|ks|, i requires 0 <= i < |ks| => StochasticD(ks, i));
    forall i | 0 <= i < |ks| && (forall j :: 0 <= j < |ks| && ks[j].Some? ==> 0.0 <= ks[j].value <= 100.0)
      ensures ds[i].Some? ==> 0.0 <= ds[i].value <= 100.0
    {
      StochasticDRange(ks, i);
    }
    ds
  }

  /** `calculate_stochastic`: the %K series and its three-row mean, %D. */
  function CalculateStochastic(df: seq<Candle>, period: nat := StochasticPeriod): (r: (seq<Option<real>>, seq<Option<real>>))
    ensures |r.0| == |df| && |r.1| == |df|
    ensures r.1 == StochasticDSeries(r.0)
    ensures CloseWithinRange(df) ==> forall i :: 0 <= i < |df| && r.0[i].Some? ==> 0.0 <= r.0[i].value <= 100.0
    ensures CloseWithinRange(df) ==> forall i :: 0 <= i < |df| && r.1[i].Some? ==> 0.0 <= r.1[i].value <= 100.0
    ensures forall i :: 0 <= i < |df| && i < StochasticSmoothing - 1 ==> r.1[i].None?
  {
    var ks := StochasticKSeries(df, period);
    (ks, StochasticDSeries(ks))
  }

  datatype Bands = Bands(upper: real, middle: real, lower: real)

  /**
   * Bollinger bands at row `i`: the rolling mean of the closes plus and minus
   * twice the rolling standard deviation, which is given (`std`).
   */
  function BollingerBands(xs: seq<real>, std: seq<Option<real>>, window: nat, i: nat): (r: Option<Bands>)
    requires i < |xs| && |std| == |xs|
    ensures r.Some? <==> Rolling.Fits(|xs|, window, i) && std[i].Some?
    ensures r.Some? ==> r.value.upper - r.value.middle == r.value.middle - r.value.lower == 2.0 * std[i].value
  {
    var middle := Rolling.RollingMean(xs, window, i);
    if middle.Some? && std[i].Some? then
      Some(Bands(middle.value + std[i].value * 2.0, middle.value, middle.value - std[i].value * 2.0))
    else None
  }

  /**
   * The bands are symmetric about the middle band, which lies between the
   * lowest and the highest close of its window.
   */
  lemma BollingerSymmetric(xs: seq<real>, std: seq<Option<real>>, window: nat, i: nat)
    requires i < |xs| && |std| == |xs|
    ensures var b := BollingerBands(xs, std, window, i);
      b.Some? ==>
        b.value.upper - b.value.middle == b.value.middle - b.value.lower == 2.0 * std[i].value &&
        Rolling.Min(Rolling.Window(xs, window, i)) <= b.value.middle <= Rolling.Max(Rolling.Window(xs, window, i))
  {
    if Rolling.Fits(|xs|, window, i) {
      Rolling.MeanBounds(Rolling.Window(xs, window, i));
    }
  }

  /** `calculate_bollinger_bands`: the band series for a given std series. */
  function CalculateBollingerBands(df: seq<Candle>, std: seq<Option<real>>, window: nat := BollingerWindow): (r: seq<Option<Bands>>)
    requires |std| == |df|
    ensures |r| == |df|
    ensures forall i :: 0 <= i < |df| ==> (r[i].Some? <==> Rolling.Fits(|df|, window, i) && std[i].Some?)
    ensures forall i :: 0 <= i < |df| && r[i].Some? ==>
      r[i].value.upper - r[i].value.middle == r[i].value.middle - r[i].value.lower == 2.0 * std[i].value
  {
    seq(|df|, i requires 0 <= i < |df| => BollingerBands(Closes(df), std, window, i))
  }
}
