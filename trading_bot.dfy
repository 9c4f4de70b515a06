/**
 * One cycle of the trading bot: the three gates that keep it from stacking
 * positions, the data it then needs, and the order it finally submits.
 */
module TradingBot {
  import opened Wrappers
  import opened Candles
  import opened Exchange
  import Strategy
  import RiskManagement
  import BybitDemoSession

  /** Settings the bot reads from its environment. */
  datatype BotConfig = BotConfig(
    symbol: string,
    quantity: real,
    leverage: int,
    risk: RiskManagement.Config)

  /**
   * The bot's fall-backs: BTCUSDT, 0.03 contracts, leverage 10, and a risk
   * manager built with multiplier 1.0 and ratio 1.0 (not the class defaults)
   * on the default 14-row ATR period.
   */
  const DefaultBotConfig := BotConfig("BTCUSDT", 0.03, 10, RiskManagement.Config(14, 1.0, 1.0))

  /** Seconds after a close during which no new order is placed. */
  const CooldownSeconds: real := 60.0

  /**
   * What one cycle sees of the outside world. Each `*Fetch` is the decoded
   * exchange answer (`None` when the request failed), `now` and `ordersClock`
   * are the clock readings of the cool-down check and of the stale-order
   * sweep, and `positionType`/`orderPrice` are the signal the strategy hands
   * back (`None` for Python's None).
   */
  datatype Cycle = Cycle(
    now: real,
    lastClosedFetch: Option<seq<Position>>,
    positionsFetch: Option<seq<Position>>,
    ordersFetch: Option<seq<Order>>,
    ordersClock: real,
    history: Option<seq<Candle>>,
    price: Option<real>,
    positionType: Option<string>,
    orderPrice: Option<real>)

  /** How a cycle ends: one of its early returns, an exception, or a submitted order. */
  datatype Outcome =
    | CoolingDown
    | PositionOpen
    | OrderOpen
    | NoHistory
    | MalformedHistory
    | NoPrice
    | NoSignal
    | InvalidTrend
    | Submitted(submission: Submission)

  /** The outcome together with the ids of the orders the sweep cancelled on the way. */
  datatype Report = Report(outcome: Outcome, cancelled: seq<string>)

  // ------------------------------------------------------------------ gates

  /** The last closed position was closed less than 60 s before `now`. */
  predicate Cooling(c: Cycle)
    ensures Cooling(c) <==> (c.lastClosedFetch.Some? &&
      exists p :: p in c.lastClosedFetch.value && p.size == 0.0 && c.now - (p.updatedTime as real) / 1000.0 < CooldownSeconds)
  {
    var last := BybitDemoSession.GetLastClosedPosition(c.lastClosedFetch);
    assert last.Some? ==> forall p :: p in c.lastClosedFetch.value && p.size == 0.0 ==>
      (p.updatedTime as real) / 1000.0 <= (last.value.updatedTime as real) / 1000.0;
    last.Some? && c.now - (last.value.updatedTime as real) / 1000.0 < CooldownSeconds
  }

  /** The exchange reports at least one position with a non-zero size. */
  predicate HasOpenPosition(c: Cycle)
    ensures HasOpenPosition(c) <==> c.positionsFetch.Some? && exists p :: p in c.positionsFetch.value && p.size > 0.0
  {
    if c.positionsFetch.Some? then
      var active := ActivePositions(c.positionsFetch.value);
      ActivePositionsExactly(c.positionsFetch.value);
      assert |active| > 0 ==> active[0] in active;
      |active| > 0
    else false
  }

  /**
   * The exchange lists at least one open order, stale or not: the orders the
   * sweep has just cancelled still block this cycle.
   */
  predicate HasOpenOrder(c: Cycle)
    ensures c.ordersFetch.Some? && |StaleOrders(c.ordersFetch.value, c.ordersClock)| > 0 ==> HasOpenOrder(c)
    ensures HasOpenOrder(c) <==> c.ordersFetch.Some? && exists o :: o in c.ordersFetch.value
  {
    if c.ordersFetch.Some? then
      var orders := c.ordersFetch.value;
      assert |orders| > 0 ==> orders[0] in orders;
      |orders| > 0
    else false
  }

  predicate GatesPass(c: Cycle)
  {
    !Cooling(c) && !HasOpenPosition(c) && !HasOpenOrder(c)
  }

  /** Everything up to the signal is available: gates passed, candles and a price. */
  predicate Ready(c: Cycle)
  {
    GatesPass(c) && c.history.Some? && |c.history.value| > 0 && c.price.Some?
  }

  /**
   * `position_type and order_price` is truthy: a non-empty position type and
   * an order price that is a truthy float.
   */
  predicate Signalled(c: Cycle)
    ensures Signalled(c) <==> (c.positionType.Some? && c.positionType.value != "" &&
      c.orderPrice.Some? && Truthy(Num(c.orderPrice.value)))
  {
    c.positionType.Some? && |c.positionType.value| > 0 && c.orderPrice.Some? && c.orderPrice.value != 0.0
  }

  /** The levels the risk manager computes for the signal, on the prepared candles. */
  function CycleLevels(cfg: BotConfig, c: Cycle): RiskManagement.RiskOutcome
    requires c.history.Some? && |c.history.value| > 0
    requires c.positionType.Some? && c.orderPrice.Some?
  {
    var df := Strategy.SortByTimestamp(c.history.value);
    RiskManagement.RiskLevels(cfg.risk, c.orderPrice.value,
      RiskManagement.Atr(df, cfg.risk.atrPeriod), c.positionType.value)
  }

  /** The stop-loss argument handed to `place_order`: NaN when the ATR is undefined. */
  function StopArg(r: RiskManagement.RiskOutcome): PyFloat
  {
    if r.Levels? then Num(r.stopLoss) else NaN
  }

  /** The take-profit argument handed to `place_order`: NaN when the ATR is undefined. */
  function TakeArg(r: RiskManagement.RiskOutcome): PyFloat
  {
    if r.Levels? then Num(r.takeProfit) else NaN
  }

  /**
   * At the bot's fall-back settings (multiplier 1.0, ratio 1.0) the stop and
   * the take lie one ATR either side of the order price.
   */
  lemma FallbackLevelsSymmetric(price: real, atr: real, trend: string)
    requires trend == "long" || trend == "short"
    ensures var r := RiskManagement.RiskLevels(DefaultBotConfig.risk, price, Some(atr), trend);
      r.Levels? &&
      (trend == "long" ==> r.stopLoss == price - atr && r.takeProfit == price + atr) &&
      (trend == "short" ==> r.stopLoss == price + atr && r.takeProfit == price - atr)
  {
  }

  /** The side a signal trades: 'Buy' for 'long', 'Sell' for anything else. */
  function SideOf(positionType: string): (side: string)
    ensures side == "Buy" <==> positionType == "long"
    ensures side == "Buy" || side == "Sell"
  {
    if positionType == "long" then "Buy" else "Sell"
  }

  /**
   * With a positive price, multiplier, ratio and ATR, the take-profit a long
   * submits lies above its (lowered) limit price and is sent; a short's, when
   * sent, lies below its (raised) limit price.
   */
  lemma TakeProfitOnWinningSide(cfg: RiskManagement.Config, price: real, atr: real, trend: string)
    requires price > 0.0 && cfg.atrMultiplier > 0.0 && cfg.riskRatio > 0.0 && atr > 0.0
    requires trend == "long" || trend == "short"
    ensures var r := RiskManagement.RiskLevels(cfg, price, Some(atr), trend);
      var take := Sent(TakeArg(r));
      (trend == "long" ==> take.Num? && take.v > price * BybitDemoSession.BuyPriceFactor) &&
      (trend == "short" && take.Num? ==> take.v < price * BybitDemoSession.SellPriceFactor)
  {
    var d := cfg.atrMultiplier * atr;
    assert d > 0.0;
    assert d * cfg.riskRatio > 0.0;
    RiskManagement.LevelsOrdered(cfg, price, atr, trend);
  }

  // -------------------------------------------------------------------- job

  /**
   * The three gates of `job`, in order: a close in the last minute, an open
   * position, an open order. Reaching the order gate runs the stale-order
   * sweep, and a listed order blocks the cycle even when the sweep has just
   * cancelled it. A failed fetch blocks nothing.
   */
  method CheckGates(c: Cycle) returns (blocked: Option<Outcome>, cancelled: seq<string>)
    ensures blocked == Some(CoolingDown) <==> Cooling(c)
    ensures blocked == Some(PositionOpen) <==> !Cooling(c) && HasOpenPosition(c)
    ensures blocked == Some(OrderOpen) <==> !Cooling(c) && !HasOpenPosition(c) && HasOpenOrder(c)
    ensures blocked.None? <==> GatesPass(c)
    ensures cancelled ==
      if !Cooling(c) && !HasOpenPosition(c) && c.ordersFetch.Some?
      then Ids(StaleOrders(c.ordersFetch.value, c.ordersClock)) else []
  {
    var lastClosed := BybitDemoSession.GetLastClosedPosition(c.lastClosedFetch);
    if lastClosed.Some? {
      var sinceClose := c.now - (lastClosed.value.updatedTime as real) / 1000.0;
      if sinceClose < CooldownSeconds {
        return Some(CoolingDown), [];
      }
    }

    var openPositions := BybitDemoSession.GetOpenPositions(c.positionsFetch);
    if openPositions.Some? && |openPositions.value| > 0 {
      return Some(PositionOpen), [];
    }

    var openOrders: Option<seq<Order>>;
    openOrders, cancelled := BybitDemoSession.GetOpenOrders(c.ordersFetch, c.ordersClock);
    if openOrders.Some? && |openOrders.value| > 0 {
      return Some(OrderOpen), cancelled;
    }
    blocked := None;
  }

  /**
   * The rest of `job` once the gates passed: missing candles or price end the
   * cycle, an empty kline list and a trend other than long/short raise, and a
   * truthy signal becomes a limit order whose stop and take come from the
   * ATR of the prepared candles.
   */
  method Trade(cfg: BotConfig, c: Cycle) returns (outcome: Outcome)
    ensures outcome == NoHistory <==> c.history.None?
    ensures outcome == MalformedHistory <==> c.history == Some([])
    ensures outcome == NoPrice <==> c.history.Some? && |c.history.value| > 0 && c.price.None?
    ensures outcome == NoSignal <==>
      c.history.Some? && |c.history.value| > 0 && c.price.Some? && !Signalled(c)
    ensures outcome == InvalidTrend <==>
      c.history.Some? && |c.history.value| > 0 && c.price.Some? && Signalled(c) &&
      c.positionType.value != "long" && c.positionType.value != "short"
    ensures outcome.Submitted? <==>
      c.history.Some? && |c.history.value| > 0 && c.price.Some? && Signalled(c) &&
      (c.positionType.value == "long" || c.positionType.value == "short")
    ensures outcome !in {CoolingDown, PositionOpen, OrderOpen}
    ensures outcome.Submitted? ==>
      var o := outcome.submission.order;
      var levels := CycleLevels(cfg, c);
      var buy := c.positionType.value == "long";
      outcome.submission.leverageUpdate == Some(cfg.leverage) &&
      o.symbol == cfg.symbol && o.qty == cfg.quantity &&
      o.orderType == "Limit" && o.positionIdx == 0 &&
      o.side == SideOf(c.positionType.value) && IsBuy(o.side) == buy &&
      o.price == c.orderPrice.value *
        (if buy then BybitDemoSession.BuyPriceFactor else BybitDemoSession.SellPriceFactor) &&
      o.stopLoss == Sent(NudgeStop(buy, o.price, StopArg(levels))) &&
      o.takeProfit == Sent(TakeArg(levels))
    ensures outcome.Submitted? && c.orderPrice.value > 0.0 ==>
      var o := outcome.submission.order;
      o.stopLoss.Num? ==> (IsBuy(o.side) ==> o.stopLoss.v < o.price) && (!IsBuy(o.side) ==> o.stopLoss.v > o.price)
  {
    if c.history.None? {
      return NoHistory;
    }
    var prepared := Strategy.PrepareDataframe(c.history.value);
    if prepared.None? {
      return MalformedHistory;
    }
    var rows := prepared.value;
    var levels := Strategy.IdentifySupportResistance(rows);

    if c.price.None? {
      return NoPrice;
    }

    if !(c.positionType.Some? && |c.positionType.value| > 0 && c.orderPrice.Some? && c.orderPrice.value != 0.0) {
      return NoSignal;
    }
    var positionType := c.positionType.value;
    var orderPrice := c.orderPrice.value;

    var df := new Frame(rows);
    var risk := RiskManagement.CalculateDynamicRiskManagement(cfg.risk, df, orderPrice, positionType);
    if risk.InvalidTrend? {
      return InvalidTrend;
    }
    var side := SideOf(positionType);
    SideNames();
    var submission := BybitDemoSession.PlaceOrder(cfg.symbol, side, cfg.quantity, orderPrice,
                                                  cfg.leverage, StopArg(risk), TakeArg(risk));
    outcome := Submitted(submission);
  }

  /**
   * `job`: one cycle. It stops at the first gate that holds, then at missing
   * data, and otherwise trades the signal.
   */
  method Job(cfg: BotConfig, c: Cycle) returns (r: Report)
    ensures r.outcome == CoolingDown <==> Cooling(c)
    ensures r.outcome == PositionOpen <==> !Cooling(c) && HasOpenPosition(c)
    ensures r.outcome == OrderOpen <==> !Cooling(c) && !HasOpenPosition(c) && HasOpenOrder(c)
    ensures r.cancelled ==
      if !Cooling(c) && !HasOpenPosition(c) && c.ordersFetch.Some?
      then Ids(StaleOrders(c.ordersFetch.value, c.ordersClock)) else []
    ensures r.outcome == NoHistory <==> GatesPass(c) && c.history.None?
    ensures r.outcome == MalformedHistory <==> GatesPass(c) && c.history == Some([])
    ensures r.outcome == NoPrice <==>
      GatesPass(c) && c.history.Some? && |c.history.value| > 0 && c.price.None?
    ensures r.outcome == NoSignal <==> Ready(c) && !Signalled(c)
    ensures r.outcome == InvalidTrend <==>
      Ready(c) && Signalled(c) && c.positionType.value != "long" && c.positionType.value != "short"
    ensures r.outcome.Submitted? <==>
      Ready(c) && Signalled(c) && (c.positionType.value == "long" || c.positionType.value == "short")
    ensures r.outcome.Submitted? ==>
      var o := r.outcome.submission.order;
      var levels := CycleLevels(cfg, c);
      var buy := c.positionType.value == "long";
      r.outcome.submission.leverageUpdate == Some(cfg.leverage) &&
      o.symbol == cfg.symbol && o.qty == cfg.quantity &&
      o.orderType == "Limit" && o.positionIdx == 0 &&
      o.side == SideOf(c.positionType.value) && IsBuy(o.side) == buy &&
      o.price == c.orderPrice.value *
        (if buy then BybitDemoSession.BuyPriceFactor else BybitDemoSession.SellPriceFactor) &&
      o.stopLoss == Sent(NudgeStop(buy, o.price, StopArg(levels))) &&
      o.takeProfit == Sent(TakeArg(levels))
    ensures r.outcome.Submitted? && c.orderPrice.value > 0.0 ==>
      var o := r.outcome.submission.order;
      o.stopLoss.Num? ==> (IsBuy(o.side) ==> o.stopLoss.v < o.price) && (!IsBuy(o.side) ==> o.stopLoss.v > o.price)
  {
    var blocked, cancelled := CheckGates(c);
    if blocked.Some? {
      return Report(blocked.value, cancelled);
    }
    var outcome := Trade(cfg, c);
    r := Report(outcome, cancelled);
  }
}
