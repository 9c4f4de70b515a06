/**
 * `DataFetcher`: the pybit-based wrapper kept beside `BybitDemoSession`. It
 * shares the position and order queries, but skips the leverage update when
 * the leverage is already set, uses a 0.03% maker offset and hedge-mode
 * position indices.
 */
module DataFetcher {
  import opened Wrappers
  import opened Exchange
  import BybitDemoSession

  /**
   * `get_current_leverage`: the first listed position's leverage, `None` for
   * an empty list or a failed request.
   */
  function GetCurrentLeverage(fetched: Option<seq<Position>>): (r: Option<real>)
    ensures r.Some? <==> fetched.Some? && |fetched.value| > 0
    ensures r.Some? ==> r.value == fetched.value[0].leverage
  {
    if fetched.Some? && |fetched.value| > 0 then Some(fetched.value[0].leverage) else None
  }

  /**
   * `set_leverage`: returns early, issuing nothing, when the current leverage
   * is known and equal to the requested one; otherwise issues the update.
   */
  method SetLeverage(leverage: int, fetched: Option<seq<Position>>) returns (update: Option<int>)
    ensures update.None? <==> GetCurrentLeverage(fetched) == Some(leverage as real)
    ensures update.Some? ==> update.value == leverage
  {
    var current := GetCurrentLeverage(fetched);
    if current.Some? && current.value == leverage as real {
      return None;
    }
    update := Some(leverage);
  }

  /** Maker offsets: 0.03% below for a buy, 0.03% above otherwise. */
  const BuyPriceFactor: real := 0.9997
  const SellPriceFactor: real := 1.0003

  /** Hedge-mode position index: 1 for a buy (any letter case), 2 otherwise. */
  function PositionIdx(side: string): (idx: int)
    ensures idx == 1 <==> IsBuy(side)
    ensures idx == 2 <==> !IsBuy(side)
  {
    if IsBuy(side) then 1 else 2
  }

  /**
   * `place_order`: the leverage step (given the position list it reads),
   * then the limit order with maker-offset price, nudged stop-loss and the
   * truthy stop-loss / take-profit keys.
   */
  method PlaceOrder(symbol: string, side: string, qty: real, currentPrice: real, leverage: int,
                    leverageFetched: Option<seq<Position>>, stopLoss: PyFloat, takeProfit: PyFloat)
    returns (s: Submission)
    ensures s.leverageUpdate.None? <==> GetCurrentLeverage(leverageFetched) == Some(leverage as real)
    ensures s.leverageUpdate.Some? ==> s.leverageUpdate.value == leverage
    ensures s.order.symbol == symbol && s.order.side == side && s.order.qty == qty
    ensures s.order.orderType == "Limit"
    ensures s.order.positionIdx == PositionIdx(side)
    ensures s.order.price == currentPrice * (if IsBuy(side) then BuyPriceFactor else SellPriceFactor)
    ensures s.order.stopLoss == Sent(NudgeStop(IsBuy(side), s.order.price, stopLoss))
    ensures s.order.takeProfit == Sent(takeProfit)
    ensures currentPrice > 0.0 ==> (IsBuy(side) ==> s.order.price < currentPrice) && (!IsBuy(side) ==> s.order.price > currentPrice)
    ensures currentPrice > 0.0 && stopLoss.Num? && stopLoss.v != 0.0 ==>
      s.order.stopLoss.Num? &&
      (IsBuy(side) ==> s.order.stopLoss.v < s.order.price) &&
      (!IsBuy(side) ==> s.order.stopLoss.v > s.order.price)
  {
    var leverageUpdate := SetLeverage(leverage, leverageFetched);
    var positionIdx := PositionIdx(side);
    var price: real;
    var stop := stopLoss;
    if IsBuy(side) {
      price := currentPrice * BuyPriceFactor;
      if Truthy(stop) && stop.Num? && stop.v >= price {
        stop := Num(price * BuyStopFactor);
      }
    } else {
      price := currentPrice * SellPriceFactor;
      if Truthy(stop) && stop.Num? && stop.v <= price {
        stop := Num(price * SellStopFactor);
      }
    }
    var order := OrderRequest(symbol, side, "Limit", qty, price, positionIdx, Null, Null);
    if Truthy(stop) {
      order := order.(stopLoss := stop);
    }
    if Truthy(takeProfit) {
      order := order.(takeProfit := takeProfit);
    }
    if currentPrice > 0.0 && stopLoss.Num? && stopLoss.v != 0.0 {
      NudgeStopLosingSide(IsBuy(side), price, stopLoss);
    }
    s := Submission(leverageUpdate, order);
  }

  // data_fetcher.py repeats the session's position and order queries line for
  // line, so the three members below carry the session's contracts on purpose;
  // SameQueries states that the two wrappers' position queries agree.

  /** `get_open_positions`: the positions of size > 0; `None` on failure. */
  function GetOpenPositions(fetched: Option<seq<Position>>): (r: Option<seq<Position>>)
    ensures r.Some? <==> fetched.Some?
    ensures r.Some? ==> r.value == ActivePositions(fetched.value)
    ensures r.Some? ==> forall p :: p in r.value <==> p in fetched.value && p.size > 0.0
  {
    if fetched.None? then None
    else
      ActivePositionsExactly(fetched.value);
      Some(ActivePositions(fetched.value))
  }

  /** `get_last_closed_position`: the newest size-zero position; `None` if none or on failure. */
  function GetLastClosedPosition(fetched: Option<seq<Position>>): (r: Option<Position>)
    ensures r.Some? <==> fetched.Some? && exists p :: p in fetched.value && p.size == 0.0
    ensures r.Some? ==> r.value in fetched.value && r.value.size == 0.0
    ensures r.Some? ==> forall q :: q in fetched.value && q.size == 0.0 ==> q.updatedTime <= r.value.updatedTime
  {
    if fetched.None? then None else LastClosed(fetched.value)
  }

  /** `get_open_orders`: cancels the orders older than 180 s and returns the full list. */
  method GetOpenOrders(fetched: Option<seq<Order>>, now: real)
    returns (orders: Option<seq<Order>>, cancelled: seq<string>)
    ensures orders == fetched
    ensures fetched.None? ==> cancelled == []
    ensures fetched.Some? ==> cancelled == Ids(StaleOrders(fetched.value, now))
    ensures fetched.Some? ==> forall id :: id in cancelled <==> id in StaleIds(fetched.value, now)
  {
    if fetched.None? {
      return None, [];
    }
    cancelled := SweepStaleOrders(fetched.value, now);
    orders := fetched;
    StaleOrdersCancelledExactly(fetched.value, now);
  }

  /** Both wrappers answer the position queries alike. */
  lemma SameQueries(fetched: Option<seq<Position>>)
    ensures GetOpenPositions(fetched) == BybitDemoSession.GetOpenPositions(fetched)
    ensures GetLastClosedPosition(fetched) == BybitDemoSession.GetLastClosedPosition(fetched)
  {
  }
}
