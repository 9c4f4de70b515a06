/**
 * Records and rules shared by the two exchange wrappers (`BybitDemoSession`
 * and `DataFetcher`): positions and open orders as the exchange lists them,
 * the size filters, the latest closed position, the stale-order sweep, and the
 * order-shaping rules (side test, stop-loss nudge, what gets sent).
 */
module Exchange {
  import opened Wrappers

  /** A position row: its size, last update (ms) and leverage. */
  datatype Position = Position(size: real, updatedTime: int, leverage: real)

  /** An open order row: its id and creation time (ms). */
  datatype Order = Order(orderId: string, createdTime: int)

  // ---------------------------------------------------------------- positions

  /** Positions with size > 0, in their listed order. */
  function ActivePositions(ps: seq<Position>): (r: seq<Position>)
    ensures |r| <= |ps|
    ensures forall i :: 0 <= i < |r| ==> r[i] in ps && r[i].size > 0.0
  {
    if |ps| == 0 then []
    else ActivePositions(ps[..|ps| - 1]) + (if ps[|ps| - 1].size > 0.0 then [ps[|ps| - 1]] else [])
  }

  /** Positions with size == 0, in their listed order. */
  function ClosedPositions(ps: seq<Position>): (r: seq<Position>)
    ensures |r| <= |ps|
    ensures forall i :: 0 <= i < |r| ==> r[i] in ps && r[i].size == 0.0
  {
    if |ps| == 0 then []
    else ClosedPositions(ps[..|ps| - 1]) + (if ps[|ps| - 1].size == 0.0 then [ps[|ps| - 1]] else [])
  }

  /** The active filter keeps exactly the positions of positive size. */
  lemma {:induction false} ActivePositionsExactly(ps: seq<Position>)
    ensures forall p :: p in ActivePositions(ps) <==> p in ps && p.size > 0.0
  {
    if |ps| > 0 {
      ActivePositionsExactly(ps[..|ps| - 1]);
      assert ps == ps[..|ps| - 1] + [ps[|ps| - 1]];
    }
  }

  /** The active filter distributes over concatenation, so it keeps the listed order. */
  lemma {:induction false} ActivePositionsAppend(a: seq<Position>, b: seq<Position>)
    ensures ActivePositions(a + b) == ActivePositions(a) + ActivePositions(b)
    decreases |b|
  {
    if |b| > 0 {
      var b' := b[..|b| - 1];
      assert (a + b)[..|a + b| - 1] == a + b';
      ActivePositionsAppend(a, b');
    } else {
      assert a + b == a;
    }
  }

  /** The closed filter keeps exactly the positions of size zero. */
  lemma {:induction false} ClosedPositionsExactly(ps: seq<Position>)
    ensures forall p :: p in ClosedPositions(ps) <==> p in ps && p.size == 0.0
  {
    if |ps| > 0 {
      ClosedPositionsExactly(ps[..|ps| - 1]);
      assert ps == ps[..|ps| - 1] + [ps[|ps| - 1]];
    }
  }

  /**
   * Python's `max(cs, key=updatedTime)`: scanning in order, a later row
   * replaces the current best only when strictly newer, so the first row with
   * the newest update wins.
   */
  function LatestUpdated(cs: seq<Position>): (p: Position)
    requires |cs| > 0
    ensures p in cs
    ensures forall q :: q in cs ==> q.updatedTime <= p.updatedTime
    ensures exists i :: 0 <= i < |cs| && cs[i] == p && forall j :: 0 <= j < i ==> cs[j].updatedTime < p.updatedTime
  {
    if |cs| == 1 then cs[0]
    else
      var init := cs[..|cs| - 1];
      var best := LatestUpdated(init);
      var last := cs[|cs| - 1];
      assert cs == init + [last];
      if last.updatedTime > best.updatedTime then
        assert forall j :: 0 <= j < |cs| - 1 ==> cs[j] in init;
        last
      else
        var i :| 0 <= i < |init| && init[i] == best && forall j :: 0 <= j < i ==> init[j].updatedTime < best.updatedTime;
        assert cs[i] == best;
        best
  }

  /**
   * The last closed position: the newest among the size-zero rows, `None`
   * when there is none.
   */
  function LastClosed(ps: seq<Position>): (r: Option<Position>)
    ensures r.None? <==> forall p :: p in ps ==> p.size != 0.0
    ensures r.Some? ==> r.value in ps && r.value.size == 0.0
    ensures r.Some? ==> forall q :: q in ps && q.size == 0.0 ==> q.updatedTime <= r.value.updatedTime
  {
    ClosedPositionsExactly(ps);
    var cs := ClosedPositions(ps);
    if |cs| == 0 then None else Some(LatestUpdated(cs))
  }

  // --------------------------------------------------------- stale-order sweep

  /** Age past which the sweep cancels an open order. */
  const MaxOrderAgeSeconds: real := 180.0

  /** An order is stale when more than 180 s passed since its creation. */
  predicate IsStale(o: Order, now: real)
    ensures IsStale(o, now) <==> (o.createdTime as real) < (now - MaxOrderAgeSeconds) * 1000.0
  {
    now - (o.createdTime as real) / 1000.0 > MaxOrderAgeSeconds
  }

  /** The stale orders, in their listed order. */
  function StaleOrders(orders: seq<Order>, now: real): (r: seq<Order>)
    ensures |r| <= |orders|
    ensures forall i :: 0 <= i < |r| ==> r[i] in orders && IsStale(r[i], now)
  {
    if |orders| == 0 then []
    else
      var last := orders[|orders| - 1];
      StaleOrders(orders[..|orders| - 1], now) + (if IsStale(last, now) then [last] else [])
  }

  /** The sweep selects exactly the stale orders. */
  lemma {:induction false} StaleOrdersExactly(orders: seq<Order>, now: real)
    ensures forall o :: o in StaleOrders(orders, now) <==> o in orders && IsStale(o, now)
  {
    if |orders| > 0 {
      StaleOrdersExactly(orders[..|orders| - 1], now);
      assert orders == orders[..|orders| - 1] + [orders[|orders| - 1]];
    }
  }

  /** The selection distributes over concatenation, so it keeps the listed order. */
  lemma {:induction false} StaleOrdersAppend(a: seq<Order>, b: seq<Order>, now: real)
    ensures StaleOrders(a + b, now) == StaleOrders(a, now) + StaleOrders(b, now)
    decreases |b|
  {
    if |b| > 0 {
      var b' := b[..|b| - 1];
      assert (a + b)[..|a + b| - 1] == a + b';
      StaleOrdersAppend(a, b', now);
    } else {
      assert a + b == a;
    }
  }

  function Ids(orders: seq<Order>): (ids: seq<string>)
    ensures |ids| == |orders| && forall i :: 0 <= i < |orders| ==> ids[i] == orders[i].orderId
  {
    seq(|orders|, i requires 0 <= i < |orders| => orders[i].orderId)
  }

  /** The ids of the listed orders that are stale, as a set. */
  function StaleIds(orders: seq<Order>, now: real): set<string>
  {
    set o | o in orders && IsStale(o, now) :: o.orderId
  }

  /**
   * The ids swept are exactly the ids of the stale orders: every stale
   * order's id is cancelled and every cancelled id belongs to a stale order.
   */
  lemma StaleOrdersCancelledExactly(orders: seq<Order>, now: real)
    ensures forall id :: id in Ids(StaleOrders(orders, now)) <==> id in StaleIds(orders, now)
  {
    var s := StaleOrders(orders, now);
    StaleOrdersExactly(orders, now);
    forall id | id in Ids(s) ensures id in StaleIds(orders, now) {
      var k :| 0 <= k < |s| && Ids(s)[k] == id;
      var o := s[k];
      assert o in s;
    }
    forall id | id in StaleIds(orders, now) ensures id in Ids(s) {
      var o :| o in orders && IsStale(o, now) && o.orderId == id;
      assert o in s;
      var k :| 0 <= k < |s| && s[k] == o;
      assert Ids(s)[k] == id;
    }
  }

  /**
   * The body of `get_open_orders` after the fetch: one pass collects the
   * stale orders, a second issues one cancel request per collected order.
   * Returns the ids cancelled, in order; the caller returns the full list.
   */
  method SweepStaleOrders(orders: seq<Order>, now: real) returns (cancelled: seq<string>)
    ensures cancelled == Ids(StaleOrders(orders, now))
  {
    var toCancel: seq<Order> := [];
    var i := 0;
    while i < |orders|
      invariant 0 <= i <= |orders|
      invariant toCancel == StaleOrders(orders[..i], now)
    {
      assert orders[..i + 1][..i] == orders[..i];
      assert StaleOrders(orders[..i + 1], now) ==
        StaleOrders(orders[..i], now) + (if IsStale(orders[i], now) then [orders[i]] else []);
      if IsStale(orders[i], now) {
        toCancel := toCancel + [orders[i]];
      }
      i := i + 1;
    }
    assert orders[..|orders|] == orders;
    cancelled := [];
    var j := 0;
    while j < |toCancel|
      invariant 0 <= j <= |toCancel|
      invariant |cancelled| == j
      invariant forall k :: 0 <= k < j ==> cancelled[k] == toCancel[k].orderId
    {
      cancelled := cancelled + [toCancel[j].orderId];
      j := j + 1;
    }
    assert cancelled == Ids(toCancel);
  }

  // ------------------------------------------------------------ order shaping

  /** A Python argument that is `None`, a NaN float, or a number. */
  datatype PyFloat = Null | NaN | Num(v: real)

  /** Python truthiness: `None` and `0.0` are false, NaN is true. */
  predicate Truthy(x: PyFloat)
    ensures !Truthy(x) <==> x == Null || x == Num(0.0)
  {
    match x
    case Null => false
    case NaN => true
    case Num(v) => v != 0.0
  }

  /** What a truthy-guarded `if x: params[k] = x` sends: the value, or nothing (Null). */
  function Sent(x: PyFloat): (r: PyFloat)
    ensures Truthy(x) ==> r == x
    ensures !Truthy(x) ==> r == Null
  {
    if Truthy(x) then x else Null
  }

  function LowerChar(c: char): char
  {
    if 'A' <= c <= 'Z' then (c as int - 'A' as int + 'a' as int) as char else c
  }

  /** `str.lower()` on ASCII letters. */
  function Lower(s: string): (r: string)
    ensures |r| == |s| && forall i :: 0 <= i < |s| ==> r[i] == LowerChar(s[i])
  {
    seq(|s|, i requires 0 <= i < |s| => LowerChar(s[i]))
  }

  /** `side.lower() == 'buy'`. */
  predicate IsBuy(side: string)
  {
    Lower(side) == "buy"
  }

  lemma SideNames()
    ensures IsBuy("Buy") && IsBuy("buy") && IsBuy("BUY")
    ensures !IsBuy("Sell")
  {
    assert Lower("Buy") == "buy";
    assert Lower("BUY") == "buy";
    assert Lower("Sell")[0] == 's';
  }

  /** Factors applied to a wrong-side stop-loss: 0.5% below / above the limit price. */
  const BuyStopFactor: real := 0.995
  const SellStopFactor: real := 1.005

  /**
   * The stop-loss rule of `place_order`: a truthy buy stop at or above the
   * limit price becomes 0.5% below it; a truthy sell stop at or below the
   * limit price becomes 0.5% above it. NaN compares false and stays.
   */
  function NudgeStop(buy: bool, price: real, stop: PyFloat): (r: PyFloat)
    ensures !Truthy(stop) || !stop.Num? ==> r == stop
    ensures r != stop ==> stop.Num? && stop.v != 0.0
    ensures r != stop && buy ==> stop.v >= price && r == Num(price * BuyStopFactor)
    ensures r != stop && !buy ==> stop.v <= price && r == Num(price * SellStopFactor)
  {
    if buy && Truthy(stop) && stop.Num? && stop.v >= price then Num(price * BuyStopFactor)
    else if !buy && Truthy(stop) && stop.Num? && stop.v <= price then Num(price * SellStopFactor)
    else stop
  }

  /** For a positive limit price, a numeric non-zero stop ends up strictly on the losing side. */
  lemma NudgeStopLosingSide(buy: bool, price: real, stop: PyFloat)
    requires price > 0.0 && stop.Num? && stop.v != 0.0
    ensures NudgeStop(buy, price, stop).Num?
    ensures buy ==> NudgeStop(buy, price, stop).v < price
    ensures !buy ==> NudgeStop(buy, price, stop).v > price
  {
  }

  /** A stop already on the losing side, a falsy stop and a NaN stop are left as they are. */
  lemma NudgeStopKeeps(buy: bool, price: real, stop: PyFloat)
    requires !Truthy(stop) || stop.NaN? || (buy && stop.v < price) || (!buy && stop.v > price)
    ensures NudgeStop(buy, price, stop) == stop
  {
  }

  /** Nudging twice is nudging once, for every price. */
  lemma NudgeStopIdempotent(buy: bool, price: real, stop: PyFloat)
    ensures NudgeStop(buy, price, NudgeStop(buy, price, stop)) == NudgeStop(buy, price, stop)
  {
  }

  /** The order body: the fields of `order_params`; `Null` marks an omitted key. */
  datatype OrderRequest = OrderRequest(
    symbol: string,
    side: string,
    orderType: string,
    qty: real,
    price: real,
    positionIdx: int,
    stopLoss: PyFloat,
    takeProfit: PyFloat)

  /** What `place_order` sends: the leverage update it issues (if any), then the order. */
  datatype Submission = Submission(leverageUpdate: Option<int>, order: OrderRequest)
}
