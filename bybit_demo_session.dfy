/**
 * `BybitDemoSession`: the hand-written REST wrapper the bot uses. Modelled
 * here: the sorted `k=v&...` string that is signed, the price, stop-loss and
 * positionIdx shaping of `place_order`, and the position and order queries
 * with their error path (a failed request returns `None`).
 */
module BybitDemoSession {
  import opened Wrappers
  import opened Exchange

  // ---------------------------------------------------------- signed payload

  /** Python's `str` ordering: lexicographic by code point, a proper prefix first. */
  predicate KeyLess(a: string, b: string)
    ensures KeyLess(a, b) ==> a != b
    ensures |a| < |b| && a == b[..|a|] ==> KeyLess(a, b)
    decreases |a|
  {
    if |a| == 0 then |b| > 0
    else if |b| == 0 then false
    else if a[0] != b[0] then a[0] < b[0]
    else
      assert |a| < |b| && a == b[..|a|] ==> a[1..] == b[1..][..|a| - 1];
      assert a[1..] != b[1..] ==> a != b;
      KeyLess(a[1..], b[1..])
  }

  lemma {:induction false} KeyLessAsymmetric(a: string, b: string)
    ensures KeyLess(a, b) ==> !KeyLess(b, a)
    decreases |a|
  {
    if |a| > 0 && |b| > 0 && a[0] == b[0] {
      KeyLessAsymmetric(a[1..], b[1..]);
    }
  }

  lemma {:induction false} KeyLessTotal(a: string, b: string)
    ensures a != b ==> KeyLess(a, b) || KeyLess(b, a)
    decreases |a|
  {
    if |a| > 0 && |b| > 0 && a[0] == b[0] {
      KeyLessTotal(a[1..], b[1..]);
      if a[1..] == b[1..] {
        assert a == [a[0]] + a[1..] && b == [b[0]] + b[1..];
      }
    }
  }

  type Param = (string, string)

  /** Keys in ascending order (ties allowed only between equal keys). */
  predicate SortedByKey(ps: seq<Param>)
  {
    forall i, j :: 0 <= i < j < |ps| ==> !KeyLess(ps[j].0, ps[i].0)
  }

  /** No key occurs twice, as in a Python dict. */
  predicate DistinctKeys(ps: seq<Param>)
  {
    forall i, j :: 0 <= i < |ps| && 0 <= j < |ps| && i != j ==> ps[i].0 != ps[j].0
  }

  function InsertByKey(p: Param, ps: seq<Param>): (r: seq<Param>)
    requires SortedByKey(ps)
    ensures SortedByKey(r)
    ensures multiset(r) == multiset(ps) + multiset{p}
    ensures |r| == |ps| + 1
  {
    if |ps| == 0 then [p]
    else if !KeyLess(ps[0].0, p.0) then
      assert forall j :: 0 <= j < |ps| ==> !KeyLess(ps[j].0, p.0) by {
        forall j | 0 <= j < |ps| ensures !KeyLess(ps[j].0, p.0) {
          if j > 0 { KeyLessOrder(p.0, ps[0].0, ps[j].0); }
        }
      }
      [p] + ps
    else
      var tail := InsertByKey(p, ps[1..]);
      assert ps == [ps[0]] + ps[1..];
      KeyLessAsymmetric(ps[0].0, p.0);
      assert forall x :: x in tail ==> x == p || x in ps[1..] by {
        forall x | x in tail ensures x == p || x in ps[1..] {
          assert x in multiset(tail);
        }
      }
      assert forall j :: 0 <= j < |tail| ==> !KeyLess(tail[j].0, ps[0].0) by {
        forall j | 0 <= j < |tail| ensures !KeyLess(tail[j].0, ps[0].0) {
          assert tail[j] in tail;
        }
      }
      [ps[0]] + tail
  }

  /** If a is not after b, and b is not after c, then a is not after c. */
  lemma {:induction false} KeyLessOrder(a: string, b: string, c: string)
    requires !KeyLess(b, a) && !KeyLess(c, b)
    ensures !KeyLess(c, a)
    decreases |a|
  {
    if |a| > 0 && |b| > 0 && |c| > 0 && a[0] == b[0] && b[0] == c[0] {
      KeyLessOrder(a[1..], b[1..], c[1..]);
    }
  }

  function SortByKey(ps: seq<Param>): (r: seq<Param>)
    ensures SortedByKey(r)
    ensures multiset(r) == multiset(ps)
    ensures |r| == |ps|
  {
    if |ps| == 0 then []
    else
      assert ps == [ps[0]] + ps[1..];
      InsertByKey(ps[0], SortByKey(ps[1..]))
  }

  /** A dict's items minus the first still have distinct keys. */
  lemma TailDistinct(ps: seq<Param>)
    requires |ps| > 0 && DistinctKeys(ps)
    ensures DistinctKeys(ps[1..])
  {
    var rest := ps[1..];
    assert forall i :: 0 <= i < |rest| ==> rest[i] == ps[i + 1];
  }

  /** Putting an item with a new key in front keeps keys distinct. */
  lemma ConsDistinct(x: Param, ps: seq<Param>)
    requires DistinctKeys(ps)
    requires forall y :: y in ps ==> y.0 != x.0
    ensures DistinctKeys([x] + ps)
  {
    var r := [x] + ps;
    assert forall i :: 1 <= i < |r| ==> r[i] == ps[i - 1] && r[i] in ps;
  }

  /** Inserting a key that is new keeps keys distinct. */
  lemma {:induction false} InsertByKeyDistinct(p: Param, ps: seq<Param>)
    requires SortedByKey(ps) && DistinctKeys(ps)
    requires forall x :: x in ps ==> x.0 != p.0
    ensures DistinctKeys(InsertByKey(p, ps))
    decreases |ps|
  {
    if |ps| == 0 {
    } else if !KeyLess(ps[0].0, p.0) {
      ConsDistinct(p, ps);
    } else {
      var rest := ps[1..];
      TailDistinct(ps);
      InsertByKeyDistinct(p, rest);
      var tail := InsertByKey(p, rest);
      forall x | x in tail ensures x.0 != ps[0].0 {
        assert x in multiset(tail);
        if x != p {
          assert x in multiset(rest);
          var k :| 0 <= k < |rest| && rest[k] == x;
          assert ps[k + 1] == x;
        }
      }
      ConsDistinct(ps[0], tail);
    }
  }

  /** Sorting a dict's items keeps their keys distinct. */
  lemma {:induction false} SortByKeyDistinct(ps: seq<Param>)
    requires DistinctKeys(ps)
    ensures DistinctKeys(SortByKey(ps))
    decreases |ps|
  {
    if |ps| > 0 {
      var rest := ps[1..];
      TailDistinct(ps);
      SortByKeyDistinct(rest);
      var sorted := SortByKey(rest);
      forall x | x in sorted ensures x.0 != ps[0].0 {
        assert x in multiset(sorted);
        assert x in rest;
        var k :| 0 <= k < |rest| && rest[k] == x;
        assert ps[k + 1] == x;
      }
      InsertByKeyDistinct(ps[0], sorted);
    }
  }

  lemma SortedTail(ps: seq<Param>)
    requires |ps| > 0 && SortedByKey(ps)
    ensures SortedByKey(ps[1..])
  {
    var rest := ps[1..];
    assert forall i :: 0 <= i < |rest| ==> rest[i] == ps[i + 1];
  }

  /** The first item of two such orderings is the same. */
  lemma HeadsEqual(a: seq<Param>, b: seq<Param>)
    requires SortedByKey(a) && SortedByKey(b) && DistinctKeys(a)
    requires multiset(a) == multiset(b) && |a| > 0
    ensures |b| > 0 && a[0] == b[0]
  {
    assert a[0] in multiset(b);
    var j :| 0 <= j < |b| && b[j] == a[0];
    assert b[0] in multiset(a);
    var k :| 0 <= k < |a| && a[k] == b[0];
    if k != 0 {
      assert a[k].0 != a[0].0;
      KeyLessTotal(a[k].0, a[0].0);
      assert false;
    }
  }

  lemma TailsSameItems(a: seq<Param>, b: seq<Param>)
    requires |a| > 0 && |b| > 0 && a[0] == b[0] && multiset(a) == multiset(b)
    ensures multiset(a[1..]) == multiset(b[1..])
  {
    assert a == [a[0]] + a[1..] && b == [b[0]] + b[1..];
    assert multiset(a[1..]) == multiset(a) - multiset{a[0]};
    assert multiset(b[1..]) == multiset(b) - multiset{b[0]};
  }

  /** Two key-sorted orderings of the same items with distinct keys are the same. */
  lemma {:induction false} SortedUnique(a: seq<Param>, b: seq<Param>)
    requires SortedByKey(a) && SortedByKey(b) && DistinctKeys(a)
    requires multiset(a) == multiset(b)
    ensures a == b
    decreases |a|
  {
    if |a| == 0 {
      assert |multiset(b)| == 0;
    } else {
      HeadsEqual(a, b);
      TailsSameItems(a, b);
      TailDistinct(a);
      SortedTail(a);
      SortedTail(b);
      SortedUnique(a[1..], b[1..]);
      assert a == [a[0]] + a[1..] && b == [b[0]] + b[1..];
    }
  }

  /** `'&'.join(parts)`. */
  function Join(parts: seq<string>, sep: string): string
  {
    if |parts| == 0 then ""
    else if |parts| == 1 then parts[0]
    else parts[0] + sep + Join(parts[1..], sep)
  }

  function Render(ps: seq<Param>): (r: seq<string>)
    ensures |r| == |ps| && forall i :: 0 <= i < |ps| ==> r[i] == ps[i].0 + "=" + ps[i].1
  {
    seq(|ps|, i requires 0 <= i < |ps| => ps[i].0 + "=" + ps[i].1)
  }

  /**
   * `_generate_signature`'s `param_str`: the items in ascending key order,
   * each rendered `k=v`, joined with `&`. Values are given already rendered.
   */
  function SignaturePayload(params: seq<Param>): (r: string)
    ensures |params| == 0 ==> r == ""
    ensures |params| == 1 ==> r == params[0].0 + "=" + params[0].1
  {
    var sorted := SortByKey(params);
    assert |params| == 1 ==> sorted == params by {
      if |params| == 1 {
        assert sorted[0] in multiset(params);
        assert params == [params[0]];
      }
    }
    Join(Render(sorted), "&")
  }

  /** The items behind the payload are the dict's items in strictly ascending key order. */
  lemma PayloadKeysAscending(params: seq<Param>)
    requires DistinctKeys(params)
    ensures var sorted := SortByKey(params);
      multiset(sorted) == multiset(params) &&
      (forall i, j :: 0 <= i < j < |sorted| ==> KeyLess(sorted[i].0, sorted[j].0)) &&
      SignaturePayload(params) == Join(Render(sorted), "&")
  {
    var sorted := SortByKey(params);
    SortByKeyDistinct(params);
    forall i, j | 0 <= i < j < |sorted| ensures KeyLess(sorted[i].0, sorted[j].0) {
      KeyLessTotal(sorted[i].0, sorted[j].0);
    }
  }

  /** The payload depends only on the dict's items, not on their insertion order. */
  lemma PayloadOrderIndependent(p: seq<Param>, q: seq<Param>)
    requires DistinctKeys(p) && multiset(p) == multiset(q)
    ensures SignaturePayload(p) == SignaturePayload(q)
  {
    SortByKeyDistinct(p);
    SortedUnique(SortByKey(p), SortByKey(q));
  }

  lemma PayloadExample()
    ensures SignaturePayload([("symbol", "BTCUSDT"), ("category", "linear")]) == "category=linear&symbol=BTCUSDT"
  {
    var ps := [("symbol", "BTCUSDT"), ("category", "linear")];
    assert KeyLess("category", "symbol");
    assert SortByKey(ps[1..]) == [("category", "linear")];
    assert SortByKey(ps) == [("category", "linear"), ("symbol", "BTCUSDT")];
  }

  // ------------------------------------------------------------- place_order

  datatype PositionMode = OneWay | Hedge

  /** The session is hard-wired to one-way mode. */
  const Mode: PositionMode := OneWay

  /** Hedge mode: 1 for a buy, 2 otherwise; one-way mode: 0. */
  function PositionIdx(mode: PositionMode, side: string): (idx: int)
    ensures mode == OneWay ==> idx == 0
    ensures mode == Hedge ==> (idx == 1 <==> IsBuy(side)) && (idx == 2 <==> !IsBuy(side))
  {
    if mode == Hedge then (if IsBuy(side) then 1 else 2) else 0
  }

  /** Maker offsets: a buy is priced 0.01% below the given price, anything else 0.01% above. */
  const BuyPriceFactor: real := 0.9999
  const SellPriceFactor: real := 1.0001

  /**
   * `place_order`: sets the leverage (always), then shapes the limit order:
   * the maker-offset price, the stop-loss nudged off the wrong side of that
   * price, and stop-loss / take-profit keys only when truthy.
   */
  method PlaceOrder(symbol: string, side: string, qty: real, currentPrice: real, leverage: int,
                    stopLoss: PyFloat, takeProfit: PyFloat)
    returns (s: Submission)
    ensures s.leverageUpdate == Some(leverage)
    ensures s.order.symbol == symbol && s.order.side == side && s.order.qty == qty
    ensures s.order.orderType == "Limit"
    ensures s.order.positionIdx == 0
    ensures s.order.price == currentPrice * (if IsBuy(side) then BuyPriceFactor else SellPriceFactor)
    ensures s.order.stopLoss == Sent(NudgeStop(IsBuy(side), s.order.price, stopLoss))
    ensures s.order.takeProfit == Sent(takeProfit)
    ensures currentPrice > 0.0 ==> (IsBuy(side) ==> s.order.price < currentPrice) && (!IsBuy(side) ==> s.order.price > currentPrice)
    ensures currentPrice > 0.0 && stopLoss.Num? && stopLoss.v != 0.0 ==>
      s.order.stopLoss.Num? &&
      (IsBuy(side) ==> s.order.stopLoss.v < s.order.price) &&
      (!IsBuy(side) ==> s.order.stopLoss.v > s.order.price)
  {
    var leverageUpdate := Some(leverage);
    var positionIdx := PositionIdx(Mode, side);
    var price: real;
    var stop := stopLoss;
    if IsBuy(side) {
      price := currentPrice * BuyPriceFactor;
      if Truthy(stop) && stop.Num? && stop.v >= price {
        stop := Num(price * BuyStopFactor);
      }
    } else {
      price := currentPrice * SellPriceFactor;
      if Truthy(stop) && stop.Num? && stop.v <= price {
        stop := Num(price * SellStopFactor);
      }
    }
    var order := OrderRequest(symbol, side, "Limit", qty, price, positionIdx, Null, Null);
    if Truthy(stop) {
      order := order.(stopLoss := stop);
    }
    if Truthy(takeProfit) {
      order := order.(takeProfit := takeProfit);
    }
    if currentPrice > 0.0 && stopLoss.Num? && stopLoss.v != 0.0 {
      NudgeStopLosingSide(IsBuy(side), price, stopLoss);
    }
    s := Submission(leverageUpdate, order);
  }

  // ----------------------------------------------------------------- queries

  /**
   * `get_open_positions`: the listed positions of size > 0 in their order;
   * `None` when the request fails (`fetched` is `None`).
   */
  function GetOpenPositions(fetched: Option<seq<Position>>): (r: Option<seq<Position>>)
    ensures r.Some? <==> fetched.Some?
    ensures r.Some? ==> r.value == ActivePositions(fetched.value)
    ensures r.Some? ==> forall p :: p in r.value <==> p in fetched.value && p.size > 0.0
  {
    if fetched.None? then None
    else
      ActivePositionsExactly(fetched.value);
      Some(ActivePositions(fetched.value))
  }

  /**
   * `get_last_closed_position`: a size-zero position with the newest
   * `updatedTime`; `None` when there is none or the request fails.
   */
  function GetLastClosedPosition(fetched: Option<seq<Position>>): (r: Option<Position>)
    ensures r.Some? <==> fetched.Some? && exists p :: p in fetched.value && p.size == 0.0
    ensures r.Some? ==> r.value in fetched.value && r.value.size == 0.0
    ensures r.Some? ==> forall q :: q in fetched.value && q.size == 0.0 ==> q.updatedTime <= r.value.updatedTime
  {
    if fetched.None? then None else LastClosed(fetched.value)
  }

  /**
   * `get_open_orders`: cancels every order older than 180 s (measured
   * against `now`) and returns the FULL fetched list, cancelled orders
   * included; `None` and no cancels when the request fails.
   */
  method GetOpenOrders(fetched: Option<seq<Order>>, now: real)
    returns (orders: Option<seq<Order>>, cancelled: seq<string>)
    ensures orders == fetched
    ensures fetched.None? ==> cancelled == []
    ensures fetched.Some? ==> cancelled == Ids(StaleOrders(fetched.value, now))
    ensures fetched.Some? ==> forall id :: id in cancelled <==> id in StaleIds(fetched.value, now)
  {
    if fetched.None? {
      return None, [];
    }
    cancelled := SweepStaleOrders(fetched.value, now);
    orders := fetched;
    StaleOrdersCancelledExactly(fetched.value, now);
  }
}
