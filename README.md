# Bybit futures bot — decision core in Dafny

This project models the decision logic of a small Bybit linear-futures trading bot. The bot runs a cycle every ten seconds:

1. It checks three gates: a cool-down after the last closed position, no open position, and no open limit order. While checking the order gate it sweeps and cancels orders older than three minutes.
2. It sorts the candles by time.
3. It takes support and resistance as the 20-candle low and high.
4. It submits one limit order at the level the strategy picked (support for a long, resistance for a short), moved by the wrapper's small maker offset. The order's stop-loss and take-profit come from the ATR (average true range) of the candles, measured from that level.

The model also covers the indicator formulas: EMA, MACD, RSI, the stochastic oscillator and the Bollinger bands. It covers both exchange wrappers as well:

- `bybit_demo_session.py`, a hand-rolled REST client that signs a sorted `k=v&…` payload;
- `data_fetcher.py`, a client over the pybit SDK.

Both wrappers are modelled for their order-shaping rules (maker offset, stop nudging, position index, leverage update) and their housekeeping rules (position filters, latest closed position, stale-order sweep).

The model works like this:

- Prices are exact `real`s.
- A pandas NaN is `None`.
- A Python "float or None" argument is `PyFloat` (`Null`, `NaN` or `Num(v)`), with Python truthiness.
- Every exchange answer is an input: `None` when the request failed, otherwise the decoded list. The clock is an input too.

Modules follow the source files:

- `Rolling` and `Candles` hold the shared windows and records.
- `Strategy` models `strategy.py`, `RiskManagement` models `risk_management.py` and `Indicators` models `indicators.py`.
- `Exchange` holds the records and rules both wrappers share.
- `BybitDemoSession` and `DataFetcher` model the two wrappers.
- `TradingBot` models `job`.

`calculate_atr` adds two columns to the caller's frame, so the frame is a class (`Candles.Frame`) that `CalculateAtr` modifies. The other methods are the stale-order sweep (`Exchange.SweepStaleOrders`), the two `get_open_orders` that run it, the two `place_order`s, `DataFetcher.SetLeverage`, `RiskManagement.CalculateDynamicRiskManagement` and `job` (`TradingBot.CheckGates`, `TradingBot.Trade`, `TradingBot.Job`). Everything else is functions.

Notes on the code:

- **ATR rows.** The ATR is defined from row `atr_period - 1` on, that is once there are `atr_period` rows. The true range of row 0 is `high - low`, because pandas' row-wise `max` skips the NaN previous close (risk_management.py:16-17).
- **Worked example.** With an entry of 60050, an ATR of 200, a multiplier of 1.5 and a ratio of 2, the levels are a stop of 59750 and a take-profit of 60650 (`RiskManagement.LevelsExample`).
- **Maker offset.** `data_fetcher.py` offsets the limit price by 0.03% (`0.9997` and `1.0003`), although its comments say 0.1%.
- **Strategy interface.** `trading_bot.py` imports a `Strategies` class and calls `determine_market_trend` and a four-argument `support_resistance_strategy` that returns a pair. None of these exist in `strategy.py`, whose three-argument method returns one value. `job` therefore takes the signal `(position_type, order_price)` as an input, and `strategy.py` is modelled as written.
- **Risk settings.** When `ATR_MULTIPLIER` and `RISK_RATIO` are unset, the bot falls back to multiplier 1.0 and ratio 1.0 (`TradingBot.DefaultBotConfig`; at these settings stop and take lie one ATR either side of the order price, `TradingBot.FallbackLevelsSymmetric`). The class defaults are 1.5 and 2.0 (`RiskManagement.DefaultConfig`).

## Model

| member | source | states |
|---|---|---|
| Rolling.Min | strategy.py:18 | the window minimum is attained in it and below every element |
| Rolling.Max | strategy.py:19 | the window maximum is attained in it and above every element |
| Rolling.MeanWithin | risk_management.py:17 | a rolling mean lies within any bounds that hold for its window |
| Rolling.MeanBounds | indicators.py:34 | a rolling mean lies between the window's minimum and maximum |
| Rolling.Window | strategy.py:18-19 | a rolling window at row i is the `w` rows ending at i, in order |
| Candles.Frame.constructor | strategy.py:10-14 | a new frame holds the given rows and neither ATR column yet |
| Strategy.SortByTimestamp | strategy.py:13 | the result is ascending by timestamp and a permutation of the rows |
| Strategy.PrepareDataframe | strategy.py:9-14 | an empty kline list raises (None); otherwise the rows come back sorted by timestamp as a permutation |
| Strategy.Support | strategy.py:18 | defined iff there are at least 20 rows; then it is the minimum low of the last 20 rows, attained in them |
| Strategy.Resistance | strategy.py:19 | defined iff there are at least 20 rows; then it is the maximum high of the last 20 rows, attained in them |
| Strategy.IdentifySupportResistance | strategy.py:16-20 | returns the pair (support, resistance) at the last row |
| Strategy.SupportAtMostResistance | strategy.py:18-19 | if every candle has low <= high, then support <= resistance |
| Strategy.SupportResistanceStrategy | strategy.py:22-29 | 'long' iff price <= support*1.01; 'short' iff not long and price >= resistance*0.99; otherwise None. An undefined level never triggers |
| Strategy.InsufficientDataNoSignal | strategy.py:18-29 | with fewer than 20 rows, no signal is produced |
| Strategy.LongTakesPrecedence | strategy.py:25-28 | when both proximity tests hold, the result is 'long' |
| Strategy.ProximityExample | strategy.py:22-29 | support 60000 and resistance 62000 give 'long' at 60050, 'short' at 61500 and nothing at 61000 |
| RiskManagement.PreviousCloses | risk_management.py:15 | the previous-close column is the close shifted by one row, undefined at row 0 |
| RiskManagement.TrueRange | risk_management.py:16 | the true range is the largest of high-low, abs(high-prev close) and abs(low-prev close); it is high-low at row 0 and never negative when low <= high |
| RiskManagement.TrueRanges | risk_management.py:16 | the `tr` column has one true range per row |
| RiskManagement.Atr | risk_management.py:17 | defined iff 1 <= period <= number of rows |
| RiskManagement.AtrWithinTrueRanges | risk_management.py:17 | the ATR lies between any bounds that hold for the last `period` true ranges |
| RiskManagement.AtrNonNegative | risk_management.py:16-17 | the ATR is >= 0 unless its window includes row 0 and that row has high < low |
| RiskManagement.ConstantSeriesAtrZero | risk_management.py:16-17 | when high = low = close is constant, the ATR is 0 |
| RiskManagement.CalculateAtr | risk_management.py:11-18 | adds the `previous_close` and `tr` columns to the frame in place, leaves its rows unchanged, and returns the ATR at the last row |
| RiskManagement.RiskLevels | risk_management.py:20-31 | raises iff the trend is not 'long' or 'short'; the levels are NaN iff the trend is valid and the ATR is undefined |
| RiskManagement.LevelsOrdered | risk_management.py:22-29 | with m, r, ATR >= 0: a long has stop <= P <= take, a short has take <= P <= stop; the take is r times as far from P as the stop, and the stop is m*ATR from P |
| RiskManagement.LevelsExample | risk_management.py:24-29 | P=100 with distance 5 and ratio 2 gives 95/110 (long) and 105/90 (short); P=60050 with m=1.5 and ATR=200 gives 59750/60650 |
| RiskManagement.CalculateDynamicRiskManagement | risk_management.py:20-33 | adds the ATR columns to the frame and returns the levels for the frame's ATR |
| Indicators.Alpha | indicators.py:6 | the smoothing factor of a span lies in (0, 1] |
| Indicators.Ema | indicators.py:6 | the smoothed series has one value per input and starts at the first input (`adjust=False`) |
| Indicators.EmaRecurrence | indicators.py:6 | the EMA starts at the first close, then e[i] = a*x[i] + (1-a)*e[i-1] |
| Indicators.EmaPrefix | indicators.py:6 | the EMA of a prefix is the prefix of the EMA, so later rows never change earlier values |
| Indicators.EmaSmooths | indicators.py:6 | the recursive EMA satisfies the adjust=False recurrence at every row |
| Indicators.EmaConstant | indicators.py:6 | the EMA of a constant series is that constant |
| Indicators.EmaWithin | indicators.py:6 | the EMA stays within any bounds of its inputs |
| Indicators.CalculateEma | indicators.py:5-6 | the result is the adjust=False smoothing of the closes with a = 2/(span+1) |
| Indicators.CalculateMacd | indicators.py:17-22 | MACD = EMA12 - EMA26 at every row; the signal is the adjust=False smoothing of MACD with span 9 |
| Indicators.MacdOfConstantIsZero | indicators.py:17-22 | on a constant close series, MACD and its signal are 0 everywhere |
| Indicators.Gains | indicators.py:10-11 | each gain is the positive part of the change and is >= 0 (0 at row 0) |
| Indicators.Losses | indicators.py:10-12 | each loss is the negated negative part of the change and is >= 0 |
| Indicators.GainMinusLoss | indicators.py:10-12 | gain - loss equals the change, and at most one of them is non-zero |
| Indicators.MeanGainLossNonNegative | indicators.py:11-12 | the rolling mean gain and the rolling mean loss are >= 0 |
| Indicators.Rsi | indicators.py:10-14 | a defined RSI value lies in [0, 100] |
| Indicators.RsiRange | indicators.py:9-14 | RSI is defined iff the window fits and the mean gain or the mean loss is > 0; it lies in [0, 100]; when the mean loss is > 0 it is below 100 and rsi*(g+l) = 100*g; when the mean loss is 0 and the mean gain > 0 it is exactly 100 (pandas' infinite rs) |
| Indicators.RsiFormula | indicators.py:13-14 | for l > 0, 100 - 100/(1+g/l) lies in [0, 100) and equals 100*g/(g+l) |
| Indicators.CalculateRsi | indicators.py:9-14 | every defined RSI value lies in [0, 100] |
| Indicators.StochasticK | indicators.py:26-28 | %K is defined only on rows where the window fits |
| Indicators.StochasticKDefined | indicators.py:26-28 | %K is defined iff the window fits and the rolling high differs from the rolling low (a zero-width range is NaN or infinite) |
| Indicators.StochasticKRange | indicators.py:26-28 | when low <= close <= high per candle, every defined %K lies in [0, 100] |
| Indicators.StochasticKSeries | indicators.py:26-28 | the %K column has one value per row, the row's %K, and lies in [0, 100] when closes are within range |
| Indicators.StochasticD | indicators.py:29 | %D at a row of the %K series is defined iff the row has two predecessors and all three %K values are defined, and it is then their arithmetic mean |
| Indicators.StochasticDRange | indicators.py:29 | a defined %D over a %K series within [0, 100] lies in [0, 100] |
| Indicators.StochasticDSeries | indicators.py:29 | the %D column has one value per %K value; from the third row on it is (k[i-2] + k[i-1] + k[i]) / 3, NaN if any of the three is NaN; it is NaN on the first two rows; it lies in [0, 100] when %K does |
| Indicators.CalculateStochastic | indicators.py:25-30 | %K and %D have one value per row (default period 14); the returned %D is the three-row rolling mean of the returned %K (`StochasticDSeries`); both lie in [0, 100] when closes are within range; %D is undefined on the first two rows |
| Indicators.BollingerBands | indicators.py:34-37 | the bands at a row are defined iff the window fits and the std is defined, and upper and lower are 2*std from the middle |
| Indicators.BollingerSymmetric | indicators.py:36-37 | upper - middle = middle - lower = 2*std, and the middle band lies between the window's lowest and highest close |
| Indicators.CalculateBollingerBands | indicators.py:33-38 | the bands are defined iff the window fits and the std is defined, and they are symmetric by 2*std |
| Exchange.ActivePositions | bybit_demo_session.py:137 | the active filter keeps only listed positions of positive size and never grows the list |
| Exchange.ClosedPositions | bybit_demo_session.py:209 | the closed filter keeps only listed positions of size zero and never grows the list |
| Exchange.ActivePositionsExactly | bybit_demo_session.py:137 | the active list holds exactly the positions with size > 0 |
| Exchange.ActivePositionsAppend | bybit_demo_session.py:137 | the filter distributes over concatenation, so it keeps the original order |
| Exchange.ClosedPositionsExactly | bybit_demo_session.py:209 | the closed list holds exactly the positions with size == 0 |
| Exchange.LatestUpdated | bybit_demo_session.py:212 | the result is an element with maximal updatedTime; ties go to the first such element |
| Exchange.LastClosed | bybit_demo_session.py:209-216 | None iff no position has size 0; otherwise a size-0 position whose updatedTime no other size-0 position exceeds |
| Exchange.IsStale | bybit_demo_session.py:165-168 | an order is stale iff its creation time in ms lies more than 180 s before `now` |
| Exchange.StaleOrders | bybit_demo_session.py:165-168 | the stale list holds only listed orders that are stale and never grows the list |
| Exchange.StaleOrdersExactly | bybit_demo_session.py:165-168 | the orders selected are exactly those with now - createdTime/1000 > 180 (strict) |
| Exchange.StaleOrdersAppend | bybit_demo_session.py:165-168 | the selection distributes over concatenation, so it keeps the listed order |
| Exchange.Ids | bybit_demo_session.py:171-172 | the cancelled ids are the selected orders' ids, in order |
| Exchange.StaleOrdersCancelledExactly | bybit_demo_session.py:162-177 | the ids cancelled are exactly the ids of the stale listed orders |
| Exchange.SweepStaleOrders | bybit_demo_session.py:162-175 | the two loops cancel the ids of the stale orders, in their listed order |
| Exchange.Truthy | bybit_demo_session.py:90-95 | a Python float argument is falsy iff it is None or 0.0 (NaN is truthy) |
| Exchange.Sent | bybit_demo_session.py:109-112 | a truthy stop or take is sent unchanged; a falsy one (None or 0) is not sent |
| Exchange.Lower | bybit_demo_session.py:88 | lower-casing maps each character and keeps the length |
| Exchange.SideNames | bybit_demo_session.py:88 | 'Buy', 'buy' and 'BUY' are buy sides; 'Sell' is not |
| Exchange.NudgeStop | bybit_demo_session.py:88-97 | a stop that is None, NaN or 0 is kept; a stop is only replaced when it is a non-zero number on the wrong side of the limit price (>= for a buy, <= for a sell), and then by price*0.995 (buy) or price*1.005 (sell) |
| Exchange.NudgeStopLosingSide | bybit_demo_session.py:90-97 | for price > 0, a numeric non-zero stop ends up strictly below a buy price and strictly above a sell price |
| Exchange.NudgeStopKeeps | bybit_demo_session.py:90-95 | a falsy or NaN stop, or one already on the losing side, is left unchanged |
| Exchange.NudgeStopIdempotent | bybit_demo_session.py:88-97 | nudging a nudged stop changes nothing, for every price, side and stop |
| BybitDemoSession.KeyLess | bybit_demo_session.py:15 | the key order of Python's `sorted`: irreflexive, and a proper prefix sorts first |
| BybitDemoSession.KeyLessAsymmetric | bybit_demo_session.py:15 | the key order is asymmetric |
| BybitDemoSession.KeyLessTotal | bybit_demo_session.py:15 | any two distinct keys are ordered |
| BybitDemoSession.KeyLessOrder | bybit_demo_session.py:15 | the non-strict key order is transitive |
| BybitDemoSession.InsertByKey | bybit_demo_session.py:15 | inserting into a key-sorted list keeps it sorted and adds exactly one entry |
| BybitDemoSession.SortByKey | bybit_demo_session.py:15 | the parameters come back sorted by key, as a permutation |
| BybitDemoSession.SortByKeyDistinct | bybit_demo_session.py:15 | sorting keeps the keys distinct |
| BybitDemoSession.SortedUnique | bybit_demo_session.py:15 | two key-sorted permutations of one parameter set with distinct keys are equal |
| BybitDemoSession.SignaturePayload | bybit_demo_session.py:15 | no parameters sign the empty string; one parameter signs `k=v` |
| BybitDemoSession.Render | bybit_demo_session.py:15 | each parameter is rendered as key=value, in order |
| BybitDemoSession.PayloadKeysAscending | bybit_demo_session.py:15 | the signed string joins the parameters with '&' in strictly ascending key order |
| BybitDemoSession.PayloadOrderIndependent | bybit_demo_session.py:15 | dict insertion order does not change the signed string |
| BybitDemoSession.PayloadExample | bybit_demo_session.py:15 | {symbol: BTCUSDT, category: linear} signs as "category=linear&symbol=BTCUSDT" |
| BybitDemoSession.PositionIdx | bybit_demo_session.py:80-85 | positionIdx is 0 in one-way mode, and 1 for buy and 2 otherwise in hedge mode |
| BybitDemoSession.PlaceOrder | bybit_demo_session.py:71-121 | always updates the leverage; uses positionIdx 0 and price = current*0.9999 (buy) or *1.0001; the stop is nudged and sent only if truthy, the take is sent only if truthy; for price > 0 the limit sits on the maker side and a numeric stop on the losing side |
| BybitDemoSession.GetOpenPositions | bybit_demo_session.py:125-148 | None on failure; otherwise exactly the size > 0 positions, in order |
| BybitDemoSession.GetLastClosedPosition | bybit_demo_session.py:197-219 | a size-0 position with maximal updatedTime; None when there is none or the request failed |
| BybitDemoSession.GetOpenOrders | bybit_demo_session.py:150-180 | returns the full fetched list; cancels exactly the stale ones, in order; no cancels on failure |
| DataFetcher.GetCurrentLeverage | data_fetcher.py:44-60 | the first position's leverage; None for an empty list or a failed request |
| DataFetcher.SetLeverage | data_fetcher.py:62-79 | no update iff the current leverage equals the requested one; otherwise an update to the requested value |
| DataFetcher.PositionIdx | data_fetcher.py:88 | positionIdx is 1 iff the side lower-cases to 'buy', and 2 otherwise |
| DataFetcher.PlaceOrder | data_fetcher.py:83-125 | leverage updated unless already equal; positionIdx 1/2; price = current*0.9997 (buy) or *1.0003; the stop is nudged and sent only if truthy, the take is sent only if truthy; for price > 0 the limit sits on the maker side and a numeric stop on the losing side |
| DataFetcher.SameQueries | data_fetcher.py:140-217 | the pybit wrapper's position filters answer exactly as the session's |
| DataFetcher.GetOpenPositions | data_fetcher.py:128-152 | None on failure; otherwise exactly the size > 0 positions, in order |
| DataFetcher.GetLastClosedPosition | data_fetcher.py:201-226 | a size-0 position with maximal updatedTime; None when there is none or the request failed |
| DataFetcher.GetOpenOrders | data_fetcher.py:156-185 | returns the full fetched list; cancels exactly the stale ones, in order; no cancels on failure |
| TradingBot.Cooling | trading_bot.py:45-52 | the cool-down holds iff some closed (size 0) position was updated less than 60 s before `now` |
| TradingBot.HasOpenPosition | trading_bot.py:54-57 | the position gate blocks iff the fetch succeeded and lists a position of positive size |
| TradingBot.HasOpenOrder | trading_bot.py:59-62 | the order gate blocks iff the fetch succeeded and lists any order; an order the sweep has just cancelled still blocks |
| TradingBot.Signalled | trading_bot.py:91 | the signal is taken iff the position type is a non-empty string and the order price is a truthy float |
| TradingBot.FallbackLevelsSymmetric | trading_bot.py:28-32 | at the fall-back multiplier 1.0 and ratio 1.0, a long's stop and take are price ∓ ATR and a short's price ± ATR |
| TradingBot.SideOf | trading_bot.py:97 | 'Buy' iff position_type == 'long', else 'Sell' |
| TradingBot.TakeProfitOnWinningSide | trading_bot.py:92-107 | with positive price, m, r and ATR, a long's take is sent and lies above its lowered limit price; a sent short take lies below its raised limit price |
| TradingBot.CheckGates | trading_bot.py:45-63 | cool-down iff the last close was under 60 s ago (60 s passes); then an open position; then any listed order, stale or not; the sweep runs only once the order gate is reached; a failed fetch blocks nothing |
| TradingBot.Trade | trading_bot.py:65-114 | no candles or no price ends the cycle; an empty kline list or a trend other than long/short raises; a falsy signal places nothing; otherwise exactly one limit order (type "Limit", one-way position index 0) on side Buy iff long, at the signal price moved by the maker offset (×0.9999 for a buy, ×1.0001 for a sell), with the risk manager's stop after the wrong-side nudge and its take, each sent only if truthy; for a positive order price, a numeric stop lies on the losing side of the limit price |
| TradingBot.Job | trading_bot.py:44-114 | each outcome holds iff its gate chain holds, in the source's order, with the cancelled ids of the sweep; a submitted order is a limit order (type "Limit", one-way position index 0) with the configured symbol, quantity and leverage, the signal's side, the signal price moved by the maker offset, the risk stop after the wrong-side nudge and the risk take, each sent only if truthy; for a positive order price, a numeric stop lies on the losing side |

## Left out

- HTTP transport (`send_request`, `requests`, the pybit `HTTP` session, `cancel_order`, response parsing): network I/O. Their results are inputs that are `None` on failure.
- HMAC-SHA256 signing (bybit_demo_session.py:16): a foreign cryptographic call. Only the signed string is modelled.
- `time.time()` and `_get_timestamp`: the clock readings are parameters. The cool-down check and the order sweep get separate readings.
- Printing, logging, `load_dotenv` and `os.getenv`: I/O. Configuration values are parameters, and `TradingBot.DefaultBotConfig` holds the fall-back values.
- `TradingBot.__init__` raising on missing API keys: it is environment I/O.
- The `schedule` loop in `run`: a process loop around `job`.
- `get_historical_data` and `get_real_time_price`: they are only fetches. Their results are the `history` and `price` inputs of a cycle.
- pandas mechanics (dtype conversion, string-to-float conversion of candle fields, NaN objects): frames are sequences of records with parsed numbers, and NaN is `None`.
- IEEE-754 rounding and infinities: prices are exact reals. An infinite stochastic value is modelled as undefined (`None`), like NaN.
- `str()` formatting of prices and quantities in the order parameters: the model keeps the numbers.
- The sample standard deviation of the Bollinger bands: it needs a square root, so the std series is an input.
- `determine_market_trend` and the `Strategies` class: they do not exist in `strategy.py`. The signal `job` reads from them is an input.
- TradingBot.Job: an order price that is NaN is not modelled. The order price is a number or None.
- Indicators.Alpha, Indicators.CalculateEma: require `span >= 1`. pandas raises `ValueError` for a smaller span, and that error path is not modelled.
- Exchange.Lower: models `str.lower()` on ASCII letters only.
- Strategy.SortByTimestamp: a stable insertion sort. pandas' default quicksort is not stable, so the order of rows with equal timestamps may differ.
- The exchange's answer to an order (`response['result']` or None): a `Submission` records what is sent, not whether the exchange accepted it.
- The `category` parameter ("linear") on each request: it is a constant.
