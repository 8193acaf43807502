# Trading-chart market-data utilities, modelled in Dafny

This project models the deterministic core of the market-data utilities of an
interactive candlestick chart (`interactive-trading-chart/src/lib/utils.js`):

- **Kline transform and filter** (`Klines`): each raw exchange row becomes a
  candle (`time = floor(ms / 1000)`, five parsed prices/volume) or is dropped
  when a field is NaN or the OHLC relationships are broken.
- **Fetch fallback decision** (`Fetch`): `fetchBinanceData` makes one request;
  a network failure, a non-ok status, an undecodable or non-array body, an
  empty array or an array holding `null` (indexing it throws) makes it return
  the mock series instead; otherwise the filtered rows are returned, even
  when none survives.
- **Mock series generator** (`MockData`): `generateMockData` as an imperative
  loop that walks `i` from `limit - 1` down to 0, pushes one candle per hour
  and chains each close into the next open. It is proved equal to a
  specification function (`MockSeries`), about which spacing, chaining, OHLC
  ordering, positivity and the 1% floor are proved.
- **Lookup tables** (`SymbolTables`): interval durations, the per-symbol base
  price, volatility and base volume with their defaults, and the price
  precision rule.
- **Trendline slope** (`Trendlines`): `calculateSlope` with its guard against
  a zero time difference.

`Math.random` is an injected sequence `draws` of reals, four per candle (the
change, the upper wick, the lower wick, the volume, in the order the JavaScript code calls `Math.random`);
`Date.now()` is the parameter `now`, already in whole seconds. The HTTP
response is the `Response` datatype. Prices are reals, so the model is exact
arithmetic, not IEEE doubles. `None` in an `Option<real>` field stands for
NaN.

The model follows the code as written: `fetchBinanceData` makes a single
request with no retry, backoff or timeout; the generator's wick factor is
0.5; symbols without "USDT" get precision 8; and there is no trendline
validation and no point-to-segment distance in this code. The kline filter
checks only NaN and the OHLC order: a fetched candle may keep a zero or
negative price, a negative volume or a negative time, and `Klines.ToCandle`
keeps such rows as the code does.

## Model

| member | source | states |
|---|---|---|
| `Klines.SecondsOf` | interactive-trading-chart/src/lib/utils.js:73 | the candle time is the millisecond open time divided by 1000 and rounded down: `t*1000 <= ms < t*1000 + 1000` |
| `Klines.ToCandle` | interactive-trading-chart/src/lib/utils.js:71-96 | a row yields a candle exactly when none of its six fields is NaN and low <= open, close <= high (and low <= high); the kept candle carries the row's values and `floor(ms/1000)` and is OHLC-ordered |
| `Klines.TransformAll` | interactive-trading-chart/src/lib/utils.js:71-97 | the map-then-filter output is no longer than the input and every surviving candle is OHLC-ordered |
| `Klines.TransformAllSelects` | interactive-trading-chart/src/lib/utils.js:71-97 | the output is an order-preserving selection of the rows: candle k is the transform of row `KeptPositions[k]`, positions strictly increase, and a row is selected exactly when it is not dropped |
| `Klines.TransformAllAppend` | interactive-trading-chart/src/lib/utils.js:71-97 | filtering distributes over concatenation of row batches |
| `Klines.TransformAllKeepsValid` | interactive-trading-chart/src/lib/utils.js:81-97 | when every row is valid, every row is kept in place and nothing is lost |
| `Klines.TransformAllDropsInvalid` | interactive-trading-chart/src/lib/utils.js:81-97 | when every row is invalid, the result is empty |
| `Fetch.Rows` | interactive-trading-chart/src/lib/utils.js:71-73 | a null-free JSON array gives one row per element, in order |
| `Fetch.TryFetch` | interactive-trading-chart/src/lib/utils.js:56-102 | the try block throws (falls back) exactly on a network error, a non-ok status, an undecodable or non-array body, an empty array or an array containing null |
| `Fetch.FetchBinanceData` | interactive-trading-chart/src/lib/utils.js:49-111 | the result is exactly the mock series for the same symbol and limit when the try block throws, and the transformed rows otherwise; with draws in [0,1) every returned candle is OHLC-ordered |
| `Fetch.ArrayIsNeverReplaced` | interactive-trading-chart/src/lib/utils.js:64-102 | a non-empty, null-free array yields its filtered rows, at most one candle per row, never the mock series |
| `Fetch.AllRowsDroppedGivesEmpty` | interactive-trading-chart/src/lib/utils.js:71-102 | a non-empty batch whose every row is invalid yields an empty series, not the fallback |
| `Fetch.FetchResultOrdered` | interactive-trading-chart/src/lib/utils.js:88-109 | whichever branch is taken, every returned candle is OHLC-ordered, and the fallback returns exactly `limit` candles |
| `MockData.MockSeries` | interactive-trading-chart/src/lib/utils.js:175-230 | the specified series has `Count(limit)` candles, candle k built from the running price before step k and that step's four draws |
| `MockData.BuildCandle` | interactive-trading-chart/src/lib/utils.js:202-223 | from a positive running price, positive volatility and base volume and draws in [0,1), the loop body's candle opens at the price, is OHLC-ordered with positive prices, has close and low at least 1% of the price, and volume in [0.5, 1.5) times the base volume |
| `MockData.GenerateMockData` | interactive-trading-chart/src/lib/utils.js:175-230 | the loop returns exactly the specified series: `limit` candles for a positive limit and none otherwise (the descending loop at line 200), the first opening at the base price, the last at `now`, each one 3600 s after and opening at the close of the one before |
| `MockData.CloseFloor` | interactive-trading-chart/src/lib/utils.js:207 | the close is never below 1% of the running price |
| `MockData.PriceBeforePositive` | interactive-trading-chart/src/lib/utils.js:196-225 | the running price carried from close to open stays strictly positive |
| `MockData.CandleFromShape` | interactive-trading-chart/src/lib/utils.js:202-214 | from a positive price and draws in [0,1): high >= max(open,close), low <= min(open,close), close and low >= 1% of the price, all prices positive, volume in [0.5, 1.5) times the base volume |
| `MockData.MockSeriesTimes` | interactive-trading-chart/src/lib/utils.js:197-201 | candle k has time `now - (limit-1-k)*3600`, so times rise by 3600 and the last equals `now` |
| `MockData.MockSeriesChained` | interactive-trading-chart/src/lib/utils.js:196-225 | the first open is the base price and each later open equals the previous unrounded close |
| `MockData.MockSeriesWellFormed` | interactive-trading-chart/src/lib/utils.js:202-225 | with draws in [0,1) every generated candle is OHLC-ordered with positive prices, close and low at least 1% of its open, and volume within half and one and a half times the base volume |
| `SymbolTables.IntervalSeconds` | interactive-trading-chart/src/lib/utils.js:233-240 | tabled codes give their duration, any other code 3600; the result is always positive |
| `SymbolTables.IntervalCodesCovered` | interactive-trading-chart/src/lib/utils.js:9-25 | every key of INTERVALS has a duration in the seconds table and vice versa |
| `SymbolTables.IntervalDurationsAscend` | interactive-trading-chart/src/lib/utils.js:233-239 | the offered codes, in order, last 60 s up to 2592000 s, strictly increasing |
| `SymbolTables.BasePrice` | interactive-trading-chart/src/lib/utils.js:181-194 | the starting price is positive and 100 for any symbol the switch does not list |
| `SymbolTables.Volatility` | interactive-trading-chart/src/lib/utils.js:242-250 | volatility lies in [0.03, 0.08] and is 0.05 for unlisted symbols |
| `SymbolTables.BaseVolume` | interactive-trading-chart/src/lib/utils.js:252-260 | base volume is positive and 1000000 for unlisted symbols |
| `SymbolTables.ProfileTablesAgree` | interactive-trading-chart/src/lib/utils.js:242-260 | the volatility and volume tables list exactly the ten profiled symbols, each of which has its own base-price case (not the default 100), and all of them are popular trading pairs |
| `SymbolTables.IncludesIff` | interactive-trading-chart/src/lib/utils.js:263 | the containment test holds exactly when "USDT" occurs at some position of the symbol |
| `SymbolTables.PricePrecision` | interactive-trading-chart/src/lib/utils.js:262-270 | precision is 2, 6 or 8; 8 exactly for symbols without "USDT"; among symbols containing "USDT", 6 exactly for the low-price list |
| `SymbolTables.PrecisionByList` | interactive-trading-chart/src/lib/utils.js:262-270 | precision is 6 exactly for the DOGE, ADA, XRP and MATIC USDT pairs and 2 exactly for the other symbols containing "USDT" |
| `SymbolTables.TradingPairsPrecision` | interactive-trading-chart/src/lib/utils.js:28-44 | every popular trading pair gets precision 2 or 6 |
| `Trendlines.CalculateSlope` | interactive-trading-chart/src/lib/utils.js:322-326 | equal times give slope 0; otherwise slope times the time difference equals the price difference |
| `Trendlines.SlopeSymmetric` | interactive-trading-chart/src/lib/utils.js:322-326 | swapping start and end does not change the slope |
| `Trendlines.SlopeCollinear` | interactive-trading-chart/src/lib/utils.js:322-326 | a point has the line's slope from the start exactly when its price lies on the line |

## Left out

- The `fetch` calls, URL construction and `response.json()`: network I/O, represented by the `Response` datatype.
- `getCurrentPrice` and `get24hrStats`: one network call each plus parsing of fields, with `null` on failure; nothing beyond I/O.
- `parseFloat` and number coercion themselves: a row is given with its open time as the number that `kline[0] / 1000` coerces entry 0 to (so `null`, `""` or `true` give time 0 and `"12abc"` gives NaN) and its other five entries as `parseFloat` gives them; `None` stands for whatever yields NaN. Infinities (`parseFloat("Infinity")`) and non-finite times are not represented.
- Floating point: prices are exact reals, so rounding error in the generator's arithmetic is not modelled.
- MockData.GenerateMockData: the `toFixed` rounding of prices (to the symbol's precision) and volume (to 2 decimals) is not modelled; the pushed candle holds the unrounded values, so positivity and ordering are proved before rounding only.
- MockData.GenerateMockData: a non-integer `limit`, which the JavaScript loop would accept, is not modelled; `limit` is an integer.
- Default arguments: `fetchBinanceData` and `generateMockData` default to symbol "BTCUSDT", interval "1h" and limit 200; the model's operations take every argument explicitly.
- The `interval` argument of `fetchBinanceData` only reaches the request URL, which is not modelled; the mock fallback is hourly whatever interval was requested (it always uses the one-hour step), and the model reproduces that.
- Fetch.TryFetch: does not model the RangeError that spreading a filtered array longer than the JavaScript engine's argument limit into `Math.min`/`Math.max` (the price-range log) would throw, which would also cause the fallback; such batches are far beyond what the exchange returns.
- `formatPrice`, `formatVolume`, `formatPercentage` and `formatTimestamp`: float-to-string conversion and locale date formatting.
- `saveTrendlines` and `loadTrendlines`: thin wrappers over browser storage and JSON serialisation.
- The console diagnostics, including the price-range log after filtering.
- Table lookups for keys inherited from the JavaScript object prototype (such as `constructor`) are not modelled: each table is a map over its own keys.
- Retry with backoff, request timeouts, trendline validation and point-to-segment distance: the code has none of them.
