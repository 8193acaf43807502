/** The synthetic candle generator used as the fetcher's fallback. The loop
    walks from the oldest candle to the newest, one hour apart, chaining
    each close into the next open. `Math.random` is replaced by a sequence
    of draws, four per candle (the change, the upper wick, the lower wick and
    the volume), and `Date.now` by `now`, already in whole seconds. */
module MockData {

  import opened Candles
  import opened SymbolTables

  /** How many candles a request for `limit` produces: the loop runs from
      limit - 1 down to 0, so none when limit <= 0. */
  function Count(limit: int): nat
  {
    if limit > 0 then limit else 0
  }

  /** Draws supply enough randomness for `n` candles. */
  predicate EnoughDraws(draws: seq<real>, n: nat)
  {
    4 * n <= |draws|
  }

  /** Every draw lies in [0, 1), as `Math.random` guarantees. */
  predicate UnitDraws(draws: seq<real>)
  {
    forall j :: 0 <= j < |draws| ==> 0.0 <= draws[j] < 1.0
  }

  /** Close of a candle opened at `price`: the open moved by a change of
      (d - 0.5) * volatility * price, but never below 1% of the price. */
  function CloseFrom(volatility: real, price: real, d: real): real
  {
    Max(price + (d - 0.5) * volatility * price, price * 0.01)
  }

  /** The candle built at `time` from the running price `price` and the four
      draws of its step: open at the price, close from the first draw, an
      upper and a lower wick of up to half the volatility times the price
      (the lower one floored at 1% of the price), and a volume between half
      and one and a half times the symbol's base volume. */
  function CandleFrom(volatility: real, baseVolume: real, time: int, price: real,
                      d0: real, d1: real, d2: real, d3: real): Candle
  {
    var open := price;
    var close := CloseFrom(volatility, price, d0);
    var high := Max(open, close) + d1 * volatility * price * 0.5;
    var low := Max(Min(open, close) - d2 * volatility * price * 0.5, price * 0.01);
    var volume := baseVolume * (0.5 + d3);
    Candle(time, open, high, low, close, volume)
  }

  /** The running price before candle `k` is built: the base price for the
      first candle, the previous close afterwards. */
  function PriceBefore(symbol: string, draws: seq<real>, k: nat): real
    requires EnoughDraws(draws, k)
  {
    if k == 0 then BasePrice(symbol)
    else CloseFrom(Volatility(symbol), PriceBefore(symbol, draws, k - 1), draws[4 * (k - 1)])
  }

  /** Time of candle `k` of `n`: the newest candle is at `now`, each older one
      an hour (the default interval) earlier. */
  function TimeOf(n: nat, now: int, k: nat): int
  {
    now - (n - 1 - k) * IntervalSeconds(DefaultInterval)
  }

  /** Candle `k` (oldest first) of a series of `n` candles ending at `now`. */
  function MockCandle(symbol: string, n: nat, now: int, draws: seq<real>, k: nat): Candle
    requires k < n && EnoughDraws(draws, n)
  {
    CandleFrom(Volatility(symbol), BaseVolume(symbol), TimeOf(n, now, k), PriceBefore(symbol, draws, k),
               draws[4 * k], draws[4 * k + 1], draws[4 * k + 2], draws[4 * k + 3])
  }

  /** The whole series for a request of `limit` candles. */
  function MockSeries(symbol: string, limit: int, now: int, draws: seq<real>): (s: seq<Candle>)
    requires EnoughDraws(draws, Count(limit))
    ensures |s| == Count(limit)
    ensures forall k :: 0 <= k < |s| ==> s[k] == MockCandle(symbol, Count(limit), now, draws, k)
  {
    seq(Count(limit), k requires 0 <= k < Count(limit) => MockCandle(symbol, Count(limit), now, draws, k))
  }

  /** The body of the generator's loop: one candle at `time` from the running
      price `currentPrice`, the symbol's volatility and base volume, and the
      four `Math.random` draws of the step, with the arithmetic written out as
      the JavaScript code writes it. Built from a positive price, a positive
      volatility and base volume, and draws in [0, 1), the candle is
      OHLC-ordered with positive prices, its close and low are at least 1% of
      the price, and its volume lies between half and one and a half times the
      base volume. */
  method BuildCandle(time: int, currentPrice: real, volatility: real, baseVolume: real,
                     r0: real, r1: real, r2: real, r3: real)
    returns (candle: Candle)
    ensures candle == CandleFrom(volatility, baseVolume, time, currentPrice, r0, r1, r2, r3)
    ensures currentPrice > 0.0 && volatility > 0.0 && baseVolume > 0.0 &&
            0.0 <= r0 < 1.0 && 0.0 <= r1 < 1.0 && 0.0 <= r2 < 1.0 && 0.0 <= r3 < 1.0 ==>
      candle.time == time && candle.open == currentPrice && Ordered(candle) && PositivePrices(candle) &&
      candle.close >= currentPrice * 0.01 && candle.low >= currentPrice * 0.01 &&
      baseVolume * 0.5 <= candle.volume < baseVolume * 1.5
  {
    var open := currentPrice;
    var change := (r0 - 0.5) * volatility * currentPrice;
    var close := Max(open + change, currentPrice * 0.01);
    var high := Max(open, close) + r1 * volatility * currentPrice * 0.5;
    var low := Max(Min(open, close) - r2 * volatility * currentPrice * 0.5, currentPrice * 0.01);
    var volume := baseVolume * (0.5 + r3);
    candle := Candle(time, open, high, low, close, volume);
    if currentPrice > 0.0 && volatility > 0.0 && baseVolume > 0.0 &&
       0.0 <= r0 < 1.0 && 0.0 <= r1 < 1.0 && 0.0 <= r2 < 1.0 && 0.0 <= r3 < 1.0 {
      CandleFromShape(volatility, baseVolume, time, currentPrice, r0, r1, r2, r3);
    }
  }

  /** Builds the mock series the way the JavaScript code does: a descending loop over
      i that pushes one candle per step and carries the close forward. */
  method GenerateMockData(symbol: string, limit: int, now: int, draws: seq<real>)
    returns (data: seq<Candle>)
    requires EnoughDraws(draws, Count(limit))
    ensures data == MockSeries(symbol, limit, now, draws)
    ensures |data| == Count(limit)
    ensures |data| > 0 ==> data[0].open == BasePrice(symbol) && data[|data| - 1].time == now
    ensures forall k :: 0 < k < |data| ==>
      data[k].time == data[k - 1].time + 3600 && data[k].open == data[k - 1].close
  {
    data := [];
    var basePrice := BasePrice(symbol);
    var currentPrice := basePrice;
    var intervalSeconds := IntervalSeconds(DefaultInterval);
    var n := Count(limit);
    var i := limit - 1;
    while i >= 0
      invariant limit <= 0 ==> i < 0 && data == []
      invariant limit > 0 ==> -1 <= i < n && |data| == n - 1 - i
      invariant currentPrice == PriceBefore(symbol, draws, |data|)
      invariant forall k :: 0 <= k < |data| ==> data[k] == MockCandle(symbol, n, now, draws, k)
      decreases i
    {
      var next := 4 * |data|;
      var time := now - i * intervalSeconds;
      var volatility := Volatility(symbol);
      var baseVolume := BaseVolume(symbol);
      var candle := BuildCandle(time, currentPrice, volatility, baseVolume,
                                draws[next], draws[next + 1], draws[next + 2], draws[next + 3]);
      assert time == TimeOf(n, now, |data|);
      assert candle == MockCandle(symbol, n, now, draws, |data|);
      assert candle.close == PriceBefore(symbol, draws, |data| + 1);
      data := data + [candle];
      currentPrice := candle.close;
      i := i - 1;
    }
    assert |data| == n;
    MockSeriesTimes(symbol, limit, now, draws);
    MockSeriesChained(symbol, limit, now, draws);
  }

  /** The close never falls below 1% of the price it was built from. */
  lemma CloseFloor(volatility: real, price: real, d: real)
    ensures CloseFrom(volatility, price, d) >= price * 0.01
  {
  }

  /** The running price stays strictly positive: it starts at a positive base
      price and every close is at least 1% of a positive price. */
  lemma {:induction false} PriceBeforePositive(symbol: string, draws: seq<real>, k: nat)
    requires EnoughDraws(draws, k)
    ensures PriceBefore(symbol, draws, k) > 0.0
  {
    if k > 0 {
      PriceBeforePositive(symbol, draws, k - 1);
      CloseFloor(Volatility(symbol), PriceBefore(symbol, draws, k - 1), draws[4 * (k - 1)]);
    }
  }

  /** A candle built from a positive price, a positive volatility and base
      volume, and draws in [0, 1) is OHLC-ordered, opens at the price, and
      has its close and low at or above 1% of the price (so every price is
      positive); its volume lies between half and one and a half times the
      base volume. */
  lemma CandleFromShape(volatility: real, baseVolume: real, time: int, price: real,
                        d0: real, d1: real, d2: real, d3: real)
    requires price > 0.0 && volatility > 0.0 && baseVolume > 0.0
    requires 0.0 <= d0 < 1.0 && 0.0 <= d1 < 1.0 && 0.0 <= d2 < 1.0 && 0.0 <= d3 < 1.0
    ensures var c := CandleFrom(volatility, baseVolume, time, price, d0, d1, d2, d3);
      c.time == time && c.open == price &&
      Max(c.open, c.close) <= c.high && c.low <= Min(c.open, c.close) && Ordered(c) &&
      c.close >= price * 0.01 && c.low >= price * 0.01 && PositivePrices(c) &&
      baseVolume * 0.5 <= c.volume < baseVolume * 1.5
  {
  }

  /** The series has one candle per requested step, the newest at `now` and
      each one exactly an hour after the one before. */
  lemma MockSeriesTimes(symbol: string, limit: int, now: int, draws: seq<real>)
    requires EnoughDraws(draws, Count(limit))
    ensures var s := MockSeries(symbol, limit, now, draws);
      |s| == Count(limit) &&
      (forall k :: 0 <= k < |s| ==> s[k].time == now - (|s| - 1 - k) * 3600) &&
      (forall k :: 0 < k < |s| ==> s[k].time == s[k - 1].time + 3600) &&
      (|s| > 0 ==> s[|s| - 1].time == now)
  {
  }

  /** The first candle opens at the symbol's base price, and every later one
      opens at the previous candle's close. */
  lemma MockSeriesChained(symbol: string, limit: int, now: int, draws: seq<real>)
    requires EnoughDraws(draws, Count(limit))
    ensures var s := MockSeries(symbol, limit, now, draws);
      (|s| > 0 ==> s[0].open == BasePrice(symbol)) &&
      (forall k :: 0 < k < |s| ==> s[k].open == s[k - 1].close)
  {
  }

  /** With draws in [0, 1), every generated candle is OHLC-ordered with
      strictly positive prices, its close and low at or above 1% of its open
      (the running price), and a volume within half and one and a half times
      the symbol's base volume. */
  lemma MockSeriesWellFormed(symbol: string, limit: int, now: int, draws: seq<real>)
    requires EnoughDraws(draws, Count(limit)) && UnitDraws(draws)
    ensures var s := MockSeries(symbol, limit, now, draws);
      forall k :: 0 <= k < |s| ==>
        Ordered(s[k]) && PositivePrices(s[k]) &&
        s[k].close >= s[k].open * 0.01 && s[k].low >= s[k].open * 0.01 &&
        BaseVolume(symbol) * 0.5 <= s[k].volume < BaseVolume(symbol) * 1.5
  {
    var n := Count(limit);
    forall k | 0 <= k < n
      ensures var c := MockCandle(symbol, n, now, draws, k);
        Ordered(c) && PositivePrices(c) && c.close >= c.open * 0.01 && c.low >= c.open * 0.01 &&
        BaseVolume(symbol) * 0.5 <= c.volume < BaseVolume(symbol) * 1.5
    {
      PriceBeforePositive(symbol, draws, k);
      CandleFromShape(Volatility(symbol), BaseVolume(symbol), TimeOf(n, now, k), PriceBefore(symbol, draws, k),
                      draws[4 * k], draws[4 * k + 1], draws[4 * k + 2], draws[4 * k + 3]);
    }
  }
}
