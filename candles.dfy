/** The candle record handed to the chart, and the OHLC ordering that both the
    kline filter and the mock generator are about. */
module Candles {

  /** One OHLCV candle: `time` in whole seconds since the epoch, prices and
      volume as reals (the JavaScript code's doubles, without rounding). */
  datatype Candle = Candle(time: int, open: real, high: real, low: real, close: real, volume: real)

  /** The larger of two prices, as `Math.max`. */
  function Max(a: real, b: real): real
  {
    if a >= b then a else b
  }

  /** The smaller of two prices, as `Math.min`. */
  function Min(a: real, b: real): real
  {
    if a <= b then a else b
  }

  /** The OHLC relationships the kline filter insists on: the low is at or
      below both open and close, the high at or above both, and low <= high. */
  predicate Ordered(c: Candle)
  {
    c.low <= Min(c.open, c.close) && Max(c.open, c.close) <= c.high && c.low <= c.high
  }

  /** Every price of the candle is strictly positive. */
  predicate PositivePrices(c: Candle)
  {
    c.open > 0.0 && c.high > 0.0 && c.low > 0.0 && c.close > 0.0
  }
}
