/** The kline transform of the fetcher: each raw exchange row becomes a
    candle or nothing, and the rows that become nothing are dropped. */
module Klines {

  import opened Wrappers
  import opened Candles

  /** A raw kline row after its first six entries have been read: the open
      time in milliseconds, as the number that `kline[0] / 1000` coerces
      entry 0 to, and the open, high, low, close and volume values as
      `parseFloat` gives them. `None` stands for whatever yields NaN. */
  datatype KlineRow = KlineRow(
    openTimeMs: Option<real>,
    open: Option<real>,
    high: Option<real>,
    low: Option<real>,
    close: Option<real>,
    volume: Option<real>)

  /** None of the six fields is NaN. */
  predicate Parsed(row: KlineRow)
  {
    row.openTimeMs.Some? && row.open.Some? && row.high.Some? &&
    row.low.Some? && row.close.Some? && row.volume.Some?
  }

  /** The OHLC relationships hold of the row's parsed values. */
  predicate OrderedRow(row: KlineRow)
    requires Parsed(row)
  {
    var o, h, l, c := row.open.value, row.high.value, row.low.value, row.close.value;
    l <= o && l <= c && o <= h && c <= h && l <= h
  }

  /** Whole seconds of a millisecond timestamp, rounded down. */
  function SecondsOf(ms: real): (t: int)
    ensures (t as real) * 1000.0 <= ms < (t as real) * 1000.0 + 1000.0
  {
    (ms / 1000.0).Floor
  }

  /** One row to a candle, or `None` when the row is dropped: first for a
      NaN field, then for a high below the low, a high below the larger of
      open and close, or a low above the smaller of them. */
  function ToCandle(row: KlineRow): (r: Option<Candle>)
    ensures r.Some? <==> Parsed(row) && OrderedRow(row)
    ensures r.Some? ==> Ordered(r.value)
    ensures r.Some? ==>
      r.value.time == SecondsOf(row.openTimeMs.value) &&
      r.value.open == row.open.value && r.value.high == row.high.value &&
      r.value.low == row.low.value && r.value.close == row.close.value &&
      r.value.volume == row.volume.value
  {
    if row.openTimeMs.None? || row.open.None? || row.high.None? ||
       row.low.None? || row.close.None? || row.volume.None? then
      None
    else
      var candle := Candle(SecondsOf(row.openTimeMs.value), row.open.value, row.high.value,
                           row.low.value, row.close.value, row.volume.value);
      if candle.high < candle.low ||
         candle.high < Max(candle.open, candle.close) ||
         candle.low > Min(candle.open, candle.close) then
        None
      else
        Some(candle)
  }

  /** The rows transformed and the dropped ones removed, in input order. */
  function TransformAll(rows: seq<KlineRow>): (out: seq<Candle>)
    ensures |out| <= |rows|
    ensures forall k :: 0 <= k < |out| ==> Ordered(out[k])
  {
    if rows == [] then []
    else
      var front := TransformAll(rows[..|rows| - 1]);
      match ToCandle(rows[|rows| - 1])
      case Some(c) => front + [c]
      case None => front
  }

  /** Positions of the rows that the transform keeps, in increasing order. */
  function KeptPositions(rows: seq<KlineRow>): seq<nat>
  {
    if rows == [] then []
    else
      var front := KeptPositions(rows[..|rows| - 1]);
      if ToCandle(rows[|rows| - 1]).Some? then front + [|rows| - 1] else front
  }

  /** The output is an order-preserving selection of the rows: its k-th
      candle is the transform of the row at KeptPositions(rows)[k], those
      positions strictly increase, and a row is selected exactly when it is
      not dropped. */
  lemma {:induction false} TransformAllSelects(rows: seq<KlineRow>)
    ensures |KeptPositions(rows)| == |TransformAll(rows)|
    ensures forall k :: 0 <= k < |KeptPositions(rows)| ==>
      KeptPositions(rows)[k] < |rows| &&
      ToCandle(rows[KeptPositions(rows)[k]]) == Some(TransformAll(rows)[k])
    ensures forall k, l :: 0 <= k < l < |KeptPositions(rows)| ==>
      KeptPositions(rows)[k] < KeptPositions(rows)[l]
    ensures forall i :: 0 <= i < |rows| ==> (i in KeptPositions(rows) <==> ToCandle(rows[i]).Some?)
  {
    if rows != [] {
      var n := |rows| - 1;
      var front := rows[..n];
      TransformAllSelects(front);
      assert forall i :: 0 <= i < n ==> front[i] == rows[i];
    }
  }

  /** Dropping distributes over concatenation: transforming two batches one
      after the other gives the same candles as transforming them joined. */
  lemma {:induction false} TransformAllAppend(a: seq<KlineRow>, b: seq<KlineRow>)
    ensures TransformAll(a + b) == TransformAll(a) + TransformAll(b)
    decreases |b|
  {
    if b == [] {
      assert a + b == a;
    } else {
      var n := |b| - 1;
      assert (a + b)[..|a + b| - 1] == a + b[..n];
      assert (a + b)[|a + b| - 1] == b[n];
      TransformAllAppend(a, b[..n]);
    }
  }

  /** When no row is dropped, every row yields its candle in place. */
  lemma {:induction false} TransformAllKeepsValid(rows: seq<KlineRow>)
    requires forall i :: 0 <= i < |rows| ==> Parsed(rows[i]) && OrderedRow(rows[i])
    ensures |TransformAll(rows)| == |rows|
    ensures forall i :: 0 <= i < |rows| ==> Some(TransformAll(rows)[i]) == ToCandle(rows[i])
  {
    if rows != [] {
      var n := |rows| - 1;
      TransformAllKeepsValid(rows[..n]);
      assert forall i :: 0 <= i < n ==> rows[..n][i] == rows[i];
    }
  }

  /** When every row is dropped, nothing is left. */
  lemma {:induction false} TransformAllDropsInvalid(rows: seq<KlineRow>)
    requires forall i :: 0 <= i < |rows| ==> !(Parsed(rows[i]) && OrderedRow(rows[i]))
    ensures TransformAll(rows) == []
  {
    if rows != [] {
      var n := |rows| - 1;
      assert forall i :: 0 <= i < n ==> rows[..n][i] == rows[i];
      TransformAllDropsInvalid(rows[..n]);
    }
  }
}
