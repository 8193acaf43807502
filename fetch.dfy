/** The decision `fetchBinanceData` makes with one exchange response: use the
    transformed rows, or fall back to the mock series. The HTTP request and
    the JSON decoding are outside the model; what they can yield is the
    `Response` datatype below. */
module Fetch {

  import opened Candles
  import opened Klines
  import opened MockData

  /** One element of the decoded JSON array. Indexing a `null` element throws
      a TypeError; any other value yields its first six entries, parsed. */
  datatype Element = JsonNull | Row(row: KlineRow)

  /** The decoded body of a successful response. */
  datatype Body =
    | Undecodable               // `response.json()` throws
    | NotAnArray                // valid JSON, but not an array
    | Array(elements: seq<Element>)

  /** What the single request can produce. */
  datatype Response =
    | NetworkError              // `fetch` itself rejects
    | NotOk(status: int)        // `response.ok` is false
    | Received(body: Body)

  /** The try block's outcome: either it threw, and the mock series is used,
      or it returned the transformed rows. */
  datatype Attempt = Fallback | Fetched(candles: seq<Candle>)

  /** Some element of the array is `null`. */
  predicate HasNull(elements: seq<Element>)
  {
    exists i :: 0 <= i < |elements| && elements[i].JsonNull?
  }

  /** The rows of a null-free array, in order. */
  function Rows(elements: seq<Element>): (rows: seq<KlineRow>)
    requires !HasNull(elements)
    ensures |rows| == |elements|
    ensures forall i :: 0 <= i < |elements| ==> elements[i] == Row(rows[i])
  {
    if elements == [] then []
    else
      assert forall i :: 0 <= i < |elements| - 1 ==> elements[..|elements| - 1][i] == elements[i];
      Rows(elements[..|elements| - 1]) + [elements[|elements| - 1].row]
  }

  /** The body of the try block: a failed request, a non-ok status, an
      undecodable or non-array body, an empty array and an array holding a
      `null` all throw; otherwise the transformed and filtered rows are
      returned, even when none of them survives. */
  function TryFetch(response: Response): (a: Attempt)
    ensures a.Fallback? <==>
      response.NetworkError? || response.NotOk? ||
      (response.Received? && (response.body.Undecodable? || response.body.NotAnArray? ||
                              (response.body.Array? && (|response.body.elements| == 0 ||
                                                        HasNull(response.body.elements)))))
  {
    match response
    case NetworkError => Fallback
    case NotOk(_) => Fallback
    case Received(body) =>
      match body
      case Undecodable => Fallback
      case NotAnArray => Fallback
      case Array(elements) =>
        if |elements| == 0 then Fallback
        else if HasNull(elements) then Fallback
        else Fetched(TransformAll(Rows(elements)))
  }

  /** `fetchBinanceData` for one response: the try block's candles, or the
      mock series for the same symbol and limit when it threw. */
  method FetchBinanceData(symbol: string, limit: int, response: Response, now: int, draws: seq<real>)
    returns (data: seq<Candle>)
    requires EnoughDraws(draws, Count(limit))
    ensures TryFetch(response).Fallback? ==> data == MockSeries(symbol, limit, now, draws)
    ensures TryFetch(response).Fetched? ==> data == TryFetch(response).candles
    ensures UnitDraws(draws) ==> forall k :: 0 <= k < |data| ==> Ordered(data[k])
  {
    var attempt := TryFetch(response);
    if attempt.Fallback? {
      data := GenerateMockData(symbol, limit, now, draws);
    } else {
      data := attempt.candles;
    }
    if UnitDraws(draws) {
      FetchResultOrdered(symbol, limit, response, now, draws);
    }
  }

  /** A non-empty, null-free array of rows is used as is: the result is the
      filtered rows, possibly none, never the mock series. */
  lemma ArrayIsNeverReplaced(response: Response)
    requires response.Received? && response.body.Array?
    requires |response.body.elements| > 0 && !HasNull(response.body.elements)
    ensures TryFetch(response) == Fetched(TransformAll(Rows(response.body.elements)))
    ensures |TryFetch(response).candles| <= |response.body.elements|
  {
  }

  /** A non-empty array whose every row is dropped gives an empty series
      rather than the mock one. */
  lemma AllRowsDroppedGivesEmpty(response: Response)
    requires response.Received? && response.body.Array?
    requires |response.body.elements| > 0 && !HasNull(response.body.elements)
    requires forall i :: 0 <= i < |response.body.elements| ==>
      !(Parsed(response.body.elements[i].row) && OrderedRow(response.body.elements[i].row))
    ensures TryFetch(response) == Fetched([])
  {
    var rows := Rows(response.body.elements);
    TransformAllDropsInvalid(rows);
  }

  /** Whatever the response, with draws in [0, 1) every candle returned is
      OHLC-ordered; when the response is given up on, exactly `limit`
      candles (none for limit <= 0) come back. */
  lemma FetchResultOrdered(symbol: string, limit: int, response: Response, now: int, draws: seq<real>)
    requires EnoughDraws(draws, Count(limit)) && UnitDraws(draws)
    ensures var s := if TryFetch(response).Fallback? then MockSeries(symbol, limit, now, draws)
                     else TryFetch(response).candles;
      (forall k :: 0 <= k < |s| ==> Ordered(s[k])) &&
      (TryFetch(response).Fallback? ==> |s| == Count(limit))
  {
    MockSeriesWellFormed(symbol, limit, now, draws);
  }
}
