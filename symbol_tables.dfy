/** The static lookup tables of the chart utilities: interval durations, the
    per-symbol profile used by the mock generator (base price, volatility,
    base volume) and the display precision rule. Each lookup is total, with
    an explicit default for keys the table does not list. */
module SymbolTables {

  /** The interval codes offered to the user, in the order of the INTERVALS
      object, with their display labels. */
  const IntervalCodes: seq<string> :=
    ["1m", "3m", "5m", "15m", "30m", "1h", "2h", "4h", "6h", "8h", "12h", "1d", "3d", "1w", "1M"]

  const IntervalLabels: map<string, string> :=
    map["1m" := "1 Minute", "3m" := "3 Minutes", "5m" := "5 Minutes", "15m" := "15 Minutes",
        "30m" := "30 Minutes", "1h" := "1 Hour", "2h" := "2 Hours", "4h" := "4 Hours",
        "6h" := "6 Hours", "8h" := "8 Hours", "12h" := "12 Hours", "1d" := "1 Day",
        "3d" := "3 Days", "1w" := "1 Week", "1M" := "1 Month"]

  const DefaultInterval: string := "1h"

  /** The popular trading pairs listed for selection. */
  const TradingPairs: seq<string> :=
    ["BTCUSDT", "ETHUSDT", "BNBUSDT", "ADAUSDT", "SOLUSDT", "XRPUSDT", "DOTUSDT", "DOGEUSDT",
     "AVAXUSDT", "MATICUSDT", "LINKUSDT", "UNIUSDT", "LTCUSDT", "BCHUSDT", "FILUSDT"]

  /** Interval code to duration in seconds. */
  const IntervalTable: map<string, nat> :=
    map["1m" := 60, "3m" := 180, "5m" := 300, "15m" := 900, "30m" := 1800,
        "1h" := 3600, "2h" := 7200, "4h" := 14400, "6h" := 21600, "8h" := 28800, "12h" := 43200,
        "1d" := 86400, "3d" := 259200, "1w" := 604800, "1M" := 2592000]

  /** Duration of an interval code in seconds; unknown codes (and a zero
      entry, which `||` would also skip) fall back to one hour. */
  function IntervalSeconds(interval: string): (r: nat)
    ensures r > 0
    ensures interval in IntervalTable ==> r == IntervalTable[interval]
    ensures interval !in IntervalTable ==> r == 3600
  {
    if interval in IntervalTable && IntervalTable[interval] != 0 then IntervalTable[interval] else 3600
  }

  /** The symbols that the mock profile tables list explicitly. */
  const ProfiledSymbols: set<string> :=
    {"BTCUSDT", "ETHUSDT", "BNBUSDT", "ADAUSDT", "SOLUSDT", "XRPUSDT", "DOTUSDT", "DOGEUSDT",
     "AVAXUSDT", "MATICUSDT"}

  /** Starting price of the mock series: a switch over the listed symbols
      with a default of 100. */
  function BasePrice(symbol: string): (p: real)
    ensures p > 0.0
    ensures symbol !in ProfiledSymbols ==> p == 100.0
  {
    if symbol == "BTCUSDT" then 43000.0
    else if symbol == "ETHUSDT" then 2300.0
    else if symbol == "BNBUSDT" then 310.0
    else if symbol == "ADAUSDT" then 0.38
    else if symbol == "SOLUSDT" then 98.0
    else if symbol == "XRPUSDT" then 0.52
    else if symbol == "DOTUSDT" then 5.8
    else if symbol == "DOGEUSDT" then 0.08
    else if symbol == "AVAXUSDT" then 24.0
    else if symbol == "MATICUSDT" then 0.73
    else 100.0
  }

  const VolatilityTable: map<string, real> :=
    map["BTCUSDT" := 0.03, "ETHUSDT" := 0.04, "BNBUSDT" := 0.05, "ADAUSDT" := 0.06,
        "SOLUSDT" := 0.07, "XRPUSDT" := 0.05, "DOTUSDT" := 0.06, "DOGEUSDT" := 0.08,
        "AVAXUSDT" := 0.07, "MATICUSDT" := 0.06]

  /** Relative volatility of a symbol, 0.05 when the table does not list it. */
  function Volatility(symbol: string): (v: real)
    ensures 0.03 <= v <= 0.08
    ensures symbol !in VolatilityTable ==> v == 0.05
  {
    if symbol in VolatilityTable && VolatilityTable[symbol] != 0.0 then VolatilityTable[symbol] else 0.05
  }

  const BaseVolumeTable: map<string, real> :=
    map["BTCUSDT" := 1000000.0, "ETHUSDT" := 500000.0, "BNBUSDT" := 200000.0,
        "ADAUSDT" := 10000000.0, "SOLUSDT" := 300000.0, "XRPUSDT" := 50000000.0,
        "DOTUSDT" := 1000000.0, "DOGEUSDT" := 100000000.0, "AVAXUSDT" := 500000.0,
        "MATICUSDT" := 5000000.0]

  /** Typical volume of a symbol, 1000000 when the table does not list it. */
  function BaseVolume(symbol: string): (v: real)
    ensures v > 0.0
    ensures symbol !in BaseVolumeTable ==> v == 1000000.0
  {
    if symbol in BaseVolumeTable && BaseVolumeTable[symbol] != 0.0 then BaseVolumeTable[symbol] else 1000000.0
  }

  /** `sub` occurs in `s` starting at position `i`. */
  predicate OccursAt(s: string, sub: string, i: nat)
  {
    i + |sub| <= |s| && s[i..i + |sub|] == sub
  }

  /** String containment, scanning from the left (the `includes` test). */
  function Includes(s: string, sub: string): (b: bool)
    decreases |s|
  {
    if |s| < |sub| then false
    else if s[..|sub|] == sub then true
    else Includes(s[1..], sub)
  }

  /** `Includes` holds exactly when `sub` occurs somewhere in `s`. */
  lemma {:induction false} IncludesIff(s: string, sub: string)
    ensures Includes(s, sub) <==> exists i: nat :: OccursAt(s, sub, i)
    decreases |s|
  {
    if |s| < |sub| {
    } else if s[..|sub|] == sub {
      assert OccursAt(s, sub, 0);
    } else {
      IncludesIff(s[1..], sub);
      if Includes(s[1..], sub) {
        var i: nat :| OccursAt(s[1..], sub, i);
        assert s[1..][i..i + |sub|] == s[i + 1..i + 1 + |sub|];
        assert OccursAt(s, sub, i + 1);
      } else {
        forall i: nat | OccursAt(s, sub, i)
          ensures false
        {
          if i > 0 {
            assert s[1..][i - 1..i - 1 + |sub|] == s[i..i + |sub|];
            assert OccursAt(s[1..], sub, i - 1);
          }
        }
      }
    }
  }

  /** The low-priced USDT pairs shown with six decimals. */
  const LowPricePairs: seq<string> := ["DOGEUSDT", "ADAUSDT", "XRPUSDT", "MATICUSDT"]

  /** Decimal places used for prices of a symbol: 6 for the low-priced USDT
      pairs, 2 for any other symbol containing "USDT", 8 for the rest. */
  function PricePrecision(symbol: string): (d: nat)
    ensures d == 2 || d == 6 || d == 8
    ensures d == 8 <==> !Includes(symbol, "USDT")
    ensures Includes(symbol, "USDT") ==> (d == 6 <==> symbol in LowPricePairs)
  {
    if Includes(symbol, "USDT") then
      if symbol in LowPricePairs then 6 else 2
    else 8
  }

  /** Durations of the offered interval codes, in the order they are offered. */
  const IntervalDurations: seq<nat> :=
    [60, 180, 300, 900, 1800, 3600, 7200, 14400, 21600, 28800, 43200, 86400, 259200, 604800, 2592000]

  /** Every interval code offered to the user has a duration of its own. */
  lemma IntervalCodesCovered()
    ensures IntervalLabels.Keys == IntervalTable.Keys
    ensures forall c :: c in IntervalCodes <==> c in IntervalLabels
  {
  }

  /** The i-th offered code lasts IntervalDurations[i] seconds, so the
      durations grow strictly in the order the codes are offered. */
  lemma IntervalDurationsAscend()
    ensures |IntervalCodes| == |IntervalDurations|
    ensures forall i :: 0 <= i < |IntervalCodes| ==> IntervalSeconds(IntervalCodes[i]) == IntervalDurations[i]
    ensures forall i :: 0 < i < |IntervalDurations| ==> IntervalDurations[i - 1] < IntervalDurations[i]
  {
  }

  /** The three profile tables list the same symbols, and those are all among
      the popular trading pairs. */
  lemma ProfileTablesAgree()
    ensures VolatilityTable.Keys == ProfiledSymbols
    ensures BaseVolumeTable.Keys == ProfiledSymbols
    ensures forall s :: s in ProfiledSymbols ==> BasePrice(s) != 100.0
    ensures forall s :: s in ProfiledSymbols ==> s in TradingPairs
  {
  }

  /** A symbol quoted in USDT (ending in "USDT") contains "USDT". */
  lemma QuotedInUsdt(symbol: string)
    requires |symbol| >= 4 && symbol[|symbol| - 4..] == "USDT"
    ensures Includes(symbol, "USDT")
  {
    assert OccursAt(symbol, "USDT", |symbol| - 4);
    IncludesIff(symbol, "USDT");
  }

  /** Precision is 6 exactly for the low-priced pairs and 2 exactly for the
      other symbols containing "USDT". */
  lemma PrecisionByList(symbol: string)
    ensures PricePrecision(symbol) == 6 <==> symbol in LowPricePairs
    ensures PricePrecision(symbol) == 2 <==> Includes(symbol, "USDT") && symbol !in LowPricePairs
  {
    if symbol in LowPricePairs {
      QuotedInUsdt(symbol);
    }
  }

  /** Every popular trading pair is a USDT pair, so its precision is 2 or 6. */
  lemma TradingPairsPrecision()
    ensures forall s :: s in TradingPairs ==> PricePrecision(s) == 2 || PricePrecision(s) == 6
  {
    forall s | s in TradingPairs
      ensures Includes(s, "USDT")
    {
      QuotedInUsdt(s);
    }
  }
}
