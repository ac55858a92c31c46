/**
 * src/services/mockData.ts: the four mock quotes, the random-walk history generator,
 * the per-symbol history cache behind getStockData, and the initial watchlist.
 * `Math.random` is a RandomSource; the calendar date of "today minus i days" is
 * the parameter `dateBefore(i)`.
 */
module MockData {
  import opened Wrappers
  import opened Types
  import opened SeriesMath

  /** `Omit<StockSummary, 'history'>`: a mock quote without its history. */
  datatype StockBase = StockBase(
    symbol: string,
    name: string,
    currentPrice: real,
    changeValue: real,
    changePercent: real)

  /** The errors getStockData throws. */
  datatype MockError =
    | StockNotFound   // 'Stock not found'
    | TypeError       // `histories[symbol][-1].price = ...` on an empty history

  /** MOCK_STOCKS. */
  const MockStocks: map<string, StockBase> := map[
    "AAPL" := StockBase("AAPL", "Apple Inc.", 188.91, -0.45, -0.24),
    "GOOGL" := StockBase("GOOGL", "Alphabet Inc.", 163.63, 0.47, 0.29),
    "MSFT" := StockBase("MSFT", "Microsoft Corp.", 301.04, 1.99, 0.67),
    "AMZN" := StockBase("AMZN", "Amazon.com Inc.", 124.53, -2.21, -1.74)
  ]

  /** MOCK_STOCKS lists exactly four stocks, each under its own symbol and at a positive price. */
  lemma MockStocksListing()
    ensures MockStocks.Keys == {"AAPL", "GOOGL", "MSFT", "AMZN"}
    ensures forall s :: s in MockStocks ==> MockStocks[s].symbol == s && MockStocks[s].currentPrice > 0.0
  {
  }

  /** The symbols getInitialWatchlist asks for, in order. */
  const InitialSymbols: seq<string> := ["AAPL", "GOOGL", "MSFT", "AMZN"]

  /** The default `days` of getStockData. */
  const DefaultDays: int := 365

  /** `{ ...base, history }`. */
  function WithHistory(base: StockBase, history: seq<StockDataPoint>): StockSummary
  {
    StockSummary(base.symbol, base.name, base.currentPrice, base.changeValue, base.changePercent, history)
  }

  // ---------------------------------------------------------------------------
  // The random walk
  // ---------------------------------------------------------------------------

  /** `Math.random`: an endless stream of draws, of which `drawn` have been taken. */
  class RandomSource {
    const draw: nat -> real
    var drawn: nat

    constructor (draw: nat -> real)
      ensures this.draw == draw && drawn == 0
    {
      this.draw := draw;
      drawn := 0;
    }

    method Next() returns (x: real)
      modifies this
      ensures x == draw(old(drawn)) && drawn == old(drawn) + 1
    {
      x := draw(drawn);
      drawn := drawn + 1;
    }
  }

  /** The draws numbered `from` .. `from + n - 1`. */
  function Draws(draw: nat -> real, from: nat, n: nat): (r: seq<real>)
    ensures |r| == n
  {
    seq(n, k requires 0 <= k < n => draw(from + k))
  }

  function Max(a: real, b: real): real { if a >= b then a else b }

  /** The random move of one step: up to 2% of the start price, biased slightly upwards. */
  function Change(startPrice: real, r: real): real
  {
    (r - 0.48) * (startPrice * 0.02)
  }

  /** One step of the walk: the move, floored at a price of 1. */
  function Step(price: real, startPrice: real, r: real): real
  {
    Max(price + Change(startPrice, r), 1.0)
  }

  /** Reference definition: the prices of the walk from `startPrice`, one per draw. */
  function Walk(startPrice: real, draws: seq<real>): (prices: seq<real>)
    ensures |prices| == |draws|
  {
    if draws == [] then []
    else
      var before := Walk(startPrice, draws[..|draws| - 1]);
      var previous := if before == [] then startPrice else before[|before| - 1];
      before + [Step(previous, startPrice, draws[|draws| - 1])]
  }

  /** The loop `for (let i = days; i >= 0; i--)` runs `days + 1` times, or not at all. */
  function StepCount(days: int): nat
  {
    if days >= 0 then days + 1 else 0
  }

  /** Point `k` of the history is dated `days - k` days before today. */
  function MockDates(days: int, dateBefore: int -> string): (dates: seq<string>)
    ensures |dates| == StepCount(days)
  {
    seq(StepCount(days), k requires 0 <= k < StepCount(days) => dateBefore(days - k))
  }

  /** Reference definition of a generated history, before getStockData's overwrite. */
  function MockHistory(startPrice: real, days: int, draws: seq<real>, dateBefore: int -> string): seq<StockDataPoint>
    requires |draws| == StepCount(days)
  {
    SeriesWithMa20(MockDates(days, dateBefore), Walk(startPrice, draws))
  }

  /**
   * generateMockHistory: one point per day from `days` days ago to today, priced by the
   * walk, followed by the moving-average pass.
   */
  method GenerateMockHistory(startPrice: real, days: int, rng: RandomSource, dateBefore: int -> string)
    returns (history: seq<StockDataPoint>)
    modifies rng
    ensures rng.drawn == old(rng.drawn) + StepCount(days)
    ensures history == MockHistory(startPrice, days, Draws(rng.draw, old(rng.drawn), StepCount(days)), dateBefore)
  {
    ghost var first := rng.drawn;
    history := [];
    var currentPrice := startPrice;
    var i := days;
    while i >= 0
      invariant i <= days && (days >= 0 ==> -1 <= i) && (days < 0 ==> i == days)
      invariant rng.drawn == first + (days - i)
      invariant history == WalkPoints(startPrice, days, Draws(rng.draw, first, days - i), dateBefore)
      invariant currentPrice == LastPrice(startPrice, Draws(rng.draw, first, days - i))
      decreases i
    {
      ghost var before := Draws(rng.draw, first, days - i);
      ghost var previousPrice := currentPrice;
      var r := rng.Next();
      var change := Change(startPrice, r);
      currentPrice := Max(currentPrice + change, 1.0);
      assert currentPrice == Step(previousPrice, startPrice, r);
      history := history + [StockDataPoint(dateBefore(i), currentPrice, None)];
      DrawsNext(rng.draw, first, days - i);
      WalkPointsNext(startPrice, days, before, r, dateBefore);
      assert |before| == days - i;
      assert Draws(rng.draw, first, days - i + 1) == before + [r];
      assert currentPrice == Step(LastPrice(startPrice, before), startPrice, r);
      i := i - 1;
    }
    WalkPointsComplete(startPrice, days, Draws(rng.draw, first, StepCount(days)), dateBefore);
    history := FillMa20(history);
  }

  /** The last price of the walk, or the start price before the first draw. */
  function LastPrice(startPrice: real, draws: seq<real>): real
  {
    if draws == [] then startPrice else Walk(startPrice, draws)[|draws| - 1]
  }

  /** The points generateMockHistory has pushed after the draws so far, before the moving average. */
  function WalkPoints(startPrice: real, days: int, draws: seq<real>, dateBefore: int -> string): (r: seq<StockDataPoint>)
    ensures |r| == |draws|
  {
    var prices := Walk(startPrice, draws);
    seq(|draws|, k requires 0 <= k < |draws| => StockDataPoint(dateBefore(days - k), prices[k], None))
  }

  lemma WalkPointsNext(startPrice: real, days: int, draws: seq<real>, x: real, dateBefore: int -> string)
    ensures LastPrice(startPrice, draws + [x]) == Step(LastPrice(startPrice, draws), startPrice, x)
    ensures WalkPoints(startPrice, days, draws + [x], dateBefore)
         == WalkPoints(startPrice, days, draws, dateBefore)
            + [StockDataPoint(dateBefore(days - |draws|), Step(LastPrice(startPrice, draws), startPrice, x), None)]
  {
    WalkNext(startPrice, draws, x);
  }

  lemma WalkPointsComplete(startPrice: real, days: int, draws: seq<real>, dateBefore: int -> string)
    requires |draws| == StepCount(days)
    ensures Dates(WalkPoints(startPrice, days, draws, dateBefore)) == MockDates(days, dateBefore)
    ensures Prices(WalkPoints(startPrice, days, draws, dateBefore)) == Walk(startPrice, draws)
    ensures forall k :: 0 <= k < |draws| ==> WalkPoints(startPrice, days, draws, dateBefore)[k].ma20 == None
  {
  }

  // ---------------------------------------------------------------------------
  // Properties of the walk
  // ---------------------------------------------------------------------------

  lemma DrawsNext(draw: nat -> real, from: nat, n: nat)
    ensures Draws(draw, from, n + 1) == Draws(draw, from, n) + [draw(from + n)]
  {
  }

  /** One more draw extends the walk by one step from its last price. */
  lemma WalkNext(startPrice: real, draws: seq<real>, x: real)
    ensures Walk(startPrice, draws + [x])
         == Walk(startPrice, draws)
            + [Step(if draws == [] then startPrice else Walk(startPrice, draws)[|draws| - 1], startPrice, x)]
  {
    assert (draws + [x])[..|draws|] == draws;
  }

  /** The walk over a prefix of the draws is the prefix of the walk. */
  lemma {:induction false} WalkPrefix(startPrice: real, draws: seq<real>, n: nat)
    requires n <= |draws|
    ensures Walk(startPrice, draws[..n]) == Walk(startPrice, draws)[..n]
  {
    if n == |draws| {
      assert draws[..n] == draws;
    } else {
      var shorter := draws[..|draws| - 1];
      assert draws[..n] == shorter[..n];
      WalkPrefix(startPrice, shorter, n);
      assert Walk(startPrice, draws)[..|shorter|] == Walk(startPrice, shorter);
    }
  }

  /** Each price is the previous one (the start price for the first) moved by its draw and floored at 1. */
  lemma WalkAt(startPrice: real, draws: seq<real>, k: nat)
    requires k < |draws|
    ensures Walk(startPrice, draws)[k]
         == Step(if k == 0 then startPrice else Walk(startPrice, draws)[k - 1], startPrice, draws[k])
  {
    WalkPrefix(startPrice, draws, k + 1);
    var prefix := draws[..k + 1];
    assert prefix[..|prefix| - 1] == draws[..k];
    WalkPrefix(startPrice, draws, k);
  }

  /** Every generated price is at least 1. */
  lemma {:induction false} WalkAtLeastOne(startPrice: real, draws: seq<real>)
    ensures forall k :: 0 <= k < |draws| ==> Walk(startPrice, draws)[k] >= 1.0
  {
    if draws != [] {
      WalkAtLeastOne(startPrice, draws[..|draws| - 1]);
    }
  }

  /** A history generated for `days >= 0` has `days + 1` points, all priced at least 1. */
  lemma MockHistoryShape(startPrice: real, days: int, draws: seq<real>, dateBefore: int -> string)
    requires |draws| == StepCount(days)
    ensures days >= 0 ==> |MockHistory(startPrice, days, draws, dateBefore)| == days + 1
    ensures days < 0 ==> MockHistory(startPrice, days, draws, dateBefore) == []
    ensures forall k :: 0 <= k < |draws| ==> MockHistory(startPrice, days, draws, dateBefore)[k].price >= 1.0
  {
    WalkAtLeastOne(startPrice, draws);
  }

  /** The moving average of a generated history never falls below 1. */
  lemma MockHistoryAverageAtLeastOne(startPrice: real, days: int, draws: seq<real>, dateBefore: int -> string, k: nat)
    requires |draws| == StepCount(days) && Window - 1 <= k < |draws|
    ensures MockHistory(startPrice, days, draws, dateBefore)[k].ma20.Some?
    ensures MockHistory(startPrice, days, draws, dateBefore)[k].ma20.value >= 1.0
  {
    var prices := Walk(startPrice, draws);
    WalkAtLeastOne(startPrice, draws);
    var w := prices[k - (Window - 1) .. k + 1];
    assert forall i :: 0 <= i < |w| ==> w[i] == prices[k - (Window - 1) + i];
    SumAtLeast(w, 1.0);
  }

  // ---------------------------------------------------------------------------
  // getStockData and its cache
  // ---------------------------------------------------------------------------

  /** `h[lastIdx].price = price`: only the last point's price changes, not its `ma20`. */
  function OverwriteLastPrice(h: seq<StockDataPoint>, price: real): (r: seq<StockDataPoint>)
    requires h != []
    ensures |r| == |h| && r[..|h| - 1] == h[..|h| - 1]
    ensures r[|h| - 1].price == price
    ensures r[|h| - 1].date == h[|h| - 1].date && r[|h| - 1].ma20 == h[|h| - 1].ma20
  {
    h[|h| - 1 := h[|h| - 1].(price := price)]
  }

  /** Every cached history belongs to a mock stock and, unless empty, ends at that stock's price. */
  ghost predicate ValidCache(histories: map<string, seq<StockDataPoint>>)
  {
    forall s :: s in histories ==>
      s in MockStocks &&
      (histories[s] != [] ==> histories[s][|histories[s]| - 1].price == MockStocks[s].currentPrice)
  }

  /** Caching a history that is empty or ends at the stock's price keeps the cache valid. */
  lemma CacheHistory(histories: map<string, seq<StockDataPoint>>, symbol: string, h: seq<StockDataPoint>)
    requires ValidCache(histories) && symbol in MockStocks
    requires h != [] ==> h[|h| - 1].price == MockStocks[symbol].currentPrice
    ensures ValidCache(histories[symbol := h])
  {
  }

  /** `h'` is the cache `h` with the entry for `key` added or kept, every earlier entry unchanged. */
  ghost predicate Extends(h: map<string, seq<StockDataPoint>>, h': map<string, seq<StockDataPoint>>, key: string)
  {
    h'.Keys == h.Keys + {key} && forall s :: s in h ==> h'[s] == h[s]
  }

  /** Four successive extensions of the cache add the four keys and keep every entry once present. */
  lemma FourCacheUpdates(h0: map<string, seq<StockDataPoint>>, h1: map<string, seq<StockDataPoint>>,
                         h2: map<string, seq<StockDataPoint>>, h3: map<string, seq<StockDataPoint>>,
                         h4: map<string, seq<StockDataPoint>>, a: string, b: string, c: string, d: string)
    requires Extends(h0, h1, a) && Extends(h1, h2, b) && Extends(h2, h3, c) && Extends(h3, h4, d)
    ensures h4.Keys == h0.Keys + {a, b, c, d}
    ensures forall s :: s in h0 ==> h4[s] == h0[s]
    ensures h4[a] == h1[a] && h4[b] == h2[b] && h4[c] == h3[c]
  {
  }

  /** The draws a first call for `symbol` takes: none once `symbol` is cached. */
  function NewDrawsOf(h: map<string, seq<StockDataPoint>>, symbol: string): nat
  {
    if symbol in h then 0 else StepCount(DefaultDays)
  }

  /**
   * One default-length getStockData call: the cache `h` becomes `h'` and the draw count `d`
   * becomes `d'`; a first call caches a history of 366 points.
   */
  ghost predicate FirstCallStep(h: map<string, seq<StockDataPoint>>, h': map<string, seq<StockDataPoint>>,
                                d: nat, d': nat, symbol: string)
  {
    && Extends(h, h', symbol)
    && d' == d + NewDrawsOf(h, symbol)
    && (symbol !in h ==> |h'[symbol]| == DefaultDays + 1)
  }

  /** A call that caches `key` leaves every other symbol's entry and draw count as they were. */
  lemma FirstCallKeeps(h: map<string, seq<StockDataPoint>>, h': map<string, seq<StockDataPoint>>,
                       key: string, other: string)
    requires Extends(h, h', key) && other != key
    ensures other in h' <==> other in h
    ensures NewDrawsOf(h', other) == NewDrawsOf(h, other)
    ensures other in h' ==> h'[other] == h[other]
  {
  }

  /**
   * Four calls for four distinct symbols: the draws are counted from the starting cache, and each
   * symbol that was not cached ends up with a history of 366 points.
   */
  lemma FourFirstCalls(h0: map<string, seq<StockDataPoint>>, h1: map<string, seq<StockDataPoint>>,
                       h2: map<string, seq<StockDataPoint>>, h3: map<string, seq<StockDataPoint>>,
                       h4: map<string, seq<StockDataPoint>>,
                       d0: nat, d1: nat, d2: nat, d3: nat, d4: nat,
                       a: string, b: string, c: string, e: string)
    requires a != b && a != c && a != e && b != c && b != e && c != e
    requires FirstCallStep(h0, h1, d0, d1, a)
    requires FirstCallStep(h1, h2, d1, d2, b)
    requires FirstCallStep(h2, h3, d2, d3, c)
    requires FirstCallStep(h3, h4, d3, d4, e)
    ensures d4 == d0 + NewDrawsOf(h0, a) + NewDrawsOf(h0, b) + NewDrawsOf(h0, c) + NewDrawsOf(h0, e)
    ensures forall s :: s in {a, b, c, e} && s !in h0 ==> s in h4 && |h4[s]| == DefaultDays + 1
  {
    FirstCallKeeps(h0, h1, a, b);
    FirstCallKeeps(h0, h1, a, c);
    FirstCallKeeps(h0, h1, a, e);
    FirstCallKeeps(h1, h2, b, a);
    FirstCallKeeps(h1, h2, b, c);
    FirstCallKeeps(h1, h2, b, e);
    FirstCallKeeps(h2, h3, c, a);
    FirstCallKeeps(h2, h3, c, b);
    FirstCallKeeps(h2, h3, c, e);
    FirstCallKeeps(h3, h4, e, a);
    FirstCallKeeps(h3, h4, e, b);
    FirstCallKeeps(h3, h4, e, c);
  }

  /** A watchlist of the four summaries built from the cache `h`, in the order of `InitialSymbols`. */
  lemma InitialWatchlistOf(h: map<string, seq<StockDataPoint>>, w: seq<StockSummary>)
    requires {"AAPL", "GOOGL", "MSFT", "AMZN"} <= h.Keys && |w| == 4
    requires w[0] == WithHistory(MockStocks["AAPL"], h["AAPL"])
    requires w[1] == WithHistory(MockStocks["GOOGL"], h["GOOGL"])
    requires w[2] == WithHistory(MockStocks["MSFT"], h["MSFT"])
    requires w[3] == WithHistory(MockStocks["AMZN"], h["AMZN"])
    ensures forall k :: 0 <= k < |w| ==>
              InitialSymbols[k] in h && w[k] == WithHistory(MockStocks[InitialSymbols[k]], h[InitialSymbols[k]])
  {
  }

  class MockMarket {
    /** The module-level `histories` cache, keyed by symbol only. */
    var histories: map<string, seq<StockDataPoint>>

    constructor ()
      ensures histories == map[] && Valid()
    {
      histories := map[];
    }

    /** Every cached history belongs to a mock stock and, unless empty, ends at that stock's price. */
    ghost predicate Valid()
      reads this
    {
      ValidCache(histories)
    }

    /** The history getStockData caches for `symbol` on its first call. */
    static ghost function FirstHistory(symbol: string, days: int, draws: seq<real>, dateBefore: int -> string)
      : (h: seq<StockDataPoint>)
      requires symbol in MockStocks && |draws| == StepCount(days)
      ensures |h| == StepCount(days)
      ensures h != [] ==> h[|h| - 1].price == MockStocks[symbol].currentPrice
    {
      var generated := MockHistory(MockStocks[symbol].currentPrice * 0.8, days, draws, dateBefore);
      MockHistoryShape(MockStocks[symbol].currentPrice * 0.8, days, draws, dateBefore);
      if generated == [] then [] else OverwriteLastPrice(generated, MockStocks[symbol].currentPrice)
    }

    /**
     * getStockData: an unknown symbol fails; a cached symbol returns its cached history whatever
     * `days` is; otherwise a history is generated from 80% of the current price, cached, and its
     * last price set to the current price.
     */
    method GetStockData(symbol: string, days: int, rng: RandomSource, dateBefore: int -> string)
      returns (r: Result<StockSummary, MockError>)
      requires Valid()
      modifies this, rng
      ensures Valid()
      ensures symbol !in MockStocks ==>
                r == Failure(StockNotFound) && histories == old(histories) && rng.drawn == old(rng.drawn)
      ensures symbol in MockStocks && symbol in old(histories) ==>
                && histories == old(histories) && rng.drawn == old(rng.drawn)
                && r == Success(WithHistory(MockStocks[symbol], old(histories)[symbol]))
      ensures symbol in MockStocks && symbol !in old(histories) ==>
                && rng.drawn == old(rng.drawn) + StepCount(days)
                && histories == old(histories)[symbol :=
                     FirstHistory(symbol, days, Draws(rng.draw, old(rng.drawn), StepCount(days)), dateBefore)]
                && r == if days < 0 then Failure(TypeError)
                        else Success(WithHistory(MockStocks[symbol], histories[symbol]))
    {
      if symbol !in MockStocks {
        return Failure(StockNotFound);
      }
      var base := MockStocks[symbol];
      if symbol !in histories {
        ghost var from := rng.drawn;
        var generated := GenerateMockHistory(base.currentPrice * 0.8, days, rng, dateBefore);
        ghost var first := FirstHistory(symbol, days, Draws(rng.draw, from, StepCount(days)), dateBefore);
        assert first == if generated == [] then [] else OverwriteLastPrice(generated, base.currentPrice);
        if generated == [] {
          CacheHistory(histories, symbol, generated);
          histories := histories[symbol := generated];
          return Failure(TypeError);
        }
        var priced := OverwriteLastPrice(generated, base.currentPrice);
        CacheHistory(histories, symbol, priced);
        histories := histories[symbol := priced];
      }
      r := Success(WithHistory(base, histories[symbol]));
    }

    /** `getStockData(symbol)` with the default `days`: for a mock stock it always succeeds. */
    method GetStockDataDefault(symbol: string, rng: RandomSource, dateBefore: int -> string) returns (s: StockSummary)
      requires Valid() && symbol in MockStocks
      modifies this, rng
      ensures Valid()
      ensures symbol in histories && s == WithHistory(MockStocks[symbol], histories[symbol])
      ensures Extends(old(histories), histories, symbol)
      ensures symbol in old(histories) ==> histories == old(histories) && rng.drawn == old(rng.drawn)
      ensures symbol !in old(histories) ==>
                && rng.drawn == old(rng.drawn) + StepCount(DefaultDays)
                && histories[symbol] ==
                     FirstHistory(symbol, DefaultDays, Draws(rng.draw, old(rng.drawn), StepCount(DefaultDays)), dateBefore)
                && |histories[symbol]| == DefaultDays + 1
      ensures FirstCallStep(old(histories), histories, old(rng.drawn), rng.drawn, symbol)
    {
      var r := GetStockData(symbol, DefaultDays, rng, dateBefore);
      s := r.value;
    }

    /** getInitialWatchlist: the default-length summaries of AAPL, GOOGL, MSFT and AMZN, in that order. */
    method GetInitialWatchlist(rng: RandomSource, dateBefore: int -> string) returns (w: seq<StockSummary>)
      requires Valid()
      modifies this, rng
      ensures Valid()
      ensures |w| == |InitialSymbols|
      ensures forall k :: 0 <= k < |w| ==>
                InitialSymbols[k] in histories &&
                w[k] == WithHistory(MockStocks[InitialSymbols[k]], histories[InitialSymbols[k]])
      ensures histories.Keys == old(histories.Keys) + {"AAPL", "GOOGL", "MSFT", "AMZN"}
      ensures forall s :: s in old(histories) ==> histories[s] == old(histories)[s]
      ensures rng.drawn == old(rng.drawn) + NewDrawsOf(old(histories), "AAPL") + NewDrawsOf(old(histories), "GOOGL")
                                         + NewDrawsOf(old(histories), "MSFT") + NewDrawsOf(old(histories), "AMZN")
      ensures old(histories) == map[] ==> rng.drawn == old(rng.drawn) + 4 * (DefaultDays + 1)
      ensures forall s :: s in {"AAPL", "GOOGL", "MSFT", "AMZN"} && s !in old(histories) ==>
                |histories[s]| == DefaultDays + 1
    {
      ghost var h0, d0 := histories, rng.drawn;
      var apple := GetStockDataDefault("AAPL", rng, dateBefore);
      ghost var h1, d1 := histories, rng.drawn;
      var alphabet := GetStockDataDefault("GOOGL", rng, dateBefore);
      ghost var h2, d2 := histories, rng.drawn;
      var microsoft := GetStockDataDefault("MSFT", rng, dateBefore);
      ghost var h3, d3 := histories, rng.drawn;
      var amazon := GetStockDataDefault("AMZN", rng, dateBefore);
      w := [apple, alphabet, microsoft, amazon];
      FourCacheUpdates(h0, h1, h2, h3, histories, "AAPL", "GOOGL", "MSFT", "AMZN");
      FourFirstCalls(h0, h1, h2, h3, histories, d0, d1, d2, d3, rng.drawn, "AAPL", "GOOGL", "MSFT", "AMZN");
      InitialWatchlistOf(histories, w);
    }
  }

  /** The initial symbols are distinct, and each is a mock stock listed under its own symbol. */
  lemma InitialSymbolsAreMockStocks()
    ensures forall j, k :: 0 <= j < k < |InitialSymbols| ==> InitialSymbols[j] != InitialSymbols[k]
    ensures forall s :: s in InitialSymbols ==> s in MockStocks && MockStocks[s].symbol == s
  {
  }

  // ---------------------------------------------------------------------------
  // The lookup `MOCK_STOCKS[symbol]` as JavaScript performs it
  // ---------------------------------------------------------------------------

  /** Names every plain object inherits from Object.prototype. */
  const ObjectPrototypeNames: set<string> := {
    "constructor", "hasOwnProperty", "isPrototypeOf", "propertyIsEnumerable", "toLocaleString",
    "toString", "valueOf", "__proto__", "__defineGetter__", "__defineSetter__",
    "__lookupGetter__", "__lookupSetter__"
  }

  /** `!MOCK_STOCKS[symbol]` as written: true only when neither an own nor an inherited property is found. */
  predicate NotFoundAsWritten(symbol: string): (notFound: bool)
    ensures notFound ==> symbol !in MockStocks
  {
    symbol !in MockStocks && symbol !in ObjectPrototypeNames
  }

  /** As written, the guard lets an inherited name through although it names no mock stock. */
  lemma InheritedNamePassesGuard()
    ensures "toString" !in MockStocks && !NotFoundAsWritten("toString")
  {
  }
}
