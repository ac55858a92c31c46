/**
 * src/store.ts: the watchlist and the active symbol held by the store hook, the
 * active stock derived from them, and the aggregate watchlist statistics.
 */
module Store {
  import opened Wrappers
  import opened Types
  import MockData

  // ---------------------------------------------------------------------------
  // Reference definitions
  // ---------------------------------------------------------------------------

  function PriceOf(s: StockSummary): real { s.currentPrice }

  function ChangeOf(s: StockSummary): real { s.changeValue }

  /** The sum of `f` over the watchlist, accumulated in watchlist order. */
  function SumOf(w: seq<StockSummary>, f: StockSummary -> real): real
  {
    if w == [] then 0.0 else SumOf(w[..|w| - 1], f) + f(w[|w| - 1])
  }

  /** Position `k` holds the largest change percent, and every earlier entry's is strictly smaller. */
  predicate IsFirstMax(w: seq<StockSummary>, k: int)
  {
    && 0 <= k < |w|
    && (forall j :: 0 <= j < |w| ==> w[j].changePercent <= w[k].changePercent)
    && (forall j :: 0 <= j < k ==> w[j].changePercent < w[k].changePercent)
  }

  /** Position `k` holds the smallest change percent, and every earlier entry's is strictly larger. */
  predicate IsFirstMin(w: seq<StockSummary>, k: int)
  {
    && 0 <= k < |w|
    && (forall j :: 0 <= j < |w| ==> w[k].changePercent <= w[j].changePercent)
    && (forall j :: 0 <= j < k ==> w[k].changePercent < w[j].changePercent)
  }

  /**
   * `totalValue === 0 ? 0 : valueChange / (totalValue - valueChange) * 100`: the change relative
   * to the prior total. A prior total of zero with a non-zero change divides by zero and so
   * yields an infinity of the change's sign.
   */
  function ValueChangePercent(totalValue: real, valueChange: real): (r: Extended)
    ensures totalValue == 0.0 ==> r == Finite(0.0)
    ensures r.Finite? <==> totalValue == 0.0 || totalValue != valueChange
  {
    if totalValue == 0.0 then Finite(0.0)
    else if totalValue - valueChange == 0.0 then
      (if valueChange > 0.0 then PlusInfinity else MinusInfinity)
    else Finite(valueChange / (totalValue - valueChange) * 100.0)
  }

  /** `watchlist.find(s => s.symbol === symbol)`: the position of the first match. */
  function FindBySymbol(w: seq<StockSummary>, symbol: string): (r: Option<nat>)
    ensures r.Some? ==> r.value < |w| && w[r.value].symbol == symbol
    ensures r.Some? ==> forall j :: 0 <= j < r.value ==> w[j].symbol != symbol
    ensures r.None? ==> forall j :: 0 <= j < |w| ==> w[j].symbol != symbol
  {
    if w == [] then None
    else if w[0].symbol == symbol then Some(0)
    else match FindBySymbol(w[1..], symbol)
      case Some(k) => Some(k + 1)
      case None => None
  }

  // ---------------------------------------------------------------------------
  // The store
  // ---------------------------------------------------------------------------

  class Store {
    var watchlist: seq<StockSummary>
    var activeSymbol: string

    /** The hook's initial state: getInitialWatchlist() and 'AAPL'. */
    constructor (market: MockData.MockMarket, rng: MockData.RandomSource, dateBefore: int -> string)
      requires market.Valid()
      modifies market, rng
      ensures market.Valid()
      ensures |watchlist| == |MockData.InitialSymbols|
      ensures forall k :: 0 <= k < |watchlist| ==>
                MockData.InitialSymbols[k] in market.histories &&
                watchlist[k] == MockData.WithHistory(MockData.MockStocks[MockData.InitialSymbols[k]],
                                                     market.histories[MockData.InitialSymbols[k]])
      ensures activeSymbol == "AAPL"
      ensures market.histories.Keys == old(market.histories.Keys) + {"AAPL", "GOOGL", "MSFT", "AMZN"}
      ensures forall s :: s in old(market.histories) ==> market.histories[s] == old(market.histories)[s]
      ensures rng.drawn == old(rng.drawn)
                + MockData.NewDrawsOf(old(market.histories), "AAPL") + MockData.NewDrawsOf(old(market.histories), "GOOGL")
                + MockData.NewDrawsOf(old(market.histories), "MSFT") + MockData.NewDrawsOf(old(market.histories), "AMZN")
      ensures forall s :: s in {"AAPL", "GOOGL", "MSFT", "AMZN"} && s !in old(market.histories) ==>
                |market.histories[s]| == MockData.DefaultDays + 1
    {
      var initial := market.GetInitialWatchlist(rng, dateBefore);
      watchlist := initial;
      activeSymbol := "AAPL";
    }

    method SetWatchlist(w: seq<StockSummary>)
      modifies this
      ensures watchlist == w && activeSymbol == old(activeSymbol)
    {
      watchlist := w;
    }

    method SetActiveSymbol(symbol: string)
      modifies this
      ensures activeSymbol == symbol && watchlist == old(watchlist)
    {
      activeSymbol := symbol;
    }

    /**
     * activeStock: the first watchlist entry carrying the active symbol, else the first entry,
     * else nothing (`undefined`) for an empty watchlist.
     */
    function ActiveStock(): (r: Option<StockSummary>)
      reads this
      ensures watchlist == [] <==> r.None?
      ensures forall k ::
                (0 <= k < |watchlist| && watchlist[k].symbol == activeSymbol &&
                 forall j :: 0 <= j < k ==> watchlist[j].symbol != activeSymbol)
                ==> r == Some(watchlist[k])
      ensures (watchlist != [] && forall j :: 0 <= j < |watchlist| ==> watchlist[j].symbol != activeSymbol)
                ==> r == Some(watchlist[0])
    {
      match FindBySymbol(watchlist, activeSymbol)
      case Some(k) => Some(watchlist[k])
      case None => if watchlist == [] then None else Some(watchlist[0])
    }

    /**
     * stats: the totals of current prices and of changes, their relative change, the number of
     * entries, and the first entries with the largest and the smallest change percent.
     */
    method Stats() returns (st: WatchlistStats)
      ensures st.totalValue == SumOf(watchlist, PriceOf)
      ensures st.valueChange == SumOf(watchlist, ChangeOf)
      ensures st.valueChangePercent == ValueChangePercent(st.totalValue, st.valueChange)
      ensures st.trackedCount == |watchlist|
      ensures watchlist == [] ==>
                st.totalValue == 0.0 && st.valueChange == 0.0 && st.valueChangePercent == Finite(0.0)
      ensures watchlist == [] <==> st.topGainer.None?
      ensures watchlist == [] <==> st.topLoser.None?
      ensures st.topGainer.Some? ==> exists k :: IsFirstMax(watchlist, k) && st.topGainer.value == watchlist[k]
      ensures st.topLoser.Some? ==> exists k :: IsFirstMin(watchlist, k) && st.topLoser.value == watchlist[k]
    {
      var totalValue := 0.0;
      var valueChange := 0.0;
      var topGainer: Option<StockSummary> := None;
      var topLoser: Option<StockSummary> := None;
      ghost var gainerAt := 0;
      ghost var loserAt := 0;
      for i := 0 to |watchlist|
        invariant totalValue == SumOf(watchlist[..i], PriceOf)
        invariant valueChange == SumOf(watchlist[..i], ChangeOf)
        invariant i == 0 <==> topGainer.None?
        invariant i == 0 <==> topLoser.None?
        invariant topGainer.Some? ==> IsFirstMax(watchlist[..i], gainerAt) && topGainer.value == watchlist[gainerAt]
        invariant topLoser.Some? ==> IsFirstMin(watchlist[..i], loserAt) && topLoser.value == watchlist[loserAt]
      {
        var stock := watchlist[i];
        assert watchlist[..i + 1] == watchlist[..i] + [stock];
        SumOfAppend(watchlist[..i], stock, PriceOf);
        SumOfAppend(watchlist[..i], stock, ChangeOf);
        totalValue := totalValue + stock.currentPrice;
        valueChange := valueChange + stock.changeValue;
        FirstMaxExtend(watchlist, i, gainerAt);
        FirstMinExtend(watchlist, i, loserAt);
        if topGainer.None? || stock.changePercent > topGainer.value.changePercent {
          topGainer := Some(stock);
          gainerAt := i;
        }
        if topLoser.None? || stock.changePercent < topLoser.value.changePercent {
          topLoser := Some(stock);
          loserAt := i;
        }
      }
      assert watchlist[..|watchlist|] == watchlist;
      st := WatchlistStats(totalValue, valueChange, ValueChangePercent(totalValue, valueChange),
                           |watchlist|, topGainer, topLoser);
    }
  }

  // ---------------------------------------------------------------------------
  // Properties of the statistics
  // ---------------------------------------------------------------------------

  /** Scanning entry `i` makes it the first maximum if it is the first entry or beats the current one, and keeps the current one otherwise. */
  lemma FirstMaxExtend(w: seq<StockSummary>, i: nat, g: int)
    requires i < |w| && (i == 0 || IsFirstMax(w[..i], g))
    ensures i == 0 || w[i].changePercent > w[g].changePercent ==> IsFirstMax(w[..i + 1], i)
    ensures i > 0 && w[i].changePercent <= w[g].changePercent ==> IsFirstMax(w[..i + 1], g)
  {
    assert forall j :: 0 <= j < i ==> w[..i + 1][j] == w[..i][j];
  }

  /** Scanning entry `i` makes it the first minimum if it is the first entry or undercuts the current one, and keeps the current one otherwise. */
  lemma FirstMinExtend(w: seq<StockSummary>, i: nat, g: int)
    requires i < |w| && (i == 0 || IsFirstMin(w[..i], g))
    ensures i == 0 || w[i].changePercent < w[g].changePercent ==> IsFirstMin(w[..i + 1], i)
    ensures i > 0 && w[i].changePercent >= w[g].changePercent ==> IsFirstMin(w[..i + 1], g)
  {
    assert forall j :: 0 <= j < i ==> w[..i + 1][j] == w[..i][j];
  }

  /** The relative change is zero exactly when the total or the change is zero. */
  lemma ValueChangePercentZero(totalValue: real, valueChange: real)
    ensures ValueChangePercent(totalValue, valueChange) == Finite(0.0) <==> totalValue == 0.0 || valueChange == 0.0
  {
    if totalValue != 0.0 && totalValue - valueChange != 0.0 {
      var prior := totalValue - valueChange;
      var q := valueChange / prior;
      assert q * prior == valueChange;
    }
  }

  /** A finite non-zero relative change, applied to the prior total, gives back the change. */
  lemma ValueChangePercentOfPrior(totalValue: real, valueChange: real)
    requires totalValue != 0.0 && totalValue != valueChange
    ensures ValueChangePercent(totalValue, valueChange).Finite?
    ensures ValueChangePercent(totalValue, valueChange).value * (totalValue - valueChange) == valueChange * 100.0
  {
    var prior := totalValue - valueChange;
    assert valueChange / prior * prior == valueChange;
  }

  /** The relative change is infinite exactly when the whole total is change, and then has its sign. */
  lemma ValueChangePercentInfinite(totalValue: real, valueChange: real)
    ensures !ValueChangePercent(totalValue, valueChange).Finite? <==> totalValue != 0.0 && totalValue == valueChange
    ensures ValueChangePercent(totalValue, valueChange) == PlusInfinity <==> totalValue == valueChange && valueChange > 0.0
    ensures ValueChangePercent(totalValue, valueChange) == MinusInfinity <==> totalValue == valueChange && valueChange < 0.0
  {
  }

  lemma {:induction false} SumOfAppend(w: seq<StockSummary>, s: StockSummary, f: StockSummary -> real)
    ensures SumOf(w + [s], f) == SumOf(w, f) + f(s)
  {
    assert (w + [s])[..|w|] == w;
  }

  /** Removing the entry at position `k` takes its contribution off the sum. */
  lemma {:induction false} SumOfRemove(w: seq<StockSummary>, k: nat, f: StockSummary -> real)
    requires k < |w|
    ensures SumOf(w, f) == SumOf(w[..k] + w[k + 1..], f) + f(w[k])
    decreases |w|
  {
    var last := |w| - 1;
    if k < last {
      var front := w[..last];
      SumOfRemove(front, k, f);
      assert w[..k] + w[k + 1..] == (front[..k] + front[k + 1..]) + [w[last]];
      SumOfAppend(front[..k] + front[k + 1..], w[last], f);
    } else {
      assert w[..k] + w[k + 1..] == w[..last];
    }
  }

  /** The totals do not depend on the order of the watchlist. */
  lemma {:induction false} SumOfPermutation(a: seq<StockSummary>, b: seq<StockSummary>, f: StockSummary -> real)
    requires multiset(a) == multiset(b)
    ensures SumOf(a, f) == SumOf(b, f)
    decreases |a|
  {
    if a != [] {
      var x := a[|a| - 1];
      assert x in multiset(b);
      var k :| 0 <= k < |b| && b[k] == x;
      var rest := b[..k] + b[k + 1..];
      MultisetRemove(a, b, k);
      SumOfPermutation(a[..|a| - 1], rest, f);
      SumOfRemove(b, k, f);
      assert a == a[..|a| - 1] + [x];
    } else {
      assert b == [];
    }
  }

  /** Taking the last entry off `a` and an equal entry off its permutation `b` leaves permutations. */
  lemma MultisetRemove(a: seq<StockSummary>, b: seq<StockSummary>, k: int)
    requires multiset(a) == multiset(b) && a != [] && 0 <= k < |b| && b[k] == a[|a| - 1]
    ensures multiset(a[..|a| - 1]) == multiset(b[..k] + b[k + 1..])
  {
    var x, front, rest := a[|a| - 1], a[..|a| - 1], b[..k] + b[k + 1..];
    assert b == b[..k] + [x] + b[k + 1..];
    assert multiset(b) == multiset(rest) + multiset{x};
    assert a == front + [x];
    assert multiset(a) == multiset(front) + multiset{x};
    assert multiset(front) == multiset(a) - multiset{x};
    assert multiset(rest) == multiset(b) - multiset{x};
  }

  /** Reordering the watchlist may change which entry is the top gainer, never its change percent. */
  lemma TopGainerPercentPermutation(a: seq<StockSummary>, b: seq<StockSummary>, ka: int, kb: int)
    requires multiset(a) == multiset(b)
    requires IsFirstMax(a, ka) && IsFirstMax(b, kb)
    ensures a[ka].changePercent == b[kb].changePercent
  {
    assert a[ka] in multiset(b);
    assert b[kb] in multiset(a);
  }

  /** The same for the top loser. */
  lemma TopLoserPercentPermutation(a: seq<StockSummary>, b: seq<StockSummary>, ka: int, kb: int)
    requires multiset(a) == multiset(b)
    requires IsFirstMin(a, ka) && IsFirstMin(b, kb)
    ensures a[ka].changePercent == b[kb].changePercent
  {
    assert a[ka] in multiset(b);
    assert b[kb] in multiset(a);
  }

  /** Ties go to the earliest entry: there is only one first maximum and one first minimum. */
  lemma FirstExtremaUnique(w: seq<StockSummary>, j: int, k: int)
    ensures IsFirstMax(w, j) && IsFirstMax(w, k) ==> j == k
    ensures IsFirstMin(w, j) && IsFirstMin(w, k) ==> j == k
  {
    if IsFirstMax(w, j) && IsFirstMax(w, k) {
      var a, b := w[j].changePercent, w[k].changePercent;
      assert a == b;
      assert j < k ==> a < b;
      assert k < j ==> b < a;
    }
    if IsFirstMin(w, j) && IsFirstMin(w, k) {
      var a, b := w[j].changePercent, w[k].changePercent;
      assert a == b;
      assert j < k ==> b < a;
      assert k < j ==> a < b;
    }
  }
}
