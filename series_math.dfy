/**
 * The 20-sample trailing moving average that src/services/api.ts and
 * src/services/mockData.ts both compute with the same nested loop.
 */
module SeriesMath {
  import opened Wrappers
  import opened Types

  /** Samples in the moving-average window. */
  const Window: nat := 20

  function Sum(s: seq<real>): real
  {
    if s == [] then 0.0 else s[0] + Sum(s[1..])
  }

  function Prices(points: seq<StockDataPoint>): seq<real>
  {
    seq(|points|, k requires 0 <= k < |points| => points[k].price)
  }

  function Dates(points: seq<StockDataPoint>): seq<string>
  {
    seq(|points|, k requires 0 <= k < |points| => points[k].date)
  }

  /**
   * Reference definition: the mean of the 20 prices ending at position `k`,
   * or `null` while fewer than 20 prices are available.
   */
  function MovingAverage(prices: seq<real>, k: nat): Option<real>
    requires k < |prices|
  {
    if k < Window - 1 then None
    else Some(Sum(prices[k - (Window - 1) .. k + 1]) / Window as real)
  }

  /** The series whose points carry `dates`, `prices` and the moving average of `prices`. */
  function SeriesWithMa20(dates: seq<string>, prices: seq<real>): seq<StockDataPoint>
    requires |dates| == |prices|
  {
    seq(|prices|, k requires 0 <= k < |prices| => StockDataPoint(dates[k], prices[k], MovingAverage(prices, k)))
  }

  /**
   * The loop `for i ... if (i >= 19) { sum of points[i - j].price for j < 20; points[i].ma20 = sum / 20 }`:
   * positions from 19 on get the trailing mean of the prices, earlier ones are left as they were.
   */
  method FillMa20(points: seq<StockDataPoint>) returns (r: seq<StockDataPoint>)
    ensures |r| == |points|
    ensures forall k :: 0 <= k < |points| && k < Window - 1 ==> r[k] == points[k]
    ensures forall k :: Window - 1 <= k < |points| ==>
              r[k] == points[k].(ma20 := MovingAverage(Prices(points), k))
    ensures (forall k :: 0 <= k < |points| ==> points[k].ma20 == None) ==>
              r == SeriesWithMa20(Dates(points), Prices(points))
  {
    ghost var prices := Prices(points);
    r := points;
    for i := 0 to |r|
      invariant |r| == |points|
      invariant forall k :: 0 <= k < i && Window - 1 <= k ==>
                  r[k] == points[k].(ma20 := MovingAverage(prices, k))
      invariant forall k :: 0 <= k < |r| && (i <= k || k < Window - 1) ==> r[k] == points[k]
    {
      if i >= Window - 1 {
        var sum := 0.0;
        for j := 0 to Window
          invariant sum == Sum(prices[i - j + 1 .. i + 1])
        {
          assert prices[i - j .. i + 1][1..] == prices[i - j + 1 .. i + 1];
          sum := sum + r[i - j].price;
        }
        r := r[i := r[i].(ma20 := Some(sum / Window as real))];
      }
    }
  }

  // ---------------------------------------------------------------------------
  // Properties of the moving average
  // ---------------------------------------------------------------------------

  lemma {:induction false} SumAppend(s: seq<real>, x: real)
    ensures Sum(s + [x]) == Sum(s) + x
  {
    if s != [] {
      assert (s + [x])[1..] == s[1..] + [x];
      SumAppend(s[1..], x);
    }
  }

  /** A sum of values of at least `lo` is at least |s| * lo. */
  lemma {:induction false} SumAtLeast(s: seq<real>, lo: real)
    requires forall i :: 0 <= i < |s| ==> lo <= s[i]
    ensures |s| as real * lo <= Sum(s)
  {
    if s != [] {
      SumAtLeast(s[1..], lo);
    }
  }

  /** A sum of values of at most `hi` is at most |s| * hi. */
  lemma {:induction false} SumAtMost(s: seq<real>, hi: real)
    requires forall i :: 0 <= i < |s| ==> s[i] <= hi
    ensures Sum(s) <= |s| as real * hi
  {
    if s != [] {
      SumAtMost(s[1..], hi);
    }
  }

  /** The moving average only moves within the range of the prices in its window. */
  lemma MovingAverageBounds(prices: seq<real>, k: nat, lo: real, hi: real)
    requires Window - 1 <= k < |prices|
    requires forall i :: k - (Window - 1) <= i <= k ==> lo <= prices[i] <= hi
    ensures MovingAverage(prices, k).Some?
    ensures lo <= MovingAverage(prices, k).value <= hi
  {
    var w := prices[k - (Window - 1) .. k + 1];
    assert forall i :: 0 <= i < |w| ==> w[i] == prices[k - (Window - 1) + i];
    SumAtLeast(w, lo);
    SumAtMost(w, hi);
  }

  /**
   * Sliding the window by one position adds the new price and drops the oldest,
   * so the running-sum form of the average agrees with the nested loop.
   */
  lemma MovingAverageSlide(prices: seq<real>, k: nat)
    requires Window - 1 <= k && k + 1 < |prices|
    ensures MovingAverage(prices, k + 1).value
         == MovingAverage(prices, k).value + (prices[k + 1] - prices[k - (Window - 1)]) / Window as real
  {
    var older := prices[k - (Window - 1) .. k + 1];
    var newer := prices[k + 1 - (Window - 1) .. k + 2];
    var shared := prices[k + 1 - (Window - 1) .. k + 1];
    assert older[1..] == shared;
    assert newer == shared + [prices[k + 1]];
    SumAppend(shared, prices[k + 1]);
  }
}
