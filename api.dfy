/**
 * The client-side rules of src/services/api.ts: the empty-token guard of the quote and
 * search calls, the interval token and query sent to the chart proxy, the shaping of a
 * parsed chart response into candle arrays, and the normalisation of candle arrays
 * into a price series with its 20-sample moving average. The requests themselves are
 * not issued here: a request is returned as a value and a response is an input.
 */
module Api {
  import opened Wrappers
  import opened Types
  import opened SeriesMath
  import IsoDate

  /** The errors the functions of api.ts throw. */
  datatype ApiError =
    | ApiKeyMissing                      // 'API Key missing', before any request
    | QuoteFailed(symbol: string)        // `Failed to fetch quote for ${symbol}`
    | SearchFailed                       // 'Failed to search stocks'
    | YahooStatus(status: int)           // `Yahoo Finance API returned ${status}`
    | TypeError                          // a property read on `undefined`
    | InvalidTimeValue                   // RangeError thrown by toISOString

  /** FinnhubQuote: current, change, percent change, high, low, open, previous close. */
  datatype Quote = Quote(c: real, d: real, dp: real, h: real, l: real, o: real, pc: real)

  datatype SearchHit = SearchHit(description: string, displaySymbol: string, symbol: string, securityType: string)

  datatype SearchResponse = SearchResponse(count: int, result: seq<SearchHit>)

  /** FinnhubCandleResponse: parallel arrays whose entries may be `null`, a status and timestamps. */
  datatype CandleResponse = CandleResponse(
    c: seq<Option<real>>,
    h: seq<Option<real>>,
    l: seq<Option<real>>,
    o: seq<Option<real>>,
    s: string,
    t: seq<int>,
    v: seq<Option<real>>)

  /** A request as a value: the address and its query parameters in order. */
  datatype Request = Request(url: string, query: seq<(string, string)>)

  /** The query sent to the local chart proxy for one symbol. */
  datatype CandleQuery = CandleQuery(symbol: string, period1: int, period2: int, interval: string)

  const BaseUrl: string := "https://finnhub.io/api/v1"

  /** `response.ok` of the fetch API. */
  predicate IsOk(status: int)
  {
    200 <= status <= 299
  }

  // ---------------------------------------------------------------------------
  // Quote and search: the empty-token guard
  // ---------------------------------------------------------------------------

  /** fetchQuote up to the request: an empty token fails before any request is built. */
  function QuoteRequest(symbol: string, token: string): (r: Result<Request, ApiError>)
    ensures token == "" <==> r.Failure?
    ensures r.Failure? ==> r.error == ApiKeyMissing
    ensures r.Success? ==> ("symbol", symbol) in r.value.query && ("token", token) in r.value.query
  {
    if token == "" then Failure(ApiKeyMissing)
    else Success(Request(BaseUrl + "/quote", [("symbol", symbol), ("token", token)]))
  }

  /** fetchQuote after the response: a non-2xx status fails, otherwise the body is the quote. */
  function ReadQuote(symbol: string, status: int, body: Quote): (r: Result<Quote, ApiError>)
    ensures r.Success? <==> IsOk(status)
    ensures r.Success? ==> r.value == body
    ensures r.Failure? ==> r.error == QuoteFailed(symbol)
  {
    if !IsOk(status) then Failure(QuoteFailed(symbol)) else Success(body)
  }

  /** searchStocks up to the request: an empty token fails before any request is built. */
  function SearchRequest(query: string, token: string): (r: Result<Request, ApiError>)
    ensures token == "" <==> r.Failure?
    ensures r.Failure? ==> r.error == ApiKeyMissing
    ensures r.Success? ==> ("q", query) in r.value.query && ("token", token) in r.value.query
  {
    if token == "" then Failure(ApiKeyMissing)
    else Success(Request(BaseUrl + "/search", [("q", query), ("token", token)]))
  }

  /** searchStocks after the response. */
  function ReadSearch(status: int, body: SearchResponse): (r: Result<SearchResponse, ApiError>)
    ensures r.Success? <==> IsOk(status)
    ensures r.Success? ==> r.value == body
    ensures r.Failure? ==> r.error == SearchFailed
  {
    if !IsOk(status) then Failure(SearchFailed) else Success(body)
  }

  // ---------------------------------------------------------------------------
  // fetchCandles: the interval token and the shaping of the chart response
  // ---------------------------------------------------------------------------

  /** The Finnhub-style resolution token translated to the chart proxy's interval token. */
  function YahooInterval(resolution: string): (r: string)
    ensures r == "1h" <==> resolution == "60"
    ensures r == "1wk" <==> resolution == "W"
    ensures r == "1d" <==> resolution != "60" && resolution != "W"
  {
    if resolution == "60" then "1h" else if resolution == "W" then "1wk" else "1d"
  }

  /** The proxy query for a symbol, a resolution and a time span in Unix seconds. */
  function CandleQueryFor(symbol: string, resolution: string, from: int, to: int): (q: CandleQuery)
    ensures q.symbol == symbol && q.period1 == from && q.period2 == to
    ensures q.interval == YahooInterval(resolution)
    ensures q.interval in {"1h", "1wk", "1d"}
  {
    CandleQuery(symbol, from, to, YahooInterval(resolution))
  }

  /** One entry of `indicators.quote`; any of its arrays may be missing. */
  datatype QuoteIndicator = QuoteIndicator(
    close: Option<seq<Option<real>>>,
    high: Option<seq<Option<real>>>,
    low: Option<seq<Option<real>>>,
    open: Option<seq<Option<real>>>,
    volume: Option<seq<Option<real>>>)

  datatype Indicators = Indicators(quote: Option<seq<QuoteIndicator>>)

  datatype ChartResult = ChartResult(timestamp: Option<seq<int>>, indicators: Option<Indicators>)

  datatype Chart = Chart(result: Option<seq<ChartResult>>)

  /** The parsed JSON body of the chart proxy: `{ chart: { result: [...] } }`. */
  datatype ChartPayload = ChartPayload(chart: Option<Chart>)

  /** The candle record returned when the chart has no result or no timestamps. */
  const NoData: CandleResponse := CandleResponse([], [], [], [], "no_data", [], [])

  /** `quote.close || []`: a missing array becomes the empty one. */
  function OrEmpty(a: Option<seq<Option<real>>>): (r: seq<Option<real>>)
    ensures a.Some? ==> r == a.value
    ensures a.None? ==> r == []
  {
    match a
    case Some(s) => s
    case None => []
  }

  /** `!result || !result.timestamp` for `result = chart.result?.[0]`. */
  predicate NoChartData(chart: Chart)
  {
    chart.result.None? || chart.result.value == [] || chart.result.value[0].timestamp.None?
  }

  /** `chart.result[0].indicators.quote[0]` can be read without a TypeError. */
  predicate HasQuote(result: ChartResult)
  {
    result.indicators.Some? && result.indicators.value.quote.Some? && result.indicators.value.quote.value != []
  }

  /** The `ok` candle record built from a result with timestamps and a quote entry. */
  function CandlesOf(result: ChartResult): CandleResponse
    requires result.timestamp.Some? && HasQuote(result)
  {
    var q := result.indicators.value.quote.value[0];
    CandleResponse(OrEmpty(q.close), OrEmpty(q.high), OrEmpty(q.low), OrEmpty(q.open),
                   "ok", result.timestamp.value, OrEmpty(q.volume))
  }

  /** fetchCandles after the response: reject a non-2xx status, then reshape `chart.result[0]`. */
  function ShapeCandles(status: int, data: ChartPayload): (r: Result<CandleResponse, ApiError>)
    ensures !IsOk(status) ==> r == Failure(YahooStatus(status))
    ensures IsOk(status) && data.chart.None? ==> r == Failure(TypeError)
    ensures IsOk(status) && data.chart.Some? && NoChartData(data.chart.value) ==> r == Success(NoData)
    ensures IsOk(status) && data.chart.Some? && !NoChartData(data.chart.value) ==>
              var result := data.chart.value.result.value[0];
              r == if HasQuote(result) then Success(CandlesOf(result)) else Failure(TypeError)
    ensures r.Success? ==> r.value.s in {"ok", "no_data"}
  {
    if !IsOk(status) then Failure(YahooStatus(status))
    else if data.chart.None? then Failure(TypeError)
    else if NoChartData(data.chart.value) then Success(NoData)
    else
      var result := data.chart.value.result.value[0];
      if !HasQuote(result) then Failure(TypeError)
      else Success(CandlesOf(result))
  }

  // ---------------------------------------------------------------------------
  // mapCandlesToDataPoints
  // ---------------------------------------------------------------------------

  /** `data.c[index]`: the entry, or `undefined` past the end of the array. */
  function CloseAt(c: seq<Option<real>>, i: int): Option<real>
  {
    if 0 <= i < |c| then c[i] else None
  }

  /** The indices below `n`, in increasing order, whose close price is present. */
  function KeptIndices(c: seq<Option<real>>, n: nat): (r: seq<nat>)
    ensures |r| <= n
    ensures forall k :: 0 <= k < |r| ==> r[k] < n && r[k] < |c| && c[r[k]].Some?
  {
    if n == 0 then []
    else KeptIndices(c, n - 1) + (if CloseAt(c, n - 1).Some? then [n - 1] else [])
  }

  /** Reference definition of the normalised series. */
  function NormalisedPoints(data: CandleResponse): Result<seq<StockDataPoint>, ApiError>
  {
    if data.s != "ok" || |data.t| == 0 then Success([])
    else
      var kept := KeptIndices(data.c, |data.t|);
      if exists k :: 0 <= k < |kept| && !IsoDate.ValidTimestamp(data.t[kept[k]])
      then Failure(InvalidTimeValue)
      else
        var dates := seq(|kept|, k requires 0 <= k < |kept| => IsoDate.DateOfTimestamp(data.t[kept[k]]).value);
        var prices := seq(|kept|, k requires 0 <= k < |kept| => data.c[kept[k]].value);
        Success(SeriesWithMa20(dates, prices))
  }

  /**
   * `points` holds, in order, one point per index of `kept`: its close price, the date of its
   * timestamp (which is a valid time value) and no moving average yet.
   */
  ghost predicate CompactedFrom(data: CandleResponse, kept: seq<nat>, points: seq<StockDataPoint>)
  {
    && |points| == |kept|
    && forall k :: 0 <= k < |points| ==>
         && kept[k] < |data.t| && kept[k] < |data.c| && data.c[kept[k]].Some?
         && IsoDate.ValidTimestamp(data.t[kept[k]])
         && points[k] == StockDataPoint(IsoDate.DateOfTimestamp(data.t[kept[k]]).value, data.c[kept[k]].value, None)
  }

  /** Some index with a close price has a timestamp that is not a valid time value. */
  predicate SomeKeptInvalid(data: CandleResponse)
  {
    var kept := KeptIndices(data.c, |data.t|);
    exists k :: 0 <= k < |kept| && !IsoDate.ValidTimestamp(data.t[kept[k]])
  }

  /**
   * The `forEach` of mapCandlesToDataPoints: a point for each timestamp whose close is present,
   * or the RangeError `toISOString` throws for the first such timestamp that is out of range.
   */
  method CompactCandles(data: CandleResponse) returns (r: Result<seq<StockDataPoint>, ApiError>)
    ensures r.Success? ==> CompactedFrom(data, KeptIndices(data.c, |data.t|), r.value)
    ensures r.Failure? ==> r.error == InvalidTimeValue && SomeKeptInvalid(data)
  {
    var points: seq<StockDataPoint> := [];
    ghost var kept: seq<nat> := [];
    for index := 0 to |data.t|
      invariant kept == KeptIndices(data.c, index)
      invariant CompactedFrom(data, kept, points)
    {
      var closePrice := CloseAt(data.c, index);
      KeptIndicesNext(data.c, index);
      if closePrice.Some? {
        var date := IsoDate.DateOfTimestamp(data.t[index]);
        if date.Failure? {
          KeptInvalid(data, index);
          return Failure(InvalidTimeValue);
        }
        CompactedFromAppend(data, kept, points, index);
        points := points + [StockDataPoint(date.value, closePrice.value, None)];
        kept := kept + [index];
      }
    }
    r := Success(points);
  }

  /** One more index is kept exactly when its close is present. */
  lemma KeptIndicesNext(c: seq<Option<real>>, n: nat)
    ensures CloseAt(c, n).Some? ==> KeptIndices(c, n + 1) == KeptIndices(c, n) + [n]
    ensures CloseAt(c, n).None? ==> KeptIndices(c, n + 1) == KeptIndices(c, n)
  {
    assert KeptIndices(c, n) + [] == KeptIndices(c, n);
  }

  /** Appending the point of one more kept index keeps the compaction in step. */
  lemma CompactedFromAppend(data: CandleResponse, kept: seq<nat>, points: seq<StockDataPoint>, index: nat)
    requires CompactedFrom(data, kept, points)
    requires index < |data.t| && index < |data.c| && data.c[index].Some? && IsoDate.ValidTimestamp(data.t[index])
    ensures CompactedFrom(data, kept + [index],
              points + [StockDataPoint(IsoDate.DateOfTimestamp(data.t[index]).value, data.c[index].value, None)])
  {
  }

  /**
   * mapCandlesToDataPoints: the points of the indices whose close is present, each dated by
   * its timestamp, followed by the moving-average pass over the compacted points.
   */
  method MapCandlesToDataPoints(data: CandleResponse) returns (r: Result<seq<StockDataPoint>, ApiError>)
    ensures r == NormalisedPoints(data)
  {
    if data.s != "ok" || |data.t| == 0 {
      return Success([]);
    }
    var compacted := CompactCandles(data);
    if compacted.Failure? {
      return Failure(InvalidTimeValue);
    }
    NormalisedOfCompacted(data, compacted.value);
    var series := FillMa20(compacted.value);
    r := Success(series);
  }

  /** A kept index whose timestamp is not a valid time value is a witness of SomeKeptInvalid. */
  lemma KeptInvalid(data: CandleResponse, index: nat)
    requires index < |data.t|
    requires CloseAt(data.c, index).Some? && !IsoDate.ValidTimestamp(data.t[index])
    ensures SomeKeptInvalid(data)
  {
    KeptIndicesPrefix(data.c, index + 1, |data.t|);
    assert KeptIndices(data.c, |data.t|)[|KeptIndices(data.c, index)|] == index;
  }

  /** Once every kept index has its dated point, the normalised series is the moving-average pass over them. */
  lemma NormalisedOfCompacted(data: CandleResponse, points: seq<StockDataPoint>)
    requires data.s == "ok" && |data.t| != 0
    requires CompactedFrom(data, KeptIndices(data.c, |data.t|), points)
    ensures forall k :: 0 <= k < |points| ==> points[k].ma20 == None
    ensures NormalisedPoints(data) == Success(SeriesWithMa20(Dates(points), Prices(points)))
  {
    var kept := KeptIndices(data.c, |data.t|);
    assert !(exists k :: 0 <= k < |kept| && !IsoDate.ValidTimestamp(data.t[kept[k]]));
    assert Dates(points) == seq(|kept|, k requires 0 <= k < |kept| => IsoDate.DateOfTimestamp(data.t[kept[k]]).value);
    assert Prices(points) == seq(|kept|, k requires 0 <= k < |kept| => data.c[kept[k]].value);
  }

  // ---------------------------------------------------------------------------
  // Properties of the normalised series
  // ---------------------------------------------------------------------------

  lemma {:induction false} KeptIndicesPrefix(c: seq<Option<real>>, n: nat, m: nat)
    requires n <= m
    ensures KeptIndices(c, n) <= KeptIndices(c, m)
  {
    if n < m {
      KeptIndicesPrefix(c, n, m - 1);
    }
  }

  /**
   * The kept indices are exactly the indices below `n` whose close is present
   * (an index past the end of `c` counts as absent), in strictly increasing order.
   */
  lemma {:induction false} KeptIndicesExact(c: seq<Option<real>>, n: nat)
    ensures forall i: nat :: i in KeptIndices(c, n) <==> i < n && i < |c| && c[i].Some?
    ensures forall k, j :: 0 <= k < j < |KeptIndices(c, n)| ==> KeptIndices(c, n)[k] < KeptIndices(c, n)[j]
  {
    if n > 0 {
      KeptIndicesExact(c, n - 1);
    }
  }

  /** A response that is not `ok`, or has no timestamps, normalises to the empty series. */
  lemma NormalisedPointsEmpty(data: CandleResponse)
    requires data.s != "ok" || data.t == []
    ensures NormalisedPoints(data) == Success([])
  {
  }

  /** The no-data record that shaping produces normalises to the empty series. */
  lemma ShapedNoDataIsEmpty(status: int, data: ChartPayload)
    requires ShapeCandles(status, data).Success?
    requires ShapeCandles(status, data).value.s != "ok"
    ensures ShapeCandles(status, data).value == NoData
    ensures NormalisedPoints(ShapeCandles(status, data).value) == Success([])
  {
  }

  /**
   * Point `k` of a normalised series comes from the `k`-th present close: its price is that
   * close, its date is the UTC day of that timestamp, and its `ma20` is the trailing mean of
   * the compacted prices from position 19 on and `null` before.
   */
  lemma NormalisedPointAt(data: CandleResponse, k: nat)
    requires data.s == "ok"
    requires NormalisedPoints(data).Success?
    requires k < |NormalisedPoints(data).value|
    ensures var kept := KeptIndices(data.c, |data.t|);
            var points := NormalisedPoints(data).value;
            && |points| == |kept| <= |data.t|
            && kept[k] < |data.t| && kept[k] < |data.c| && data.c[kept[k]].Some?
            && points[k].price == data.c[kept[k]].value
            && IsoDate.DateOfTimestamp(data.t[kept[k]]) == Success(points[k].date)
            && (k < Window - 1 <==> points[k].ma20.None?)
            && (k >= Window - 1 ==>
                  points[k].ma20.value == Sum(Prices(points)[k - (Window - 1) .. k + 1]) / Window as real)
  {
    var kept := KeptIndices(data.c, |data.t|);
    var points := NormalisedPoints(data).value;
    assert !(exists j :: 0 <= j < |kept| && !IsoDate.ValidTimestamp(data.t[kept[j]]));
    assert IsoDate.ValidTimestamp(data.t[kept[k]]);
    assert Prices(points) == seq(|kept|, j requires 0 <= j < |kept| => data.c[kept[j]].value);
  }
}
