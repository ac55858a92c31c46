# Stock tracker: client-side data logic in Dafny

This project models the data logic of a small stock-watchlist web client and proves properties of it. It covers three parts:

- **Candle normalisation** (`src/services/api.ts`). A chart response is a list of close prices and a list of Unix-second timestamps, in parallel. It becomes a price series:
  - indices with no close are dropped;
  - each timestamp becomes its UTC calendar day `YYYY-MM-DD`, written the way `Date.prototype.toISOString` writes it;
  - each point from the twentieth on gets the mean of the last 20 prices (`ma20`).

  Also modelled here:
  - the mapping from resolution token to the proxy's interval token;
  - the shaping of a parsed chart payload into the candle record;
  - the empty-API-key guard of the quote and search requests.
- **The store** (`src/store.ts`). This is the watchlist and the active symbol, with their setters and initial values. Two values are derived from them:
  - the active stock, which is the first entry with the active symbol, else the first entry;
  - the watchlist statistics: the two totals, their relative change, the count, and the first top gainer and first top loser.
- **The mock market** (`src/services/mockData.ts`). This covers:
  - the four mock quotes;
  - the random-walk history generator, floored at 1, which uses the same moving-average pass as above;
  - the per-symbol history cache behind `getStockData`, which overwrites the last price after the average has been computed;
  - the four-symbol initial watchlist.

Prices are exact `real`s. `Math.random` is a `RandomSource`, an endless stream of draws, and the model counts the draws taken. The calendar date "today minus i days" of the mock history is a parameter `dateBefore(i)`. Timestamp-to-date conversion follows ECMA-262:

- the time value is `ts * 1000` ms;
- the day number is `floor(t / 86400000)`;
- the calendar is the proleptic Gregorian one;
- `toISOString` throws a `RangeError` beyond ±8.64e15 ms;
- years outside 0..9999 use the expanded `±YYYYYY` form of the Date Time String Format.

Modules:

| file | module | contents |
|---|---|---|
| `wrappers.dfy` | `Wrappers` | `Option`, `Result` |
| `types.dfy` | `Types` | `StockDataPoint`, `StockSummary`, `WatchlistStats`, and `Extended` (a number that may be ±Infinity) |
| `series_math.dfy` | `SeriesMath` | the 20-point moving average: a reference definition and the nested loop |
| `iso_date.dfy` | `IsoDate` | days ↔ proleptic Gregorian dates, and the `YYYY-MM-DD` rendering |
| `api.dfy` | `Api` | `src/services/api.ts` |
| `mock_data.dfy` | `MockData` | `src/services/mockData.ts` |
| `store.dfy` | `Store` | `src/store.ts` |

## Model

| member | source | states |
|---|---|---|
| Api.QuoteRequest | src/services/api.ts:35-37 | An empty token fails with "API Key missing" before any request is built. Any other token gives a request whose query carries the symbol and the token. |
| Api.SearchRequest | src/services/api.ts:43-45 | An empty token fails with "API Key missing" before any request is built. Any other token gives a request whose query carries `q` and the token. |
| Api.ReadQuote | src/services/api.ts:39-40 | A non-2xx status fails with the quote error for that symbol. Otherwise the body is returned unchanged. |
| Api.ReadSearch | src/services/api.ts:47-48 | A non-2xx status fails with the search error. Otherwise the body is returned unchanged. |
| Api.YahooInterval | src/services/api.ts:61 | `'60'` gives `'1h'` and only `'60'` does. `'W'` gives `'1wk'` and only `'W'` does. Every other token gives `'1d'`. |
| Api.CandleQueryFor | src/services/api.ts:61-66 | The proxy query keeps the symbol, `period1` and `period2`. Its interval is the token `YahooInterval` gives for the resolution, so it is always one of `1h`, `1wk`, `1d`. |
| Api.ShapeCandles | src/services/api.ts:72-90 | A non-2xx status fails with that status. A payload without `chart` fails with a TypeError. A missing result or timestamp list gives the all-empty `no_data` record. A missing quote list fails with a TypeError. Otherwise the result is the `ok` record, with `[]` for each absent quote array. |
| Api.ShapedNoDataIsEmpty | src/services/api.ts:76-78 | Every successful shaping that is not `ok` is the empty `no_data` record, and it normalises to the empty series. |
| Api.KeptIndices | src/services/api.ts:105-107 | The kept indices are below both the length of `t` and the length of `c`, and each of them has a present close. |
| Api.KeptIndicesExact | src/services/api.ts:105-114 | An index is kept exactly when it is below the length of `t`, below the length of `c`, and its close is present. The kept indices are in strictly increasing order. |
| Api.KeptIndicesPrefix | src/services/api.ts:105 | The indices kept from a shorter prefix of `t` are a prefix of those kept from a longer one. |
| Api.CompactCandles | src/services/api.ts:104-113 | The `forEach` leaves one point per timestamp whose close is present, in order. Each point has that close as its price, the UTC day of its timestamp as its date, and a null `ma20`. If one of those timestamps is out of range, the loop fails with a RangeError. |
| Api.NormalisedOfCompacted | src/services/api.ts:115-125 | Once the compacted points are in place, the reference series is the moving-average pass over them. |
| Api.MapCandlesToDataPoints | src/services/api.ts:99-128 | The push loop followed by the moving-average pass computes exactly the reference series `NormalisedPoints`. A timestamp `toISOString` rejects gives a RangeError. |
| Api.NormalisedPointsEmpty | src/services/api.ts:100 | A status other than `ok`, or an empty timestamp list, gives the empty series. |
| Api.NormalisedPointAt | src/services/api.ts:105-125 | Point `k` comes from the `k`-th present close: its price is that close and its date is the UTC day of its timestamp. Its `ma20` is null exactly for `k < 19`, and from 19 on it is the sum of the last 20 compacted prices divided by 20. There are at most as many points as timestamps. |
| SeriesMath.FillMa20 | src/services/api.ts:117-125 | Positions before 19 are untouched. Each later position gets `ma20` equal to the mean of the 20 prices ending there. On a series with no averages yet, the result is the reference `SeriesWithMa20`. |
| SeriesMath.SumAppend | src/services/api.ts:119-122 | Appending a price adds it to the sum. |
| SeriesMath.SumAtLeast | src/services/api.ts:119-122 | A sum of `n` prices each at least `lo` is at least `n*lo`. |
| SeriesMath.SumAtMost | src/services/api.ts:119-122 | A sum of `n` prices each at most `hi` is at most `n*hi`. |
| SeriesMath.MovingAverageBounds | src/services/api.ts:117-125 | The average from position 19 on lies within any bounds that hold for its window of prices. |
| SeriesMath.MovingAverageSlide | src/services/api.ts:117-125 | Moving the window one step changes the average by the new price minus the dropped one, divided by 20. |
| IsoDate.DateOfTimestamp | src/services/api.ts:109 | The date part fails (RangeError) exactly when `ts * 1000` lies outside ±8.64e15. |
| IsoDate.DateOfTimestampIsUtcDay | src/services/api.ts:109 | For a year in 0..9999, the date of `ts` is a 10-character string that reads back as the calendar date whose day number is `floor(ts / 86400)`. |
| IsoDate.DateOfTimestampLength | src/services/api.ts:109 | Every accepted timestamp gives a date of 10 characters, or 13 for an expanded `±YYYYYY` year. |
| IsoDate.DateOfTimestampExample | src/services/api.ts:109 | 1700000000 is `2023-11-14`. |
| IsoDate.DateOfTimestampBeforeEpoch | src/services/api.ts:109 | -1 is `1969-12-31`: days are floored, not truncated. |
| IsoDate.CivilFromDaysValid | src/services/api.ts:109 | Every day number is a valid Gregorian date. |
| IsoDate.CivilFromDaysRoundTrip | src/services/api.ts:109 | Converting a day number to a date and back gives the same day number. |
| IsoDate.DaysFromCivilRoundTrip | src/services/api.ts:109 | Converting a valid date to its day number and back gives the same date. |
| IsoDate.DaysFromCivilNextDay | src/services/api.ts:109 | The next calendar day has the next day number. |
| IsoDate.SplitCycleDay | src/services/api.ts:109 | A day of a 400-year cycle splits into in-range 100-, 4- and 1-year blocks and a day of the year that add back up to it; day 365 occurs only in the year before a leap year. |
| IsoDate.LeapYearInCycle | src/services/api.ts:109 | Leap years repeat with a period of 400 years. |
| IsoDate.MarchYearStartNext | src/services/api.ts:109 | A year counted from March 1 has 366 days exactly when the February that ends it is a leap February. |
| IsoDate.EpochIsDayZero | src/services/api.ts:109 | Day 0 is 1970-01-01. |
| IsoDate.NextDay | src/services/api.ts:109 | The day after a valid date is a valid date. |
| IsoDate.FormatDateRoundTrip | src/services/api.ts:109 | A 4-digit-year date renders as `YYYY-MM-DD` in 10 characters and parses back to itself. |
| IsoDate.DigitsRoundTrip | src/services/api.ts:109 | Zero-padded digits have the requested width, consist only of digits, and parse back to the number. |
| MockData.RandomSource.Next | src/services/mockData.ts:14 | A call to `Math.random` returns the next draw and advances the stream by one. |
| MockData.Draws | src/services/mockData.ts:14 | The window of `n` draws starting at position `from` has exactly `n` entries. `GenerateMockHistory` proves it takes this window. |
| MockData.Walk | src/services/mockData.ts:9-15 | The walk has one price per draw. |
| MockData.WalkAt | src/services/mockData.ts:14-15 | Each price is `max(previous + (r - 0.48) * startPrice * 0.02, 1)`, and the first step starts from the start price. |
| MockData.WalkPrefix | src/services/mockData.ts:9-15 | The walk over the first `n` draws is the first `n` prices of the full walk. |
| MockData.WalkAtLeastOne | src/services/mockData.ts:15 | Every generated price is at least 1. |
| MockData.GenerateMockHistory | src/services/mockData.ts:3-36 | It takes `days + 1` draws (none for negative `days`). It returns the reference history: point `k` is dated `days - k` days back, priced by the walk, and carries the trailing 20-point mean from position 19 on. |
| MockData.MockHistoryShape | src/services/mockData.ts:9-22 | A history for `days >= 0` has exactly `days + 1` points, and one for negative `days` is empty. Every price is at least 1. |
| MockData.MockHistoryAverageAtLeastOne | src/services/mockData.ts:24-33 | From position 19 on, the generated `ma20` is present and at least 1. |
| MockData.OverwriteLastPrice | src/services/mockData.ts:79-80 | Only the last point's price changes. Its date and its `ma20`, computed before, are kept. |
| MockData.MockMarket.constructor | src/services/mockData.ts:70 | The cache starts empty, and an empty cache is valid. |
| MockData.MockMarket.GetStockData | src/services/mockData.ts:69-87 | An unknown symbol fails with "Stock not found" and changes nothing. A cached symbol returns its cached history whatever `days` is, and takes no draws. A first call generates from 80% of the current price, caches the result under that symbol alone, and sets its last price to the current price. For negative `days` it caches `[]` and fails with a TypeError. The summary copies the mock quote's fields. Every cached non-empty history ends at its stock's current price. |
| MockData.MockMarket.FirstHistory | src/services/mockData.ts:76-80 | The history a first call caches: a generated history of `days + 1` points (none for negative `days`) whose last price is overwritten with the current price. |
| MockData.MockMarket.GetStockDataDefault | src/services/mockData.ts:72-87 | With the default of 365 days, a mock stock always succeeds. It returns the stock with its cached history and adds only that symbol to the cache, keeping every existing entry. A cached symbol changes nothing and takes no draws. A new symbol takes the next 366 draws and caches `FirstHistory` of them, 366 points long. |
| MockData.FourCacheUpdates | src/services/mockData.ts:90-95 | Four successive getStockData calls add their four symbols to the cache and keep every entry that was there before. Each symbol keeps the history its own call cached. |
| MockData.FourFirstCalls | src/services/mockData.ts:90-95 | Four calls for distinct symbols take 366 draws for each symbol not cached at the start and none for the others. Each such symbol ends up with a 366-point history. |
| MockData.MockMarket.GetInitialWatchlist | src/services/mockData.ts:89-96 | Four summaries, for AAPL, GOOGL, MSFT and AMZN in that order, each with the history cached for its symbol. Histories already cached are untouched. Every symbol not cached before gets 366 points, and 366 draws are taken per such symbol: `4 * 366` on an empty cache. |
| MockData.MockStocksListing | src/services/mockData.ts:38-67 | `MOCK_STOCKS` holds exactly AAPL, GOOGL, MSFT and AMZN. Each is listed under its own symbol at a positive price. |
| MockData.InitialSymbolsAreMockStocks | src/services/mockData.ts:38-67 | The four initial symbols are distinct mock stocks, each listed under its own symbol. |
| MockData.NotFoundAsWritten | src/services/mockData.ts:73-74 | As written, the guard fails only for a name that is neither a mock stock nor a property inherited from Object.prototype, so it never rejects a mock stock. |
| MockData.InheritedNamePassesGuard | src/services/mockData.ts:73-74 | As written, the not-found guard lets `"toString"` through although it names no mock stock. |
| Store.FindBySymbol | src/store.ts:11 | The first position whose symbol matches, or none when no entry matches. |
| Store.Store.ActiveStock | src/store.ts:10-12 | The result is absent exactly when the watchlist is empty. Otherwise it is the first entry with the active symbol, or the first entry when no entry has that symbol. |
| Store.Store.constructor | src/store.ts:7-8 | The initial watchlist is the four-entry mock list, each entry with the history cached for its symbol, and the active symbol is `AAPL`. The cache gains the four symbols and keeps its earlier entries. 366 draws are taken for each symbol not cached before, and each such symbol gets a 366-point history. |
| Store.Store.SetWatchlist | src/store.ts:7 | Replaces the watchlist and keeps the active symbol. |
| Store.Store.SetActiveSymbol | src/store.ts:8 | Replaces the active symbol and keeps the watchlist. |
| Store.Store.Stats | src/store.ts:14-42 | The totals are the sums of current prices and of changes, and the count is the length. The relative change is `ValueChangePercent` of the totals. An empty list gives zeros and no top entries. Otherwise the top gainer is the first entry with the largest change percent, and the top loser the first with the smallest. |
| Store.ValueChangePercent | src/store.ts:32 | A zero total gives 0. Otherwise the result is finite unless the prior total `total - change` is zero, where the division by zero gives an infinity. |
| Store.ValueChangePercentZero | src/store.ts:32 | The relative change is 0 exactly when the total or the change is 0. |
| Store.ValueChangePercentOfPrior | src/store.ts:32 | When finite and the total is non-zero, the relative change times the prior total `total - change` is 100 times the change. |
| Store.ValueChangePercentInfinite | src/store.ts:32 | The relative change is infinite exactly when a non-zero total is all change, and then it has the sign of the change. |
| Store.SumOfAppend | src/store.ts:20-22 | Adding an entry adds its value to the total. |
| Store.SumOfRemove | src/store.ts:20-22 | Removing an entry takes its value off the total. |
| Store.SumOfPermutation | src/store.ts:20-22 | The totals do not depend on the order of the watchlist. |
| Store.TopGainerPercentPermutation | src/store.ts:24-26 | Reordering the watchlist can change which entry is the top gainer, but not its change percent. |
| Store.TopLoserPercentPermutation | src/store.ts:27-29 | Reordering the watchlist can change which entry is the top loser, but not its change percent. |
| Store.FirstExtremaUnique | src/store.ts:24-29 | Ties go to the earliest entry, so there is one first maximum and one first minimum. |

## Left out

- Network I/O: the `fetch` calls, `response.json()` and its parse errors, and URL encoding (`URLSearchParams`, `encodeURIComponent`, `Number.prototype.toString`). Requests and responses are values. A status and an already-parsed body are the inputs.
- `fetchCandles` logging through `console.error` before it rethrows. This is output only; the rethrown error is modelled.
- `generateAIAnalysis` in `src/services/api.ts`. It is a foreign generative-AI SDK call whose prompt uses `toFixed` formatting.
- `proxy-server.ts` and every React component, plus `App.tsx` and `StoreContext.tsx`. They are rendering and plumbing. The `loadHistoryForActiveStock`, `isChartLoading` and `apiKey` members the components use are not part of `src/store.ts`.
- Floating point. Prices, sums and means are exact reals, so rounding, `NaN` and `toFixed` are not modelled. The one IEEE effect the statistics can show, `x / 0 = ±Infinity` when the whole total is change, is modelled with `Extended`.
- Fractional or non-finite numbers for `days` and for Unix timestamps. Both are integers in the model.
- The local-time `Date.setDate` arithmetic behind the mock dates. The date of "today minus i days" is the parameter `dateBefore(i)`, and the clock is not modelled. `dateBefore` is total, so the RangeError `toISOString` throws for a date more than about 10^8 days back is not modelled: there the source throws after one draw and caches nothing, while the model caches a history.
- React memoisation and re-rendering. `useState(getInitialWatchlist())` evaluates its argument on every render, but the cache makes the repeated calls return the same histories. The model runs it once, in the constructor.
- Watchlist add, remove, reorder, sort, persistence and span-based resolution choice. The source files implement none of them.
- Aliasing of cached history arrays. `getStockData` hands out the cached array itself. The model hands out its value, so a later in-place change by a caller is not modelled.
- MockData.MockMarket.GetInitialWatchlist: states how many draws the four calls take and how long each new history is, but not which window of draws each new history comes from. Each call's `GetStockDataDefault` contract does state its window.
- MockData.MockMarket.GetStockData: the lookup is membership in the four-entry map, the corrected reading of the guard. The as-written behaviour for inherited object property names is captured only by `NotFoundAsWritten` and `InheritedNamePassesGuard` (see Findings).

## Findings

| source | as written | input that shows it | evidently intended | confidence | as-written member | corrected member |
|---|---|---|---|---|---|---|
| src/services/mockData.ts:73-74 | `MOCK_STOCKS[symbol]` is a plain object lookup, so names inherited from `Object.prototype` are truthy and pass the `!base` guard. The call then returns a summary built from a function rather than throwing "Stock not found". | `getStockData("toString")` | Any symbol that is not one of the four mock stocks fails with "Stock not found". | medium, not executed | MockData.InheritedNamePassesGuard | MockData.MockMarket.GetStockData |
