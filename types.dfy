/** The records of src/types/index.ts. */
module Types {
  import opened Wrappers

  /** One sample of a price series; `ma20` is `null` until twenty samples are available. */
  datatype StockDataPoint = StockDataPoint(date: string, price: real, ma20: Option<real>)

  /** One tracked instrument with its latest quote and its (possibly empty) history. */
  datatype StockSummary = StockSummary(
    symbol: string,
    name: string,
    currentPrice: real,
    changeValue: real,
    changePercent: real,
    history: seq<StockDataPoint>)

  /** A JavaScript number as the model needs it: exact, or the infinity a division by zero yields. */
  datatype Extended = Finite(value: real) | PlusInfinity | MinusInfinity

  /** The aggregate figures derived from the watchlist. */
  datatype WatchlistStats = WatchlistStats(
    totalValue: real,
    valueChange: real,
    valueChangePercent: Extended,
    trackedCount: nat,
    topGainer: Option<StockSummary>,
    topLoser: Option<StockSummary>)
}
