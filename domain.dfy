/** The value types shared by the strategy, the simulator and the repository. */
module Domain {

  /** A calendar date, as its day number: consecutive days have consecutive
      numbers, so comparing numbers compares dates as LocalDate.compareTo does. */
  type Date = int

  /** One day's OHLCV bar of one ticker; prices and volume are exact decimals. */
  datatype MarketData = MarketData(
    date: Date,
    ticker: string,
    open: real,
    high: real,
    low: real,
    close: real,
    volume: real)

  /** The decision a strategy takes for one bar. */
  datatype TradeSignal = Buy | Sell | Hold

  /** True when every bar closes at a strictly positive price. */
  predicate PositiveCloses(data: seq<MarketData>) {
    forall i :: 0 <= i < |data| ==> data[i].close > 0.0
  }

  /** True when the bars are in ascending date order (equal dates allowed). */
  predicate SortedByDate(data: seq<MarketData>) {
    forall i, j :: 0 <= i < j < |data| ==> data[i].date <= data[j].date
  }
}
