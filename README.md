# QuantSim core in Dafny

QuantSim backtests trading strategies on daily OHLCV bars. This project models its three
sequential pieces and proves what they guarantee.

- **The moving-average crossover strategy** (`MovingAverageCrossoverStrategy`):
  - It reads `shortWindow` and `longWindow` from a parameter map with `Double.intValue`.
  - It rejects missing, null, non-positive or out-of-order windows.
  - It emits one BUY/SELL/HOLD signal per bar. BUY fires when the short simple moving
    average (rounded to four digits HALF_UP) crosses above the long one, SELL when it
    crosses below.
  - Module `CrossoverStrategy`: the `GenerateSignals` and `ComputeSma` methods keep the
    source's loops and are proved equal to the specification functions `Signals` and `Sma`.
- **The backtest replay** (`SimulationService.runBacktest`):
  - All-in/all-out trading at each bar's close.
  - Running peak, maximum drawdown and daily returns.
  - The final report, rounded to scale 4.
  - Module `Simulation`: the method `RunBacktest` keeps the source's loop and local
    variables. The trade switch (`ExecuteSignal`), the per-bar metrics (`UpdateMetrics`) and
    the report (`Report`) are separate methods. Each is proved equal to a specification
    function (`Backtest`, `Trade`, `Book`, `Summary`) over the ledger datatype `Ledger`.
  - Module `SimulationProperties` proves the properties of those functions.
- **The in-memory market-data table** (`InMemoryMarketDataRepository`):
  - Tickers are keyed case-insensitively.
  - `findByTicker` returns a date-sorted copy of a stored list.
  - Module `Repository`: a class whose `storage` map field is updated by `Save`.
    `FindByTicker` copies the stored list into an array and sorts it in place by insertion.

How the source's constructs are represented:

- `BigDecimal` values are exact `real`s. `RoundingMode.HALF_UP` at scale 4 is
  `Decimal.RoundHalfUp4`: the nearest multiple of 1/10000, ties away from zero.
- A Java `null` is `Option.None`.
- An exception is a `Result.Failure`:
  - `ParamError` is the strategy's `IllegalArgumentException`.
  - `BacktestError.DivisionByZero` is the `ArithmeticException` of a BUY at a zero close.
  - `SaveError` is the repository's `IllegalArgumentException`.
- `LocalDate` is a day number, which orders dates the same way.

## Model

| member | source | states |
|---|---|---|
| Decimal.RoundHalfUp4 | src/main/java/com/quantsim/strategy/MovingAverageCrossoverStrategy.java:89 | every `divide(..., 4, HALF_UP)` and `setScale(4, HALF_UP)`: the value times 10000, rounded to the nearest integer with ties away from zero, divided by 10000; what this guarantees is stated by the lemmas below |
| Decimal.RoundHalfUp4Nearest | src/main/java/com/quantsim/strategy/MovingAverageCrossoverStrategy.java:89 | a HALF_UP division at scale 4 yields a four-digit decimal within half a unit of the exact quotient; an exact tie goes away from zero |
| Decimal.RoundKeepsSign | src/main/java/com/quantsim/analytics/SimulationService.java:51 | rounding never turns a non-negative amount negative, or a non-positive one positive |
| Decimal.RoundMonotone | src/main/java/com/quantsim/strategy/MovingAverageCrossoverStrategy.java:89 | rounding preserves the order of the values it rounds |
| Decimal.RoundAtScale4 | src/main/java/com/quantsim/analytics/SimulationService.java:87-92 | setScale(4, HALF_UP) leaves a value that already has four digits unchanged |
| Decimal.RoundSymmetric | src/main/java/com/quantsim/analytics/SimulationService.java:77 | HALF_UP rounds a negative daily return as the mirror image of the positive one |
| Decimal.RoundTiesAwayFromZero | src/main/java/com/quantsim/analytics/SimulationService.java:77 | half a unit rounds up to a whole unit on both sides of zero |
| Decimal.RoundUnitInterval | src/main/java/com/quantsim/analytics/SimulationService.java:70 | a fraction in [0, 1], such as a drawdown, stays in [0, 1] after rounding |
| CrossoverStrategy.IntValue | src/main/java/com/quantsim/strategy/MovingAverageCrossoverStrategy.java:80 | Double.intValue truncates toward zero and saturates at the int bounds |
| CrossoverStrategy.GetRequiredParam | src/main/java/com/quantsim/strategy/MovingAverageCrossoverStrategy.java:72-81 | succeeds exactly when the map is non-null, holds the key and maps it to a non-null value; the result is that value's intValue; the failure is "missing" for a null map or absent key and "null" for a null value |
| CrossoverStrategy.Windows | src/main/java/com/quantsim/strategy/MovingAverageCrossoverStrategy.java:29-37 | accepted windows satisfy 0 < shortWindow < longWindow |
| CrossoverStrategy.WindowsAccepted | src/main/java/com/quantsim/strategy/MovingAverageCrossoverStrategy.java:29-37 | the windows are accepted exactly when both parameters are present, non-null and truncate to 0 < short < long; the accepted pair is the two truncations |
| CrossoverStrategy.EqualWindowsRejected | src/main/java/com/quantsim/strategy/MovingAverageCrossoverStrategy.java:29-37 | equal windows are rejected, including 5.9 and 5.2 (both truncate to 5); 0.7 truncates to a non-positive window; a missing short window and a null long window are reported |
| CrossoverStrategy.Signals | src/main/java/com/quantsim/strategy/MovingAverageCrossoverStrategy.java:24-37 | an empty history gives no signals without checking the parameters; otherwise generation fails exactly when the windows are rejected, and succeeds with one signal per bar |
| CrossoverStrategy.ComputeSma | src/main/java/com/quantsim/strategy/MovingAverageCrossoverStrategy.java:83-90 | the loop's running sum, divided by the count and rounded, is the simple moving average of the closes in the window |
| CrossoverStrategy.GenerateSignals | src/main/java/com/quantsim/strategy/MovingAverageCrossoverStrategy.java:24-70 | the loop returns exactly the signals (or the parameter error) that `Signals` specifies |
| CrossoverStrategy.SignalRule | src/main/java/com/quantsim/strategy/MovingAverageCrossoverStrategy.java:40-66 | bars 0 to longWindow - 1 are HOLD; afterwards BUY exactly when the short average is above the long one now and was not above before, SELL in the mirror case, HOLD otherwise |
| CrossoverStrategy.SignalAtIsCausal | src/main/java/com/quantsim/strategy/MovingAverageCrossoverStrategy.java:40-66 | the signal of a bar depends only on the closes up to that bar |
| CrossoverStrategy.SignalsOfExtension | src/main/java/com/quantsim/strategy/MovingAverageCrossoverStrategy.java:39-68 | appending bars to the history leaves the signals of the earlier bars unchanged |
| CrossoverStrategy.NoRepeatedCrossing | src/main/java/com/quantsim/strategy/MovingAverageCrossoverStrategy.java:56-57 | in the list generateSignals returns, two consecutive bars never both signal BUY, nor both SELL |
| CrossoverStrategy.ExampleAverages | src/main/java/com/quantsim/strategy/MovingAverageCrossoverStrategy.java:83-90 | the 2- and 4-bar averages of an eight-bar example history |
| CrossoverStrategy.WorkedExample | src/main/java/com/quantsim/strategy/MovingAverageCrossoverStrategy.java:24-70 | the signals of the eight-bar example with windows 2 and 4: a single BUY at bar 4, where the short average first rises above the long one, and HOLD on every other bar |
| Simulation.ReplayFailurePersists | src/main/java/com/quantsim/analytics/SimulationService.java:43-81 | once a bar throws, the whole backtest ends with that error |
| Simulation.ExecuteSignal | src/main/java/com/quantsim/analytics/SimulationService.java:48-62 | the switch converts all cash into a rounded quantity on a BUY while flat with cash, liquidates on a SELL while holding, and otherwise changes nothing (`Trade`) |
| Simulation.UpdateMetrics | src/main/java/com/quantsim/analytics/SimulationService.java:64-80 | the metrics update raises the peak to the portfolio value, keeps the largest rounded drawdown, records a rounded return when the previous value is positive and moves the previous value on (`Book`) |
| Simulation.RunBacktest | src/main/java/com/quantsim/analytics/SimulationService.java:27-92 | the loop returns exactly `Backtest`: the unrounded initial capital and zeros for an empty history, the division-by-zero bar, or the summary of the replayed ledger |
| Simulation.Report | src/main/java/com/quantsim/analytics/SimulationService.java:83-92 | the final capital marks the position to the last close; profit, Sharpe ratio and drawdown are reported at scale 4 (`Summary`) |
| Simulation.RunCrossoverBacktest | src/main/java/com/quantsim/analytics/SimulationService.java:25-33 | an empty history succeeds with the initial capital and zeros; rejected windows on a non-empty history fail with the strategy's error; otherwise the backtest runs on the crossover signals |
| Simulation.SquaredDeviations | src/main/java/com/quantsim/analytics/SimulationService.java:100 | the sum of squared distances from the mean, behind getStandardDeviation, is never negative |
| Simulation.Mean | src/main/java/com/quantsim/analytics/SimulationService.java:99 | getMean: the mean times the number of returns is their sum |
| Simulation.SampleVariance | src/main/java/com/quantsim/analytics/SimulationService.java:100 | the bias-corrected sample variance, the square of getStandardDeviation, is never negative |
| Simulation.SharpeRatio | src/main/java/com/quantsim/analytics/SimulationService.java:95-106 | computeSharpeRatio is non-zero only with at least two returns and a positive sample variance; otherwise it is 0 |
| SimulationProperties.DrawdownFraction | src/main/java/com/quantsim/analytics/SimulationService.java:69-70 | a drawdown below a positive peak is in [0, 1] after rounding |
| SimulationProperties.TradeKeepsSound | src/main/java/com/quantsim/analytics/SimulationService.java:48-62 | at a positive close a trade cannot divide by zero and keeps cash and position non-negative with at most one of them non-zero |
| SimulationProperties.BarKeepsSound | src/main/java/com/quantsim/analytics/SimulationService.java:48-80 | one bar at a positive close preserves the ledger invariants: all-in or flat, peak at least the initial capital and the last value, drawdown in [0, 1] |
| SimulationProperties.ReplaySafety | src/main/java/com/quantsim/analytics/SimulationService.java:43-81 | with non-negative capital and positive closes the replay never throws and every state satisfies the invariants |
| SimulationProperties.BookGrows | src/main/java/com/quantsim/analytics/SimulationService.java:64-80 | the metrics never lower the peak or the maximum drawdown, the peak covers the bar's value, and exactly one return (of the stated value) is appended when the previous value is positive |
| SimulationProperties.LastBar | src/main/java/com/quantsim/analytics/SimulationService.java:43-81 | a replay that succeeds succeeded one bar earlier and executed its last bar without dividing by zero |
| SimulationProperties.ReplayMonotone | src/main/java/com/quantsim/analytics/SimulationService.java:64-80 | along the replay the peak and maximum drawdown never decrease, the peak covers every earlier portfolio value, and earlier returns are a prefix of later ones |
| SimulationProperties.ReplayFailsOnlyOnZeroClose | src/main/java/com/quantsim/analytics/SimulationService.java:49-53 | the only failure is a BUY at a zero close while flat with positive cash, at a bar before the end, after a successful replay up to that bar |
| SimulationProperties.ReturnsAtMostOnePerBar | src/main/java/com/quantsim/analytics/SimulationService.java:76-79 | n bars record at most n daily returns |
| SimulationProperties.SingleBarSharpeZero | src/main/java/com/quantsim/analytics/SimulationService.java:95-98 | a one-bar backtest reports a Sharpe ratio of 0 (fewer than two returns) |
| SimulationProperties.ConstantReturnsSharpeZero | src/main/java/com/quantsim/analytics/SimulationService.java:99-103 | returns that are all equal have zero standard deviation, so the Sharpe ratio is 0 |
| SimulationProperties.FlatReplay | src/main/java/com/quantsim/analytics/SimulationService.java:43-81 | with only HOLD signals every state keeps the capital in cash with no position, peak and previous value equal to it, and records a zero return per bar when the capital is positive |
| SimulationProperties.FlatStrategyKeepsCapital | src/main/java/com/quantsim/analytics/SimulationService.java:25-92 | a never-trading strategy succeeds with final capital equal to the initial capital, and zero profit, Sharpe ratio and drawdown |
| SimulationProperties.QuantityValueBounds | src/main/java/com/quantsim/analytics/SimulationService.java:51 | buying the rounded quantity costs the cash up to half a unit of quantity at the close |
| SimulationProperties.TradeConservesValue | src/main/java/com/quantsim/analytics/SimulationService.java:48-64 | a SELL, a HOLD or an ignored signal leaves the portfolio value unchanged; an executed BUY changes it by at most half a unit of quantity at the close (the bound is reached) |
| SimulationProperties.SummaryBounds | src/main/java/com/quantsim/analytics/SimulationService.java:83-92 | from a sound final state at a positive close, the reported capitals are non-negative and the drawdown is in [0, 1] |
| SimulationProperties.BacktestBounds | src/main/java/com/quantsim/analytics/SimulationService.java:25-92 | with non-negative capital and positive closes a backtest succeeds with non-negative capitals and a drawdown in [0, 1] |
| SimulationProperties.ExampleBuy | src/main/java/com/quantsim/analytics/SimulationService.java:48-80 | a BUY at 10 with 100 cash gives 10 units, a peak of 100, no drawdown and a first return of 0 |
| SimulationProperties.ExampleBuyAtTwenty | src/main/java/com/quantsim/analytics/SimulationService.java:49-53 | a BUY of 1000 at a close of 20 takes 50 units and leaves no cash |
| SimulationProperties.ExampleRise | src/main/java/com/quantsim/analytics/SimulationService.java:64-80 | holding 10 units through a close of 20 raises peak and value to 200 and records a return of 1 |
| SimulationProperties.ExampleSell | src/main/java/com/quantsim/analytics/SimulationService.java:48-80 | selling 10 units at 5 leaves 50 cash, a drawdown of 0.75 from the peak of 200 and a return of -0.75 |
| Repository.IsWhitespace | src/main/java/com/quantsim/repository/InMemoryMarketDataRepository.java:25 | Character.isWhitespace, which String.isBlank applies: the Unicode space, line and paragraph separators except the no-break spaces, tab to carriage return, and U+001C to U+001F |
| Repository.IsBlank | src/main/java/com/quantsim/repository/InMemoryMarketDataRepository.java:25 | String.isBlank: the ticker is empty or consists of whitespace only |
| Repository.BlankTickers | src/main/java/com/quantsim/repository/InMemoryMarketDataRepository.java:25 | the empty string and strings of spaces, tabs, newlines or ideographic spaces are blank; a ticker with a letter, or one made of a no-break space, is not |
| Repository.ToUpper | src/main/java/com/quantsim/repository/InMemoryMarketDataRepository.java:28 | the storage key has the ticker's length and the upper case of each of its characters |
| Repository.UpperKeepsBlank | src/main/java/com/quantsim/repository/InMemoryMarketDataRepository.java:25-28 | a ticker is blank exactly when its upper-cased key is blank |
| Repository.ToUpperIdempotent | src/main/java/com/quantsim/repository/InMemoryMarketDataRepository.java:45 | upper-casing a key that is already upper-cased changes nothing |
| Repository.Key | src/main/java/com/quantsim/repository/InMemoryMarketDataRepository.java:25-28 | a ticker has a storage key exactly when it is non-null and not blank; the key is not blank and is its own upper case |
| Repository.Find | src/main/java/com/quantsim/repository/InMemoryMarketDataRepository.java:25-31 | a lookup finds a list exactly when the ticker has a key that is stored with a non-empty list, and then it is that list |
| Repository.CaseInsensitiveFind | src/main/java/com/quantsim/repository/InMemoryMarketDataRepository.java:24-31 | two tickers that differ only in letter case find the same list |
| Repository.FindByUpperCase | src/main/java/com/quantsim/repository/InMemoryMarketDataRepository.java:24-31 | looking up a ticker's upper-cased form finds what the ticker finds |
| Repository.FindAfterSave | src/main/java/com/quantsim/repository/InMemoryMarketDataRepository.java:45 | after a save, lookups under the same key find the saved list (absent if it is empty), and every other lookup finds what it found before |
| Repository.SortByDate | src/main/java/com/quantsim/repository/InMemoryMarketDataRepository.java:32-33 | the in-place sort leaves the bars in ascending date order, a permutation of the original, and stable: the bars of each date stay in their original order |
| Repository.InMemoryMarketDataRepository.constructor | src/main/java/com/quantsim/repository/InMemoryMarketDataRepository.java:21 | the table starts empty |
| Repository.InMemoryMarketDataRepository.Save | src/main/java/com/quantsim/repository/InMemoryMarketDataRepository.java:37-46 | a null or blank ticker and null data are refused with storage unchanged; otherwise only the upper-cased ticker's entry is replaced by the data |
| Repository.InMemoryMarketDataRepository.FindByTicker | src/main/java/com/quantsim/repository/InMemoryMarketDataRepository.java:24-35 | absent exactly for a null or blank ticker, an unknown key or an empty list; otherwise the stored list sorted by date, stably (the bars of each date keep their stored order); storage is unchanged |
| Repository.InMemoryMarketDataRepository.ExistsByTicker | src/main/java/com/quantsim/repository/InMemoryMarketDataRepository.java:48-55 | true exactly when a lookup of the ticker finds a list, that is, when `FindByTicker` returns one |

## Left out

- SharpeRatio: the double-precision step `(mean / std) * sqrt(252)` is a function parameter
  `annualisedSharpe(mean, variance)`. Only the two zero cases of `computeSharpeRatio`, the
  choice of mean and sample variance, and the final rounding are modelled. Floating-point
  rounding of `doubleValue` and of the statistics accumulator is not modelled.
- NaN and infinite `Double` parameters are not modelled. `IntValue` covers finite values only.
- BigDecimal scale is not tracked, only values: `1.50` and `1.5` are the same `real`. The
  empty-history result keeps the initial capital unrounded, as the source does.
- Repository.ToUpper: does not model locale-sensitive or non-Latin case mapping. Only
  `a`..`z` are upper-cased, so mappings that change length, such as `ß` to `SS`, are
  absent. `IsWhitespace` follows `Character.isWhitespace` on code points.
- The thread-safety of `ConcurrentHashMap` is not modelled. The table is a sequential
  `map` field.
- A null bar list passed to the strategy or the simulator is the empty sequence. The
  unmodifiable-list wrapper returned by `findByTicker` is not modelled.
- A SELL sets the cash to the sale proceeds and does not add them to the cash. Under the
  all-in invariant the cash is zero whenever a position is held (`TradeKeepsSound`), so
  this loses nothing.
- The `TradingStrategy` interface and `StrategyRegistry` are not part of this model. Only
  the crossover strategy is modelled. `RunBacktest` takes any signal list, so it covers
  every strategy.
- Not part of this model:
  - `CsvDataLoaderService` (CSV parsing and file I/O).
  - The HTTP controller, request binding, validation and exception mapping.
  - `QuantSimApplication`.
  - `historical_data.py`.
  - The getters, setters, `equals` and `hashCode` of `MarketData`.
