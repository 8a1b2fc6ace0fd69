/** The backtest simulator: replays one signal per bar over the history,
    all-in or flat, and reports capital, profit, Sharpe ratio and drawdown. */
module Simulation {
  import opened Wrappers
  import opened Decimal
  import opened Domain
  import CrossoverStrategy

  /** The five figures a backtest reports. */
  datatype BacktestResult = BacktestResult(
    initialCapital: real,
    finalCapital: real,
    totalPnL: real,
    sharpeRatio: real,
    maxDrawdown: real)

  /** What makes a backtest throw: the strategy's IllegalArgumentException,
      or the ArithmeticException of a BUY at a zero close (cash / 0). */
  datatype BacktestError =
    | InvalidParameter(cause: CrossoverStrategy.ParamError)
    | DivisionByZero(bar: nat)

  /** The replay's running state after some bars. `dailyReturns` holds the daily
      returns fed to the statistics accumulator, in order. */
  datatype Ledger = Ledger(
    cash: real,
    position: real,
    peak: real,
    maxDrawdown: real,
    prevPortfolioValue: real,
    dailyReturns: seq<real>)

  /** The state before the first bar. */
  function Opening(initialCapital: real): Ledger {
    Ledger(initialCapital, 0.0, initialCapital, 0.0, initialCapital, [])
  }

  /** The signal for bar `i`; bars beyond the strategy's list count as HOLD. */
  function SignalFor(signals: seq<TradeSignal>, i: int): TradeSignal {
    if 0 <= i < |signals| then signals[i] else Hold
  }

  /** Portfolio value at a close: cash plus the position marked to market. */
  function Value(l: Ledger, close: real): real {
    l.cash + l.position * close
  }

  /** A BUY that would divide the cash by a zero close. */
  predicate BuyDividesByZero(l: Ledger, signal: TradeSignal, close: real) {
    signal == Buy && l.position == 0.0 && l.cash > 0.0 && close == 0.0
  }

  /** Executes the signal: a BUY while flat with cash converts all of it to
      the asset, a SELL while holding liquidates all of it; everything else,
      including a redundant BUY or SELL, changes nothing. */
  function Trade(l: Ledger, signal: TradeSignal, close: real): Ledger
    requires !BuyDividesByZero(l, signal, close)
  {
    match signal
    case Buy =>
      if l.position == 0.0 && l.cash > 0.0 then l.(position := RoundHalfUp4(l.cash / close), cash := 0.0)
      else l
    case Sell =>
      if l.position > 0.0 then l.(cash := l.position * close, position := 0.0)
      else l
    case Hold => l
  }

  /** The running peak after a bar worth `value`. */
  function NextPeak(peak: real, value: real): real {
    if value > peak then value else peak
  }

  /** The maximum drawdown after a bar worth `value`, given the updated peak;
      nothing is measured while the peak is not positive. */
  function NextMaxDrawdown(maxDrawdown: real, peak: real, value: real): real {
    if peak > 0.0 then
      var drawdown := RoundHalfUp4((peak - value) / peak);
      if drawdown > maxDrawdown then drawdown else maxDrawdown
    else maxDrawdown
  }

  /** The recorded daily returns after a bar worth `value`; a return is
      recorded only when the previous value is positive. */
  function NextReturns(dailyReturns: seq<real>, prevValue: real, value: real): seq<real> {
    if prevValue > 0.0 then dailyReturns + [RoundHalfUp4((value - prevValue) / prevValue)]
    else dailyReturns
  }

  /** The bookkeeping after the trade: new peak, maximum drawdown, the daily
      return, and the new previous value. */
  function Book(l: Ledger, close: real): Ledger {
    var value := Value(l, close);
    var peak := NextPeak(l.peak, value);
    l.(peak := peak,
       maxDrawdown := NextMaxDrawdown(l.maxDrawdown, peak, value),
       dailyReturns := NextReturns(l.dailyReturns, l.prevPortfolioValue, value),
       prevPortfolioValue := value)
  }

  /** The state after the first `n` bars, or the bar whose BUY divides by zero. */
  function Replay(initialCapital: real, data: seq<MarketData>, signals: seq<TradeSignal>, n: int): Result<Ledger, BacktestError>
    requires 0 <= n <= |data|
    decreases n, 0
  {
    if n == 0 then Success(Opening(initialCapital))
    else ReplayBar(initialCapital, data, signals, n - 1)
  }

  /** The state after bar `i`: the signal executed at the bar's close, then
      the bookkeeping. */
  function ReplayBar(initialCapital: real, data: seq<MarketData>, signals: seq<TradeSignal>, i: int): Result<Ledger, BacktestError>
    requires 0 <= i < |data|
    decreases i, 1
  {
    match Replay(initialCapital, data, signals, i)
    case Failure(e) => Failure(e)
    case Success(l) =>
      var signal, close := SignalFor(signals, i), data[i].close;
      if BuyDividesByZero(l, signal, close) then Failure(DivisionByZero(i))
      else Success(Book(Trade(l, signal, close), close))
  }

  /** Once a bar has thrown, the whole replay throws the same error. */
  lemma {:induction false} ReplayFailurePersists(initialCapital: real, data: seq<MarketData>, signals: seq<TradeSignal>, k: int, n: int)
    requires 0 <= k <= n <= |data|
    requires Replay(initialCapital, data, signals, k).Failure?
    ensures Replay(initialCapital, data, signals, n) == Replay(initialCapital, data, signals, k)
  {
    if n > k {
      ReplayFailurePersists(initialCapital, data, signals, k, n - 1);
    }
  }

  /** One bar of the replay, from the state before it. */
  lemma ReplayStep(initialCapital: real, data: seq<MarketData>, signals: seq<TradeSignal>, i: int, l: Ledger)
    requires 0 <= i < |data|
    requires Replay(initialCapital, data, signals, i) == Success(l)
    ensures BuyDividesByZero(l, SignalFor(signals, i), data[i].close) ==>
              Replay(initialCapital, data, signals, i + 1) == Failure(DivisionByZero(i))
    ensures !BuyDividesByZero(l, SignalFor(signals, i), data[i].close) ==>
              Replay(initialCapital, data, signals, i + 1) ==
                Success(Book(Trade(l, SignalFor(signals, i), data[i].close), data[i].close))
  {
  }

  function Sum(xs: seq<real>): real {
    if xs == [] then 0.0 else xs[0] + Sum(xs[1..])
  }

  /** A square is non-negative. */
  lemma SquareNonNegative(d: real)
    ensures d * d >= 0.0
  {
    if d < 0.0 {
      var e := -d;
      assert e * e > 0.0;
      assert e * e == d * d;
    }
  }

  /** The sum of the squared distances of `xs` from `mean`. */
  function SquaredDeviations(xs: seq<real>, mean: real): (r: real)
    ensures r >= 0.0
  {
    if xs == [] then 0.0
    else
      var d := xs[0] - mean;
      SquareNonNegative(d);
      d * d + SquaredDeviations(xs[1..], mean)
  }

  /** getMean: the arithmetic mean, the value whose multiple by the count is the sum. */
  function Mean(xs: seq<real>): (r: real)
    requires |xs| > 0
    ensures r * |xs| as real == Sum(xs)
  {
    Sum(xs) / |xs| as real
  }

  /** The bias-corrected sample variance (the square of getStandardDeviation). */
  function SampleVariance(xs: seq<real>): (r: real)
    requires |xs| >= 2
    ensures r >= 0.0
  {
    SquaredDeviations(xs, Mean(xs)) / (|xs| - 1) as real
  }

  /** computeSharpeRatio: zero with fewer than two returns or no dispersion;
      otherwise `annualisedSharpe(mean, variance)`, the double-precision
      (mean / standard deviation) * sqrt(252), rounded to four digits. */
  function SharpeRatio(dailyReturns: seq<real>, annualisedSharpe: (real, real) -> real): (r: real)
    ensures r != 0.0 ==> |dailyReturns| >= 2 && SampleVariance(dailyReturns) > 0.0
  {
    if |dailyReturns| < 2 then 0.0
    else
      var variance := SampleVariance(dailyReturns);
      if variance == 0.0 then 0.0 else RoundHalfUp4(annualisedSharpe(Mean(dailyReturns), variance))
  }

  /** runBacktest on the signals the strategy returned for `data`. */
  function Backtest(initialCapital: real, data: seq<MarketData>, signals: seq<TradeSignal>,
                    annualisedSharpe: (real, real) -> real): Result<BacktestResult, BacktestError>
  {
    if |data| == 0 then Success(BacktestResult(initialCapital, initialCapital, 0.0, 0.0, 0.0))
    else match Replay(initialCapital, data, signals, |data|)
      case Failure(e) => Failure(e)
      case Success(l) => Success(Summary(initialCapital, l, data[|data| - 1].close, annualisedSharpe))
  }

  /** The reported figures from the final state: capital marked to market at
      the last close, its difference to the initial capital, the Sharpe ratio
      and the maximum drawdown, each at scale 4. */
  function Summary(initialCapital: real, l: Ledger, lastClose: real, annualisedSharpe: (real, real) -> real): BacktestResult {
    var finalCapital := Value(l, lastClose);
    BacktestResult(
      RoundHalfUp4(initialCapital),
      RoundHalfUp4(finalCapital),
      RoundHalfUp4(finalCapital - initialCapital),
      SharpeRatio(l.dailyReturns, annualisedSharpe),
      RoundHalfUp4(l.maxDrawdown))
  }

  /** The switch on the signal in runBacktest's loop (the caller has ruled
      out the BUY that divides by zero). The ghost `before` is the ledger the
      loop stands for, so the postcondition can be stated with `Trade`. */
  method ExecuteSignal(signal: TradeSignal, close: real, cash0: real, position0: real, ghost before: Ledger)
    returns (cash: real, position: real)
    requires before.cash == cash0 && before.position == position0
    requires !BuyDividesByZero(before, signal, close)
    ensures Trade(before, signal, close) == before.(cash := cash, position := position)
  {
    cash, position := cash0, position0;
    match signal {
      case Buy =>
        if position == 0.0 && cash > 0.0 {
          position := RoundHalfUp4(cash / close);
          cash := 0.0;
        }
      case Sell =>
        if position > 0.0 {
          cash := position * close;
          position := 0.0;
        }
      case Hold =>
    }
  }

  /** The bookkeeping in runBacktest's loop after the trade: peak, maximum
      drawdown, the daily return and the previous value. The ghost `traded`
      gathers the loop variables into a ledger, so the postcondition can be
      stated with `Book`. */
  method UpdateMetrics(close: real, cash: real, position: real, peak0: real, maxDrawdown0: real,
                       prevPortfolioValue0: real, dailyReturns0: seq<real>, ghost traded: Ledger)
    returns (peak: real, maxDrawdown: real, prevPortfolioValue: real, dailyReturns: seq<real>)
    requires traded == Ledger(cash, position, peak0, maxDrawdown0, prevPortfolioValue0, dailyReturns0)
    ensures Book(traded, close) == Ledger(cash, position, peak, maxDrawdown, prevPortfolioValue, dailyReturns)
  {
    peak, maxDrawdown, prevPortfolioValue, dailyReturns := peak0, maxDrawdown0, prevPortfolioValue0, dailyReturns0;
    var portfolioValue := cash + position * close;
    assert portfolioValue == Value(traded, close);
    if portfolioValue > peak {
      peak := portfolioValue;
    }
    assert peak == NextPeak(peak0, portfolioValue);
    if peak > 0.0 {
      var drawdown := RoundHalfUp4((peak - portfolioValue) / peak);
      if drawdown > maxDrawdown {
        maxDrawdown := drawdown;
      }
    }
    assert maxDrawdown == NextMaxDrawdown(maxDrawdown0, peak, portfolioValue);
    if prevPortfolioValue > 0.0 {
      var dailyReturn := RoundHalfUp4((portfolioValue - prevPortfolioValue) / prevPortfolioValue);
      dailyReturns := dailyReturns + [dailyReturn];
    }
    assert dailyReturns == NextReturns(dailyReturns0, prevPortfolioValue0, portfolioValue);
    prevPortfolioValue := portfolioValue;
  }

  /** runBacktest, given the list the strategy returned for `data`: the empty
      history short-cut, the replay of every bar, and the figures of the final
      state. */
  method RunBacktest(initialCapital: real, data: seq<MarketData>, signals: seq<TradeSignal>,
                     annualisedSharpe: (real, real) -> real)
    returns (r: Result<BacktestResult, BacktestError>)
    ensures r == Backtest(initialCapital, data, signals, annualisedSharpe)
  {
    if |data| == 0 {
      return Success(BacktestResult(initialCapital, initialCapital, 0.0, 0.0, 0.0));
    }
    var cash := initialCapital;
    var position := 0.0;
    var peak := initialCapital;
    var maxDrawdown := 0.0;
    var prevPortfolioValue := initialCapital;
    var dailyReturns: seq<real> := [];

    var i := 0;
    while i < |data|
      invariant 0 <= i <= |data|
      invariant Replay(initialCapital, data, signals, i) ==
                  Success(Ledger(cash, position, peak, maxDrawdown, prevPortfolioValue, dailyReturns))
    {
      var signal := if i < |signals| then signals[i] else Hold;
      var close := data[i].close;
      ghost var before := Ledger(cash, position, peak, maxDrawdown, prevPortfolioValue, dailyReturns);
      ReplayStep(initialCapital, data, signals, i, before);
      if signal == Buy && position == 0.0 && cash > 0.0 && close == 0.0 {
        // cash.divide(close) throws ArithmeticException
        ReplayFailurePersists(initialCapital, data, signals, i + 1, |data|);
        return Failure(DivisionByZero(i));
      }
      cash, position := ExecuteSignal(signal, close, cash, position, before);
      peak, maxDrawdown, prevPortfolioValue, dailyReturns :=
        UpdateMetrics(close, cash, position, peak, maxDrawdown, prevPortfolioValue, dailyReturns,
                      before.(cash := cash, position := position));
      i := i + 1;
    }

    ghost var final := Ledger(cash, position, peak, maxDrawdown, prevPortfolioValue, dailyReturns);
    var result := Report(initialCapital, cash, position, maxDrawdown, dailyReturns,
                         data[|data| - 1].close, annualisedSharpe, final);
    return Success(result);
  }

  /** The end of runBacktest: the final capital marked to market at the last
      close, the profit, the Sharpe ratio and the drawdown, at scale 4. The
      ghost `final` is the ledger the loop ended with, so the postcondition
      can be stated with `Summary`. */
  method Report(initialCapital: real, cash: real, position: real, maxDrawdown: real, dailyReturns: seq<real>,
                lastClose: real, annualisedSharpe: (real, real) -> real, ghost final: Ledger)
    returns (result: BacktestResult)
    requires final.cash == cash && final.position == position
    requires final.maxDrawdown == maxDrawdown && final.dailyReturns == dailyReturns
    ensures result == Summary(initialCapital, final, lastClose, annualisedSharpe)
  {
    var finalCapital := cash + position * lastClose;
    var totalPnL := finalCapital - initialCapital;
    var sharpeRatio := SharpeRatio(dailyReturns, annualisedSharpe);
    assert finalCapital == Value(final, lastClose);
    result := BacktestResult(
      RoundHalfUp4(initialCapital),
      RoundHalfUp4(finalCapital),
      RoundHalfUp4(totalPnL),
      sharpeRatio,
      RoundHalfUp4(maxDrawdown));
  }

  /** runBacktest with the moving-average crossover strategy: the strategy is
      consulted only for a non-empty history, and its rejection of the
      parameters is the backtest's failure. */
  function CrossoverBacktest(initialCapital: real, data: seq<MarketData>, parameters: CrossoverStrategy.Parameters,
                             annualisedSharpe: (real, real) -> real): Result<BacktestResult, BacktestError>
  {
    if |data| == 0 then Success(BacktestResult(initialCapital, initialCapital, 0.0, 0.0, 0.0))
    else match CrossoverStrategy.Signals(data, parameters)
      case Failure(e) => Failure(InvalidParameter(e))
      case Success(signals) => Backtest(initialCapital, data, signals, annualisedSharpe)
  }

  /** runBacktest(strategy, initialCapital, data, parameters) for the crossover
      strategy, in the source's order: the empty-history short-cut, one call
      of the strategy, then the replay. */
  method RunCrossoverBacktest(initialCapital: real, data: seq<MarketData>, parameters: CrossoverStrategy.Parameters,
                              annualisedSharpe: (real, real) -> real)
    returns (r: Result<BacktestResult, BacktestError>)
    ensures r == CrossoverBacktest(initialCapital, data, parameters, annualisedSharpe)
    ensures |data| == 0 ==> r == Success(BacktestResult(initialCapital, initialCapital, 0.0, 0.0, 0.0))
    ensures |data| > 0 && CrossoverStrategy.Windows(parameters).Failure? ==>
              r == Failure(InvalidParameter(CrossoverStrategy.Windows(parameters).error))
  {
    if |data| == 0 {
      return Success(BacktestResult(initialCapital, initialCapital, 0.0, 0.0, 0.0));
    }
    var signals := CrossoverStrategy.GenerateSignals(data, parameters);
    if signals.Failure? {
      return Failure(InvalidParameter(signals.error));
    }
    r := RunBacktest(initialCapital, data, signals.value, annualisedSharpe);
  }
}
