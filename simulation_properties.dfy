/** What the replay of runBacktest guarantees: its state invariants, the
    monotone peak and drawdown, where it can throw, and what a flat strategy
    and a single bar report. */
module SimulationProperties {
  import opened Wrappers
  import opened Decimal
  import opened Domain
  import opened Simulation

  /** The invariants of the replay state when the initial capital is not
      negative and every close is positive: no debt, no short position,
      all-in or flat, the peak covers the capital and the last value, and
      the drawdown is a fraction. */
  predicate Sound(initialCapital: real, l: Ledger) {
    && l.cash >= 0.0
    && l.position >= 0.0
    && (l.cash == 0.0 || l.position == 0.0)
    && l.peak >= initialCapital
    && l.peak >= l.prevPortfolioValue >= 0.0
    && 0.0 <= l.maxDrawdown <= 1.0
  }

  lemma DrawdownFraction(peak: real, value: real)
    requires 0.0 <= value <= peak && peak > 0.0
    ensures 0.0 <= RoundHalfUp4((peak - value) / peak) <= 1.0
  {
    assert (peak - value) / peak <= peak / peak;
    RoundUnitInterval((peak - value) / peak);
  }

  /** A trade at a positive close keeps the cash and the position
      non-negative and one of them zero. */
  lemma TradeKeepsSound(l: Ledger, signal: TradeSignal, close: real)
    requires l.cash >= 0.0 && l.position >= 0.0 && (l.cash == 0.0 || l.position == 0.0) && close > 0.0
    ensures !BuyDividesByZero(l, signal, close)
    ensures var t := Trade(l, signal, close);
            t.cash >= 0.0 && t.position >= 0.0 && (t.cash == 0.0 || t.position == 0.0) && Value(t, close) >= 0.0
  {
    var t := Trade(l, signal, close);
    if signal == Buy && l.position == 0.0 && l.cash > 0.0 {
      RoundKeepsSign(l.cash / close);
      assert t == l.(position := RoundHalfUp4(l.cash / close), cash := 0.0);
    } else if signal == Sell && l.position > 0.0 {
      assert t == l.(cash := l.position * close, position := 0.0);
    } else {
      assert t == l;
    }
    assert t.position * close >= 0.0;
  }

  /** One bar at a positive close keeps the invariants (and cannot throw). */
  lemma BarKeepsSound(initialCapital: real, l: Ledger, signal: TradeSignal, close: real)
    requires Sound(initialCapital, l) && close > 0.0
    ensures !BuyDividesByZero(l, signal, close)
    ensures Sound(initialCapital, Book(Trade(l, signal, close), close))
  {
    TradeKeepsSound(l, signal, close);
    var t := Trade(l, signal, close);
    var value := Value(t, close);
    var peak := NextPeak(l.peak, value);
    if peak > 0.0 {
      DrawdownFraction(peak, value);
    }
  }

  /** With a non-negative initial capital and positive closes the replay never
      throws, and after every bar the cash and the position are not negative,
      one of them is zero, the peak is at least the initial capital and the
      last value, and the maximum drawdown lies in [0, 1]. */
  lemma {:induction false} ReplaySafety(initialCapital: real, data: seq<MarketData>, signals: seq<TradeSignal>, n: int)
    requires initialCapital >= 0.0 && PositiveCloses(data) && 0 <= n <= |data|
    ensures Replay(initialCapital, data, signals, n).Success?
    ensures Sound(initialCapital, Replay(initialCapital, data, signals, n).value)
  {
    if n > 0 {
      ReplaySafety(initialCapital, data, signals, n - 1);
      var l := Replay(initialCapital, data, signals, n - 1).value;
      BarKeepsSound(initialCapital, l, SignalFor(signals, n - 1), data[n - 1].close);
      ReplayStep(initialCapital, data, signals, n - 1, l);
    }
  }

  /** The bookkeeping of one bar never lowers the peak or the maximum drawdown,
      lifts the peak to the bar's value, keeps the recorded returns and adds
      one exactly when the previous value is positive. */
  lemma BookGrows(l: Ledger, close: real)
    ensures var b := Book(l, close);
            && l.peak <= b.peak
            && b.prevPortfolioValue == Value(l, close) <= b.peak
            && l.maxDrawdown <= b.maxDrawdown
            && l.dailyReturns <= b.dailyReturns
            && (|b.dailyReturns| == |l.dailyReturns| + 1 <==> l.prevPortfolioValue > 0.0)
            && (l.prevPortfolioValue > 0.0 ==>
                  b.dailyReturns[|l.dailyReturns|] ==
                    RoundHalfUp4((Value(l, close) - l.prevPortfolioValue) / l.prevPortfolioValue))
  {
    var b := Book(l, close);
    assert b.dailyReturns == NextReturns(l.dailyReturns, l.prevPortfolioValue, Value(l, close));
  }

  /** The bar that throws is followed by no state: a replay that succeeds
      succeeded on every prefix, and its last bar was executed. */
  lemma LastBar(initialCapital: real, data: seq<MarketData>, signals: seq<TradeSignal>, n: int)
    requires 0 < n <= |data| && Replay(initialCapital, data, signals, n).Success?
    ensures Replay(initialCapital, data, signals, n - 1).Success?
    ensures var l := Replay(initialCapital, data, signals, n - 1).value;
            var signal, close := SignalFor(signals, n - 1), data[n - 1].close;
            && !BuyDividesByZero(l, signal, close)
            && Replay(initialCapital, data, signals, n).value == Book(Trade(l, signal, close), close)
  {
    if Replay(initialCapital, data, signals, n - 1).Failure? {
      ReplayFailurePersists(initialCapital, data, signals, n - 1, n);
    }
    ReplayStep(initialCapital, data, signals, n - 1, Replay(initialCapital, data, signals, n - 1).value);
  }

  /** Along a replay the peak and the maximum drawdown never decrease, the
      recorded returns only grow at the end, and the peak is at least every
      portfolio value seen so far (the value before the first bar is the
      initial capital). */
  lemma {:induction false} ReplayMonotone(initialCapital: real, data: seq<MarketData>, signals: seq<TradeSignal>, k: int, n: int)
    requires 0 <= k <= n <= |data|
    requires Replay(initialCapital, data, signals, n).Success?
    ensures Replay(initialCapital, data, signals, k).Success?
    ensures var a, b := Replay(initialCapital, data, signals, k).value, Replay(initialCapital, data, signals, n).value;
            && a.peak <= b.peak
            && a.prevPortfolioValue <= b.peak
            && a.maxDrawdown <= b.maxDrawdown
            && a.dailyReturns <= b.dailyReturns
  {
    if n > 0 {
      LastBar(initialCapital, data, signals, n);
      var l := Replay(initialCapital, data, signals, n - 1).value;
      var t := Trade(l, SignalFor(signals, n - 1), data[n - 1].close);
      BookGrows(t, data[n - 1].close);
      if k < n {
        ReplayMonotone(initialCapital, data, signals, k, n - 1);
        var a := Replay(initialCapital, data, signals, k).value;
        var b := Replay(initialCapital, data, signals, n).value;
        assert a.dailyReturns <= l.dailyReturns <= b.dailyReturns;
        assert a.dailyReturns == b.dailyReturns[..|a.dailyReturns|];
      }
    }
  }

  /** The replay throws only at a BUY on a zero close while flat with cash;
      the error names that bar, and the replay up to it succeeded. */
  lemma {:induction false} ReplayFailsOnlyOnZeroClose(initialCapital: real, data: seq<MarketData>, signals: seq<TradeSignal>, n: int)
    requires 0 <= n <= |data| && Replay(initialCapital, data, signals, n).Failure?
    ensures Replay(initialCapital, data, signals, n).error.DivisionByZero?
    ensures var i := Replay(initialCapital, data, signals, n).error.bar;
            && i < n
            && data[i].close == 0.0
            && SignalFor(signals, i) == Buy
            && Replay(initialCapital, data, signals, i).Success?
            && Replay(initialCapital, data, signals, i).value.position == 0.0
            && Replay(initialCapital, data, signals, i).value.cash > 0.0
  {
    if Replay(initialCapital, data, signals, n - 1).Failure? {
      ReplayFailsOnlyOnZeroClose(initialCapital, data, signals, n - 1);
      ReplayFailurePersists(initialCapital, data, signals, n - 1, n);
    }
  }

  /** Each bar records at most one daily return. */
  lemma {:induction false} ReturnsAtMostOnePerBar(initialCapital: real, data: seq<MarketData>, signals: seq<TradeSignal>, n: int)
    requires 0 <= n <= |data| && Replay(initialCapital, data, signals, n).Success?
    ensures |Replay(initialCapital, data, signals, n).value.dailyReturns| <= n
  {
    if n > 0 {
      LastBar(initialCapital, data, signals, n);
      ReturnsAtMostOnePerBar(initialCapital, data, signals, n - 1);
      var l := Replay(initialCapital, data, signals, n - 1).value;
      BookGrows(Trade(l, SignalFor(signals, n - 1), data[n - 1].close), data[n - 1].close);
    }
  }

  /** A single bar records at most one return, so its Sharpe ratio is zero. */
  lemma SingleBarSharpeZero(initialCapital: real, data: seq<MarketData>, signals: seq<TradeSignal>,
                            annualisedSharpe: (real, real) -> real)
    requires |data| == 1 && Backtest(initialCapital, data, signals, annualisedSharpe).Success?
    ensures Backtest(initialCapital, data, signals, annualisedSharpe).value.sharpeRatio == 0.0
  {
    ReturnsAtMostOnePerBar(initialCapital, data, signals, 1);
  }

  lemma {:induction false} SumOfConstant(xs: seq<real>, c: real)
    requires forall i :: 0 <= i < |xs| ==> xs[i] == c
    ensures Sum(xs) == |xs| as real * c
  {
    if xs != [] {
      SumOfConstant(xs[1..], c);
    }
  }

  lemma {:induction false} DeviationsOfConstant(xs: seq<real>, c: real)
    requires forall i :: 0 <= i < |xs| ==> xs[i] == c
    ensures SquaredDeviations(xs, c) == 0.0
  {
    if xs != [] {
      DeviationsOfConstant(xs[1..], c);
    }
  }

  /** Returns without dispersion have zero sample variance, so the Sharpe
      ratio is zero whatever the annualisation. */
  lemma ConstantReturnsSharpeZero(xs: seq<real>, c: real, annualisedSharpe: (real, real) -> real)
    requires forall i :: 0 <= i < |xs| ==> xs[i] == c
    ensures SharpeRatio(xs, annualisedSharpe) == 0.0
  {
    if |xs| >= 2 {
      SumOfConstant(xs, c);
      assert Mean(xs) == c;
      DeviationsOfConstant(xs, c);
    }
  }

  /** A strategy that never trades. */
  predicate AllHold(signals: seq<TradeSignal>) {
    forall i :: 0 <= i < |signals| ==> signals[i] == Hold
  }

  /** The state after `n` bars of never trading: the capital stays in cash,
      and a zero return is recorded per bar when the capital is positive. */
  predicate Flat(initialCapital: real, n: nat, l: Ledger) {
    && l.cash == initialCapital
    && l.position == 0.0
    && l.peak == initialCapital
    && l.maxDrawdown == 0.0
    && l.prevPortfolioValue == initialCapital
    && |l.dailyReturns| == (if initialCapital > 0.0 then n else 0)
    && forall i :: 0 <= i < |l.dailyReturns| ==> l.dailyReturns[i] == 0.0
  }

  lemma {:induction false} FlatReplay(initialCapital: real, data: seq<MarketData>, signals: seq<TradeSignal>, n: int)
    requires AllHold(signals) && 0 <= n <= |data|
    ensures Replay(initialCapital, data, signals, n).Success?
    ensures Flat(initialCapital, n, Replay(initialCapital, data, signals, n).value)
  {
    if n > 0 {
      FlatReplay(initialCapital, data, signals, n - 1);
      var l := Replay(initialCapital, data, signals, n - 1).value;
      var close := data[n - 1].close;
      ReplayStep(initialCapital, data, signals, n - 1, l);
      assert Trade(l, SignalFor(signals, n - 1), close) == l;
      assert Value(l, close) == initialCapital;
      if initialCapital > 0.0 {
        assert (initialCapital - initialCapital) / initialCapital == 0.0;
      }
    }
  }

  /** With all-HOLD signals nothing is ever bought: the final capital equals
      the initial capital, and the profit, the Sharpe ratio and the drawdown
      are zero. */
  lemma FlatStrategyKeepsCapital(initialCapital: real, data: seq<MarketData>, signals: seq<TradeSignal>,
                                 annualisedSharpe: (real, real) -> real)
    requires AllHold(signals)
    ensures Backtest(initialCapital, data, signals, annualisedSharpe).Success?
    ensures var r := Backtest(initialCapital, data, signals, annualisedSharpe).value;
            && r.finalCapital == r.initialCapital
            && r.totalPnL == 0.0
            && r.sharpeRatio == 0.0
            && r.maxDrawdown == 0.0
  {
    if |data| > 0 {
      FlatReplay(initialCapital, data, signals, |data|);
      var l := Replay(initialCapital, data, signals, |data|).value;
      assert Value(l, data[|data| - 1].close) == initialCapital;
      ConstantReturnsSharpeZero(l.dailyReturns, 0.0, annualisedSharpe);
    }
  }

  /** Buying a quantity rounded from `x` at `close` costs `x * close` up to
      half a unit of quantity. */
  lemma QuantityValueBounds(x: real, close: real)
    requires x >= 0.0 && close > 0.0
    ensures x * close - HalfUnit * close < RoundHalfUp4(x) * close <= x * close + HalfUnit * close
  {
    RoundHalfUp4Nearest(x);
    var q := RoundHalfUp4(x);
    var d := q - x;
    assert -HalfUnit < d <= HalfUnit;
    assert q * close == x * close + d * close;
    assert -HalfUnit * close < d * close <= HalfUnit * close;
  }

  /** A trade changes the portfolio value at the close only by the rounding
      of the BUY's quantity: a SELL, a HOLD and an ignored signal keep it,
      and an executed BUY moves it by at most half a unit of quantity. (The
      SELL keeps it because the cash is zero while a position is held.) */
  lemma TradeConservesValue(l: Ledger, signal: TradeSignal, close: real)
    requires close >= 0.0 && !BuyDividesByZero(l, signal, close)
    requires l.cash == 0.0 || l.position == 0.0
    ensures !(signal == Buy && l.position == 0.0 && l.cash > 0.0) ==>
              Value(Trade(l, signal, close), close) == Value(l, close)
    ensures signal == Buy && l.position == 0.0 && l.cash > 0.0 ==>
              Value(l, close) - HalfUnit * close < Value(Trade(l, signal, close), close) <= Value(l, close) + HalfUnit * close
  {
    var t := Trade(l, signal, close);
    if signal == Buy && l.position == 0.0 && l.cash > 0.0 {
      assert close > 0.0;
      var x := l.cash / close;
      assert x > 0.0 && x * close == l.cash;
      var q := RoundHalfUp4(x);
      assert t == l.(position := q, cash := 0.0);
      QuantityValueBounds(x, close);
      assert Value(l, close) == l.cash;
      assert Value(t, close) == q * close;
    } else if signal == Sell && l.position > 0.0 {
      assert t == l.(cash := l.position * close, position := 0.0);
      assert Value(l, close) == l.position * close;
    } else {
      assert t == l;
    }
  }

  /** The figures of a sound final state at a positive last close. */
  lemma SummaryBounds(initialCapital: real, l: Ledger, lastClose: real, annualisedSharpe: (real, real) -> real)
    requires initialCapital >= 0.0 && Sound(initialCapital, l) && lastClose > 0.0
    ensures var r := Summary(initialCapital, l, lastClose, annualisedSharpe);
            && r.initialCapital >= 0.0
            && r.finalCapital >= 0.0
            && 0.0 <= r.maxDrawdown <= 1.0
  {
    assert l.position * lastClose >= 0.0;
    RoundKeepsSign(initialCapital);
    RoundKeepsSign(Value(l, lastClose));
    RoundUnitInterval(l.maxDrawdown);
  }

  /** With a non-negative initial capital and positive closes a backtest
      succeeds with a non-negative final capital and a maximum drawdown in
      [0, 1]. */
  lemma BacktestBounds(initialCapital: real, data: seq<MarketData>, signals: seq<TradeSignal>,
                       annualisedSharpe: (real, real) -> real)
    requires initialCapital >= 0.0 && PositiveCloses(data)
    ensures Backtest(initialCapital, data, signals, annualisedSharpe).Success?
    ensures var r := Backtest(initialCapital, data, signals, annualisedSharpe).value;
            && r.initialCapital >= 0.0
            && r.finalCapital >= 0.0
            && 0.0 <= r.maxDrawdown <= 1.0
  {
    if |data| > 0 {
      ReplaySafety(initialCapital, data, signals, |data|);
      var l := Replay(initialCapital, data, signals, |data|).value;
      SummaryBounds(initialCapital, l, data[|data| - 1].close, annualisedSharpe);
    }
  }

  // A round trip with an initial capital of 100: buy at 10, hold through
  // 20, sell at 5. Each lemma below is one bar of the replay, from the state
  // the previous one leaves.

  /** The BUY at 10 converts the 100 into 10 units; the value is unchanged,
      so the first return is 0. */
  lemma ExampleBuy()
    ensures Book(Trade(Opening(100.0), Buy, 10.0), 10.0) == Ledger(0.0, 10.0, 100.0, 0.0, 100.0, [0.0])
  {
    RoundAtScale4(10.0);
    assert 100.0 / 10.0 == 10.0;
    var t := Ledger(0.0, 10.0, 100.0, 0.0, 100.0, []);
    assert Trade(Opening(100.0), Buy, 10.0) == t;
    assert Value(t, 10.0) == 100.0;
    RoundAtScale4(0.0);
    assert NextMaxDrawdown(0.0, 100.0, 100.0) == 0.0;
    assert NextReturns([], 100.0, 100.0) == [0.0];
  }

  /** Holding through 20 doubles the value: the peak follows it and the
      return is 1. */
  lemma ExampleRise()
    ensures var l1 := Ledger(0.0, 10.0, 100.0, 0.0, 100.0, [0.0]);
            Book(Trade(l1, Hold, 20.0), 20.0) == Ledger(0.0, 10.0, 200.0, 0.0, 200.0, [0.0, 1.0])
  {
    var l1 := Ledger(0.0, 10.0, 100.0, 0.0, 100.0, [0.0]);
    assert Value(l1, 20.0) == 200.0;
    RoundAtScale4(0.0);
    assert NextMaxDrawdown(0.0, 200.0, 200.0) == 0.0;
    RoundAtScale4(1.0);
    assert NextReturns([0.0], 100.0, 200.0) == [0.0, 1.0];
  }

  /** Selling at 5 liquidates the 10 units into 50: the drawdown from the
      peak of 200 is 0.75, and so is the loss of the day. */
  lemma ExampleSell()
    ensures var l2 := Ledger(0.0, 10.0, 200.0, 0.0, 200.0, [0.0, 1.0]);
            Book(Trade(l2, Sell, 5.0), 5.0) == Ledger(50.0, 0.0, 200.0, 0.75, 50.0, [0.0, 1.0, -0.75])
  {
    var t := Ledger(50.0, 0.0, 200.0, 0.0, 200.0, [0.0, 1.0]);
    assert Trade(Ledger(0.0, 10.0, 200.0, 0.0, 200.0, [0.0, 1.0]), Sell, 5.0) == t;
    assert Value(t, 5.0) == 50.0;
    RoundAtScale4(0.75);
    assert (200.0 - 50.0) / 200.0 == 0.75;
    assert NextMaxDrawdown(0.0, 200.0, 50.0) == 0.75;
    RoundAtScale4(-0.75);
    assert (50.0 - 200.0) / 200.0 == -0.75;
    assert NextReturns([0.0, 1.0], 200.0, 50.0) == [0.0, 1.0, -0.75];
  }

  /** A BUY of 1000 at a close of 20 takes 50 units and leaves no cash. */
  lemma ExampleBuyAtTwenty()
    ensures Trade(Opening(1000.0), Buy, 20.0) == Ledger(0.0, 50.0, 1000.0, 0.0, 1000.0, [])
  {
    assert 1000.0 / 20.0 == 50.0;
    RoundAtScale4(50.0);
  }
}
