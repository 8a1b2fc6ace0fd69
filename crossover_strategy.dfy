/** The moving-average crossover strategy: one BUY/SELL/HOLD signal per daily
    bar, BUY when the short simple moving average crosses above the long one,
    SELL when it crosses below. */
module CrossoverStrategy {
  import opened Wrappers
  import opened Decimal
  import opened Domain

  const ShortWindowKey: string := "shortWindow"
  const LongWindowKey: string := "longWindow"

  /** Range of a Java `int`. */
  const IntMin: int := -0x8000_0000
  const IntMax: int := 0x7fff_ffff

  /** The strategy's parameters: a map that may be null, from names to Double
      values that may be null. */
  type Parameters = Option<map<string, Option<real>>>

  /** The IllegalArgumentException cases, by the condition that raises them. */
  datatype ParamError =
    | MissingParameter(key: string)
    | NullParameter(key: string)
    | NonPositiveWindow
    | WindowsOutOfOrder

  /** Double.intValue on a finite value: truncation toward zero, saturating at
      the bounds of `int`. */
  function IntValue(d: real): (n: int)
    ensures IntMin <= n <= IntMax
    ensures IntMin as real - 1.0 < d < IntMax as real + 1.0 ==>
              (d >= 0.0 ==> n as real <= d < n as real + 1.0) &&
              (d < 0.0 ==> n as real - 1.0 < d <= n as real)
    ensures d >= IntMax as real + 1.0 ==> n == IntMax
    ensures d <= IntMin as real - 1.0 ==> n == IntMin
  {
    var t := if d >= 0.0 then d.Floor else -((-d).Floor);
    if t > IntMax then IntMax else if t < IntMin then IntMin else t
  }

  /** Looks up a required parameter and converts it with intValue; a null map,
      an absent key and a null value are the three ways to fail. */
  function GetRequiredParam(parameters: Parameters, key: string): (r: Result<int, ParamError>)
    ensures r.Success? <==>
              parameters.Some? && key in parameters.value && parameters.value[key].Some?
    ensures r.Success? ==> r.value == IntValue(parameters.value[key].value)
    ensures (parameters.None? || key !in parameters.value) ==> r == Failure(MissingParameter(key))
    ensures parameters.Some? && key in parameters.value && parameters.value[key].None? ==>
              r == Failure(NullParameter(key))
  {
    if parameters.None? || key !in parameters.value then Failure(MissingParameter(key))
    else match parameters.value[key]
      case None => Failure(NullParameter(key))
      case Some(d) => Success(IntValue(d))
  }

  /** The window sizes, validated in the source's order: short window read
      first, then the long one, then positivity, then their order. */
  function Windows(parameters: Parameters): (r: Result<(int, int), ParamError>)
    ensures r.Success? ==> 0 < r.value.0 < r.value.1
  {
    match GetRequiredParam(parameters, ShortWindowKey)
    case Failure(e) => Failure(e)
    case Success(shortWindow) =>
      match GetRequiredParam(parameters, LongWindowKey)
      case Failure(e) => Failure(e)
      case Success(longWindow) =>
        if shortWindow <= 0 || longWindow <= 0 then Failure(NonPositiveWindow)
        else if shortWindow >= longWindow then Failure(WindowsOutOfOrder)
        else Success((shortWindow, longWindow))
  }

  /** Sum of the closes of bars `from` up to but excluding `end`, added left to right. */
  function CloseSum(data: seq<MarketData>, from: int, end: int): real
    requires 0 <= from <= end <= |data|
  {
    if end == from then 0.0 else CloseSum(data, from, end - 1) + data[end - 1].close
  }

  /** Simple moving average of the closes of bars `from` to `to`, both included,
      rounded to four digits HALF_UP. */
  function Sma(data: seq<MarketData>, from: int, to: int): real
    requires 0 <= from <= to < |data|
  {
    RoundHalfUp4(CloseSum(data, from, to + 1) / (to - from + 1) as real)
  }

  /** The crossing rule on the current and previous pair of averages: only a
      strict inequality now, after a non-strict or opposite one before, fires. */
  function Crossing(shortMa: real, longMa: real, prevShortMa: real, prevLongMa: real): TradeSignal {
    if shortMa > longMa && prevShortMa <= prevLongMa then Buy
    else if shortMa < longMa && prevShortMa >= prevLongMa then Sell
    else Hold
  }

  /** The signal of bar `i`: HOLD up to and including bar longWindow - 1, the
      crossing rule on the trailing averages at `i` and `i - 1` afterwards. */
  function SignalAt(data: seq<MarketData>, shortWindow: int, longWindow: int, i: int): TradeSignal
    requires 0 < shortWindow < longWindow
    requires 0 <= i < |data|
  {
    if i < longWindow then Hold
    else Crossing(Sma(data, i - shortWindow + 1, i), Sma(data, i - longWindow + 1, i),
                  Sma(data, i - shortWindow, i - 1), Sma(data, i - longWindow, i - 1))
  }

  /** The signals of the first `n` bars, as the source appends them. */
  function SignalsUpTo(data: seq<MarketData>, shortWindow: int, longWindow: int, n: int): seq<TradeSignal>
    requires 0 < shortWindow < longWindow
    requires 0 <= n <= |data|
  {
    if n == 0 then []
    else SignalsUpTo(data, shortWindow, longWindow, n - 1) + [SignalAt(data, shortWindow, longWindow, n - 1)]
  }

  /** What generateSignals returns: no signal and no parameter check for an
      empty history, the parameter error, or one signal per bar. */
  function Signals(data: seq<MarketData>, parameters: Parameters): (r: Result<seq<TradeSignal>, ParamError>)
    ensures r.Success? ==> |r.value| == |data|
    ensures r.Failure? <==> |data| > 0 && Windows(parameters).Failure?
  {
    if |data| == 0 then Success([])
    else match Windows(parameters)
      case Failure(e) => Failure(e)
      case Success((shortWindow, longWindow)) =>
        SignalsUpToLength(data, shortWindow, longWindow, |data|);
        Success(SignalsUpTo(data, shortWindow, longWindow, |data|))
  }

  lemma {:induction false} SignalsUpToLength(data: seq<MarketData>, shortWindow: int, longWindow: int, n: int)
    requires 0 < shortWindow < longWindow
    requires 0 <= n <= |data|
    ensures |SignalsUpTo(data, shortWindow, longWindow, n)| == n
  {
    if n > 0 { SignalsUpToLength(data, shortWindow, longWindow, n - 1); }
  }

  /** Signal `i` of the accumulated list is the signal of bar `i`. */
  lemma {:induction false} SignalsUpToAt(data: seq<MarketData>, shortWindow: int, longWindow: int, n: int, i: int)
    requires 0 < shortWindow < longWindow
    requires 0 <= i < n <= |data|
    ensures |SignalsUpTo(data, shortWindow, longWindow, n)| == n
    ensures SignalsUpTo(data, shortWindow, longWindow, n)[i] == SignalAt(data, shortWindow, longWindow, i)
  {
    SignalsUpToLength(data, shortWindow, longWindow, n);
    if i < n - 1 {
      SignalsUpToAt(data, shortWindow, longWindow, n - 1, i);
    }
  }

  /** Sums the closes of bars `from` to `to` in a loop and divides by their count. */
  method ComputeSma(data: seq<MarketData>, from: int, to: int) returns (avg: real)
    requires 0 <= from <= to < |data|
    ensures avg == Sma(data, from, to)
  {
    var sum := 0.0;
    var i := from;
    while i <= to
      invariant from <= i <= to + 1
      invariant sum == CloseSum(data, from, i)
    {
      sum := sum + data[i].close;
      i := i + 1;
    }
    var count := to - from + 1;
    avg := RoundHalfUp4(sum / count as real);
  }

  /** generateSignals: validates the windows, then appends one signal per bar. */
  method GenerateSignals(data: seq<MarketData>, parameters: Parameters)
    returns (r: Result<seq<TradeSignal>, ParamError>)
    ensures r == Signals(data, parameters)
  {
    if |data| == 0 {
      return Success([]);
    }
    var shortParam := GetRequiredParam(parameters, ShortWindowKey);
    if shortParam.Failure? {
      return Failure(shortParam.error);
    }
    var longParam := GetRequiredParam(parameters, LongWindowKey);
    if longParam.Failure? {
      return Failure(longParam.error);
    }
    var shortWindow, longWindow := shortParam.value, longParam.value;
    if shortWindow <= 0 || longWindow <= 0 {
      return Failure(NonPositiveWindow);
    }
    if shortWindow >= longWindow {
      return Failure(WindowsOutOfOrder);
    }

    var signals: seq<TradeSignal> := [];
    var i := 0;
    while i < |data|
      invariant 0 <= i <= |data|
      invariant signals == SignalsUpTo(data, shortWindow, longWindow, i)
    {
      if i < longWindow - 1 {
        signals := signals + [Hold];
        i := i + 1;
        continue;
      }
      var shortMa := ComputeSma(data, i - shortWindow + 1, i);
      var longMa := ComputeSma(data, i - longWindow + 1, i);
      var signal: TradeSignal;
      if i == longWindow - 1 {
        signal := Hold;
      } else {
        var prevShortMa := ComputeSma(data, i - shortWindow, i - 1);
        var prevLongMa := ComputeSma(data, i - longWindow, i - 1);
        var shortCrossedAbove := shortMa > longMa && prevShortMa <= prevLongMa;
        var shortCrossedBelow := shortMa < longMa && prevShortMa >= prevLongMa;
        if shortCrossedAbove {
          signal := Buy;
        } else if shortCrossedBelow {
          signal := Sell;
        } else {
          signal := Hold;
        }
      }
      signals := signals + [signal];
      i := i + 1;
    }
    return Success(signals);
  }

  /** The windows are accepted exactly when both parameters are present and
      non-null and, after truncation by intValue, 0 < shortWindow < longWindow. */
  lemma WindowsAccepted(parameters: Parameters)
    ensures Windows(parameters).Success? <==>
              && parameters.Some?
              && ShortWindowKey in parameters.value && parameters.value[ShortWindowKey].Some?
              && LongWindowKey in parameters.value && parameters.value[LongWindowKey].Some?
              && 0 < IntValue(parameters.value[ShortWindowKey].value)
              && IntValue(parameters.value[ShortWindowKey].value) < IntValue(parameters.value[LongWindowKey].value)
    ensures Windows(parameters).Success? ==>
              Windows(parameters).value ==
                (IntValue(parameters.value[ShortWindowKey].value), IntValue(parameters.value[LongWindowKey].value))
  {
  }

  /** Equal windows are rejected, also when they only become equal once
      truncated toward zero (5.9 and 5.2 are both 5). */
  lemma EqualWindowsRejected()
    ensures Windows(Some(map[ShortWindowKey := Some(5.0), LongWindowKey := Some(5.0)])) == Failure(WindowsOutOfOrder)
    ensures Windows(Some(map[ShortWindowKey := Some(5.9), LongWindowKey := Some(5.2)])) == Failure(WindowsOutOfOrder)
    ensures Windows(Some(map[ShortWindowKey := Some(0.7), LongWindowKey := Some(4.0)])) == Failure(NonPositiveWindow)
    ensures Windows(Some(map[LongWindowKey := Some(4.0)])) == Failure(MissingParameter(ShortWindowKey))
    ensures Windows(Some(map[ShortWindowKey := Some(2.0), LongWindowKey := None])) == Failure(NullParameter(LongWindowKey))
  {
    assert IntValue(5.9) == 5;
    assert IntValue(5.2) == 5;
    assert IntValue(0.7) == 0;
    assert ShortWindowKey != LongWindowKey;
  }

  /** The per-bar rule: one signal per bar, HOLD for every bar up to and
      including longWindow - 1, and afterwards BUY exactly on an upward strict
      crossing and SELL exactly on a downward one. */
  lemma SignalRule(data: seq<MarketData>, parameters: Parameters, i: int)
    requires Windows(parameters).Success?
    requires 0 <= i < |data|
    ensures Signals(data, parameters).Success?
    ensures |Signals(data, parameters).value| == |data|
    ensures var (shortWindow, longWindow) := Windows(parameters).value;
            var s := Signals(data, parameters).value;
            && (i <= longWindow - 1 ==> s[i] == Hold)
            && (i >= longWindow ==>
                  var shortMa, longMa := Sma(data, i - shortWindow + 1, i), Sma(data, i - longWindow + 1, i);
                  var prevShortMa, prevLongMa := Sma(data, i - shortWindow, i - 1), Sma(data, i - longWindow, i - 1);
                  && (s[i] == Buy <==> shortMa > longMa && prevShortMa <= prevLongMa)
                  && (s[i] == Sell <==> shortMa < longMa && prevShortMa >= prevLongMa))
  {
    var (shortWindow, longWindow) := Windows(parameters).value;
    SignalsUpToAt(data, shortWindow, longWindow, |data|, i);
  }

  /** A sum of closes reads only the bars it sums. */
  lemma {:induction false} CloseSumReadsWindow(a: seq<MarketData>, b: seq<MarketData>, from: int, end: int)
    requires 0 <= from <= end <= |a| && end <= |b|
    requires forall k :: from <= k < end ==> a[k].close == b[k].close
    ensures CloseSum(a, from, end) == CloseSum(b, from, end)
  {
    if end > from {
      CloseSumReadsWindow(a, b, from, end - 1);
    }
  }

  /** No look-ahead: the signal of bar `i` depends only on the closes of bars
      0 to `i`. */
  lemma SignalAtIsCausal(a: seq<MarketData>, b: seq<MarketData>, shortWindow: int, longWindow: int, i: int)
    requires 0 < shortWindow < longWindow
    requires 0 <= i < |a| && i < |b|
    requires forall k :: 0 <= k <= i ==> a[k].close == b[k].close
    ensures SignalAt(a, shortWindow, longWindow, i) == SignalAt(b, shortWindow, longWindow, i)
  {
    if i >= longWindow {
      CloseSumReadsWindow(a, b, i - shortWindow + 1, i + 1);
      CloseSumReadsWindow(a, b, i - longWindow + 1, i + 1);
      CloseSumReadsWindow(a, b, i - shortWindow, i);
      CloseSumReadsWindow(a, b, i - longWindow, i);
    }
  }

  /** Appending later bars, or changing them, leaves the earlier signals as
      they were: the signals of a history are a prefix of the signals of any
      extension of it. */
  lemma SignalsOfExtension(data: seq<MarketData>, later: seq<MarketData>, parameters: Parameters)
    ensures Signals(data + later, parameters).Success? ==>
              Signals(data, parameters).Success? &&
              Signals(data, parameters).value == Signals(data + later, parameters).value[..|data|]
  {
    var extended := data + later;
    if Signals(extended, parameters).Success? && |data| > 0 {
      var (shortWindow, longWindow) := Windows(parameters).value;
      var s, t := Signals(data, parameters).value, Signals(extended, parameters).value;
      forall i | 0 <= i < |data|
        ensures s[i] == t[i]
      {
        SignalsUpToAt(data, shortWindow, longWindow, |data|, i);
        SignalsUpToAt(extended, shortWindow, longWindow, |extended|, i);
        SignalAtIsCausal(data, extended, shortWindow, longWindow, i);
      }
    }
  }

  /** The previous averages at bar `i + 1` are the current averages at bar
      `i`, so a crossing cannot fire on two adjacent bars: no BUY follows a
      BUY and no SELL follows a SELL. */
  lemma NoRepeatedCrossing(data: seq<MarketData>, parameters: Parameters, i: int)
    requires Windows(parameters).Success?
    requires 0 <= i && i + 1 < |data|
    ensures Signals(data, parameters).Success?
    ensures var s := Signals(data, parameters).value;
            !(s[i] == Buy && s[i + 1] == Buy) && !(s[i] == Sell && s[i + 1] == Sell)
  {
    var (shortWindow, longWindow) := Windows(parameters).value;
    SignalsUpToAt(data, shortWindow, longWindow, |data|, i);
    SignalsUpToAt(data, shortWindow, longWindow, |data|, i + 1);
    var j := i + 1;
    assert j - shortWindow == i - shortWindow + 1 && j - 1 == i && j - longWindow == i - longWindow + 1;
  }

  /** The worked example's history: closes 10, 10, 10, 10, 20, 20, 20, 20. */
  function ExampleData(): (data: seq<MarketData>)
    ensures |data| == 8
  {
    var bar := (day: Date, close: real) => MarketData(day, "X", close, close, close, close, 0.0);
    [bar(0, 10.0), bar(1, 10.0), bar(2, 10.0), bar(3, 10.0),
     bar(4, 20.0), bar(5, 20.0), bar(6, 20.0), bar(7, 20.0)]
  }

  /** A window average that needs no rounding. */
  lemma ExactSma(data: seq<MarketData>, from: int, to: int, sum: real, avg: real)
    requires 0 <= from <= to < |data|
    requires CloseSum(data, from, to + 1) == sum
    requires AtScale4(avg) && avg * (to - from + 1) as real == sum
    ensures Sma(data, from, to) == avg
  {
    var n := (to - from + 1) as real;
    assert sum / n == avg * n / n == avg;
    RoundAtScale4(avg);
  }

  /** The averages of the worked example at bars 3 to 7. */
  lemma ExampleAverages()
    ensures Sma(ExampleData(), 0, 3) == 10.0 && Sma(ExampleData(), 2, 3) == 10.0
    ensures Sma(ExampleData(), 1, 4) == 12.5 && Sma(ExampleData(), 3, 4) == 15.0
    ensures Sma(ExampleData(), 2, 5) == 15.0 && Sma(ExampleData(), 4, 5) == 20.0
    ensures Sma(ExampleData(), 3, 6) == 17.5 && Sma(ExampleData(), 5, 6) == 20.0
    ensures Sma(ExampleData(), 4, 7) == 20.0 && Sma(ExampleData(), 6, 7) == 20.0
  {
    var data := ExampleData();
    assert CloseSum(data, 0, 4) == 40.0 && CloseSum(data, 2, 4) == 20.0;
    ExactSma(data, 0, 3, 40.0, 10.0);
    ExactSma(data, 2, 3, 20.0, 10.0);
    assert CloseSum(data, 1, 5) == 50.0 && CloseSum(data, 3, 5) == 30.0;
    ExactSma(data, 1, 4, 50.0, 12.5);
    ExactSma(data, 3, 4, 30.0, 15.0);
    assert CloseSum(data, 2, 6) == 60.0 && CloseSum(data, 4, 6) == 40.0;
    ExactSma(data, 2, 5, 60.0, 15.0);
    ExactSma(data, 4, 5, 40.0, 20.0);
    assert CloseSum(data, 3, 7) == 70.0 && CloseSum(data, 5, 7) == 40.0;
    ExactSma(data, 3, 6, 70.0, 17.5);
    ExactSma(data, 5, 6, 40.0, 20.0);
    assert CloseSum(data, 4, 8) == 80.0 && CloseSum(data, 6, 8) == 40.0;
    ExactSma(data, 4, 7, 80.0, 20.0);
    ExactSma(data, 6, 7, 40.0, 20.0);
  }

  /** Closes 10, 10, 10, 10, 20, 20, 20, 20 with windows 2 and 4: HOLD
      everywhere except a BUY at bar 4, where the short average (15) first
      rises above the long one (12.5). At bar 7 both averages are 20, and
      equality does not trigger anything. */
  lemma WorkedExample()
    ensures Signals(ExampleData(), Some(map[ShortWindowKey := Some(2.0), LongWindowKey := Some(4.0)])) ==
              Success([Hold, Hold, Hold, Hold, Buy, Hold, Hold, Hold])
  {
    var data := ExampleData();
    var parameters := Some(map[ShortWindowKey := Some(2.0), LongWindowKey := Some(4.0)]);
    assert ShortWindowKey != LongWindowKey;
    assert IntValue(2.0) == 2 && IntValue(4.0) == 4;
    assert Windows(parameters) == Success((2, 4));
    ExampleAverages();
    var expected := [Hold, Hold, Hold, Hold, Buy, Hold, Hold, Hold];
    forall i | 0 <= i < 8
      ensures SignalsUpTo(data, 2, 4, 8)[i] == expected[i]
    {
      SignalsUpToAt(data, 2, 4, 8, i);
    }
    SignalsUpToLength(data, 2, 4, 8);
    assert SignalsUpTo(data, 2, 4, 8) == expected;
    assert Signals(data, parameters) == Success(SignalsUpTo(data, 2, 4, 8));
  }
}
