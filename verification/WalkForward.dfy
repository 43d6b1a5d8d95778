/** Repeated evaluation on test windows that slide over the history (backtest/engine.py:60-75, 387-441). */
module WalkForward {
  import opened Wrappers
  import opened Domain
  import opened Contracts
  import opened Rebalancing
  import opened Backtest
  import opened NoLookAhead

  datatype WalkForwardConfig = WalkForwardConfig(trainBars: nat, testBars: nat, stepBars: nat) {
    predicate Valid() {
      trainBars > 0 && testBars > 0 && stepBars > 0
    }

    /** How many windows fit into a benchmark of `bars` bars. */
    function Windows(bars: nat): nat
      requires Valid()
    {
      if bars <= trainBars + testBars then 0 else (bars - trainBars - testBars - 1) / stepBars + 1
    }

    function First(k: nat): nat {
      trainBars + k * stepBars
    }
  }

  datatype Window = Window(testStart: Time, testEnd: Time, result: BacktestResult)

  function BenchmarkBars(h: History, benchmark: Symbol): seq<MarketBar> {
    if benchmark in h then h[benchmark] else []
  }

  /** The backtest of window `k`: the history cut at the end of the window, decisions from its start. */
  ghost function WindowRun(e: BacktestEngine, c: WalkForwardConfig, h: History, benchmark: Symbol, k: nat)
    : Result<BacktestResult, Error>
    requires e.config.Valid() && benchmark in h && c.First(k) + c.testBars < |h[benchmark]|
  {
    e.Backtested(Cut(h, h[benchmark][c.First(k) + c.testBars].timestamp), benchmark,
                 Some(h[benchmark][c.First(k)].timestamp))
  }

  ghost predicate IsWindow(e: BacktestEngine, c: WalkForwardConfig, h: History, benchmark: Symbol, k: nat, w: Window)
    requires e.config.Valid() && benchmark in h
  {
    && c.First(k) + c.testBars < |h[benchmark]|
    && w.testStart == h[benchmark][c.First(k)].timestamp
    && w.testEnd == h[benchmark][c.First(k) + c.testBars].timestamp
    && WindowRun(e, c, h, benchmark, k) == Ok(w.result)
  }

  lemma CountIs(bars: nat, train: nat, test: nat, step: nat, k: nat)
    requires step > 0
    requires train + k * step + test >= bars
    requires k > 0 ==> train + (k - 1) * step + test < bars
    ensures k == if bars <= train + test then 0 else (bars - train - test - 1) / step + 1
  {
    if k > 0 {
      var m := bars - train - test - 1;
      Quotient(m, step, k - 1);
    }
  }

  lemma Quotient(m: int, step: nat, q: nat)
    requires step > 0 && q * step <= m < (q + 1) * step
    ensures m / step == q
  {
    var d := m / step;
    assert (d - q) * step == (m - q * step) - m % step;
    Small(d - q, step);
  }

  lemma Small(x: int, step: int)
    requires step > 0 && -step < x * step < step
    ensures x == 0
  {
    AwayFromZero(x, step);
  }

  lemma AwayFromZero(x: int, step: int)
    requires step > 0
    ensures x >= 1 ==> x * step >= step
    ensures x <= -1 ==> x * step <= -step
  {
  }

  ghost predicate FirstFailure(e: BacktestEngine, c: WalkForwardConfig, h: History, benchmark: Symbol, k: nat,
                               error: Error)
    requires e.config.Valid() && benchmark in h
  {
    && c.First(k) + c.testBars < |h[benchmark]|
    && WindowRun(e, c, h, benchmark, k) == Err(error)
    && forall j: nat :: j < k ==> c.First(j) + c.testBars < |h[benchmark]| && WindowRun(e, c, h, benchmark, j).Ok?
  }

  lemma FailureIsFirst(e: BacktestEngine, c: WalkForwardConfig, h: History, benchmark: Symbol, before: seq<Window>,
                       error: Error)
    requires e.config.Valid() && benchmark in h && c.First(|before|) + c.testBars < |h[benchmark]|
    requires WindowRun(e, c, h, benchmark, |before|) == Err(error)
    requires forall k :: 0 <= k < |before| ==> IsWindow(e, c, h, benchmark, k, before[k])
    ensures FirstFailure(e, c, h, benchmark, |before|, error)
  {
    hide WindowRun, WalkForwardConfig.First;
    forall j: nat | j < |before|
      ensures c.First(j) + c.testBars < |h[benchmark]| && WindowRun(e, c, h, benchmark, j).Ok?
    {
      assert IsWindow(e, c, h, benchmark, j, before[j]);
    }
  }

  method Evaluate(e: BacktestEngine, c: WalkForwardConfig, h: History, benchmark: Symbol)
    returns (res: Result<seq<Window>, Error>)
    requires e.config.Valid() && c.Valid()
    // all windows that fit, in order, each the backtest of its own slice
    ensures res.Ok? ==> |res.value| == c.Windows(|BenchmarkBars(h, benchmark)|)
    ensures res.Ok? ==>
              forall k :: 0 <= k < |res.value| ==> benchmark in h && IsWindow(e, c, h, benchmark, k, res.value[k])
    // the first failure ends it
    ensures res.Err? ==> benchmark in h && exists k: nat :: FirstFailure(e, c, h, benchmark, k, res.error)
  {
    hide BacktestEngine.Backtested, Cut;
    var bars := BenchmarkBars(h, benchmark);
    var windows: seq<Window> := [];
    var start := c.trainBars;
    while start + c.testBars < |bars|
      invariant start == c.First(|windows|)
      invariant |windows| > 0 ==> c.First(|windows| - 1) + c.testBars < |bars|
      invariant forall k :: 0 <= k < |windows| ==> benchmark in h && IsWindow(e, c, h, benchmark, k, windows[k])
      decreases |bars| - start
    {
      var testStart, testEnd := bars[start].timestamp, bars[start + c.testBars].timestamp;
      var result := e.Run(Cut(h, testEnd), benchmark, Some(testStart));
      assert result == WindowRun(e, c, h, benchmark, |windows|);
      if result.Err? {
        FailureIsFirst(e, c, h, benchmark, windows, result.error);
        return Err(result.error);
      }
      assert c.First(|windows| + 1) == start + c.stepBars;
      windows := windows + [Window(testStart, testEnd, result.value)];
      start := start + c.stepBars;
    }
    CountIs(|bars|, c.trainBars, c.testBars, c.stepBars, |windows|);
    return Ok(windows);
  }

  // ----- A window is a slice of the full run

  lemma CutBenchmark(h: History, benchmark: Symbol, n: nat)
    requires HasBar(h, benchmark, n)
    ensures var t := h[benchmark][n].timestamp;
            benchmark in Cut(h, t) && |Cut(h, t)[benchmark]| == n + 1 && HasBar(Cut(h, t), benchmark, n)
            && Cut(h, t)[benchmark][n] == h[benchmark][n]
  {
    UntilIsPrefix(h[benchmark], h[benchmark][n].timestamp);
    if n + 1 < |h[benchmark]| {
      assert h[benchmark][n + 1].timestamp > h[benchmark][n].timestamp;
    }
  }

  /** A window's run is the full history's run, stopped at the end of the window. */
  lemma WindowStopsTheRun(e: BacktestEngine, h: History, benchmark: Symbol, n: nat, start: Time)
    requires e.config.Valid() && HasBar(h, benchmark, n)
    requires e.Backtested(Cut(h, h[benchmark][n].timestamp), benchmark, Some(start)).Ok?
    ensures n >= e.config.warmup
    ensures e.RunTo(h, benchmark, Some(start), n).Ok?
    ensures e.Backtested(Cut(h, h[benchmark][n].timestamp), benchmark, Some(start)).value
            == e.Summary(e.RunTo(h, benchmark, Some(start), n).value)
  {
    hide Cut, BacktestEngine.RunTo, BacktestEngine.Summary;
    CutBenchmark(h, benchmark, n);
    RunOnCut(e, h, benchmark, Some(start), n, h[benchmark][n].timestamp);
  }

  /** Its points are exactly the full run's points executed by the end of the window. */
  lemma WindowIsSlice(e: BacktestEngine, h: History, benchmark: Symbol, n: nat, start: Time)
    requires e.config.Valid() && HasBar(h, benchmark, n)
    requires e.Backtested(Cut(h, h[benchmark][n].timestamp), benchmark, Some(start)).Ok?
    requires e.Backtested(h, benchmark, Some(start)).Ok?
    ensures Points(e, Cut(h, h[benchmark][n].timestamp), benchmark, Some(start))
            == Executed(Points(e, h, benchmark, Some(start)), h[benchmark][n].timestamp)
  {
    hide Cut, Executed, Loop, BacktestEngine.Iteration, BacktestEngine.Initial;
    WindowStopsTheRun(e, h, benchmark, n, start);
    PointsByTime(e, h, benchmark, Some(start), n, |h[benchmark]| - 1, h[benchmark][n].timestamp);
  }

  // ----- How many points a window has

  lemma IterationSkips(e: BacktestEngine, h: History, benchmark: Symbol, start: Time, st: Progress, n: nat)
    requires benchmark in h && n + 1 < |h[benchmark]| && h[benchmark][n].timestamp < start
    ensures e.Iteration(h, benchmark, Some(start))(st, n) == Ok(st)
  {
    hide BacktestEngine.Trade;
    e.IterationIs(h, benchmark, Some(start), st, n);
  }

  lemma {:induction false} BarIsThere(bars: seq<MarketBar>, n: nat)
    requires n < |bars|
    ensures BarAt(bars, bars[n].timestamp).Some?
  {
    if n > 0 && bars[0].timestamp != bars[n].timestamp {
      BarIsThere(bars[1..], n - 1);
    }
  }

  /** The benchmark always has a bar at the decision and at the execution, so a successful decision gives a point. */
  lemma IterationAddsOne(e: BacktestEngine, h: History, benchmark: Symbol, start: Time, st: Progress, n: nat)
    requires HasBar(h, benchmark, n + 1) && h[benchmark][n].timestamp >= start
    requires e.Iteration(h, benchmark, Some(start))(st, n).Ok?
    ensures |e.Iteration(h, benchmark, Some(start))(st, n).value.points| == |st.points| + 1
  {
    hide Rebalanced, Nav;
    e.IterationIs(h, benchmark, Some(start), st, n);
    UntilIsPrefix(h[benchmark], h[benchmark][n].timestamp);
    BarIsThere(h[benchmark], n + 1);
  }

  function Larger(a: int, b: int): int {
    if a >= b then a else b
  }

  /** One point for every bar from the first decision on. */
  lemma {:induction false} PointsAreBars(e: BacktestEngine, h: History, benchmark: Symbol, first: nat, n: nat)
    requires e.config.Valid() && HasBar(h, benchmark, n) && first < |h[benchmark]|
    requires e.RunTo(h, benchmark, Some(h[benchmark][first].timestamp), n).Ok?
    ensures |e.RunTo(h, benchmark, Some(h[benchmark][first].timestamp), n).value.points|
            == Larger(0, n - Larger(first, e.config.warmup - 1))
  {
    hide BacktestEngine.Iteration;
    var start := h[benchmark][first].timestamp;
    var body := e.Iteration(h, benchmark, Some(start));
    if n > e.config.warmup - 1 {
      PointsAreBars(e, h, benchmark, first, n - 1);
      var st := Loop(e.Initial(), body, e.config.warmup - 1, n - 1).value;
      LoopStep(e.Initial(), body, e.config.warmup - 1, n - 1, st);
      if n - 1 < first {
        IterationSkips(e, h, benchmark, start, st, n - 1);
      } else {
        assert h[benchmark][first].timestamp <= h[benchmark][n - 1].timestamp;
        IterationAddsOne(e, h, benchmark, start, st, n - 1);
      }
    }
  }

  /** A window has exactly one point per test bar if and only if its training bars cover the warm-up. */
  lemma WindowHasTestBars(e: BacktestEngine, c: WalkForwardConfig, h: History, benchmark: Symbol, k: nat)
    requires e.config.Valid() && c.Valid() && HasBar(h, benchmark, c.First(k) + c.testBars)
    requires WindowRun(e, c, h, benchmark, k).Ok?
    ensures |WindowRun(e, c, h, benchmark, k).value.points| == c.testBars <==> c.First(k) >= e.config.warmup - 1
    ensures c.trainBars >= e.config.warmup - 1 ==> |WindowRun(e, c, h, benchmark, k).value.points| == c.testBars
  {
    hide Cut, BacktestEngine.RunTo;
    WindowStopsTheRun(e, h, benchmark, c.First(k) + c.testBars, h[benchmark][c.First(k)].timestamp);
    PointsAreBars(e, h, benchmark, c.First(k), c.First(k) + c.testBars);
    assert c.First(k) >= c.trainBars;
  }

  /** No decision of a window lies before its test period, and every window ends inside the history. */
  lemma WindowsFit(c: WalkForwardConfig, bars: nat, k: nat)
    requires c.Valid()
    ensures k < c.Windows(bars) <==> c.First(k) + c.testBars < bars
  {
    var m := bars - c.trainBars - c.testBars - 1;
    if m >= 0 {
      var q := m / c.stepBars;
      assert q * c.stepBars <= m < (q + 1) * c.stepBars;
      if k <= q {
        assert k * c.stepBars <= q * c.stepBars;
      } else {
        assert k * c.stepBars >= (q + 1) * c.stepBars;
      }
    }
  }
}
