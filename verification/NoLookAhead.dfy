/** A replay up to time T depends only on the bars up to T (backtest/engine.py:119-219). */
module NoLookAhead {
  import opened Wrappers
  import opened Domain
  import opened Contracts
  import opened Backtest

  // ----- Bars

  lemma {:induction false} UntilTwice(bars: seq<MarketBar>, t: Time, u: Time)
    requires t <= u
    ensures Until(Until(bars, u), t) == Until(bars, t)
  {
    if bars != [] {
      var front, last := bars[..|bars| - 1], bars[|bars| - 1];
      UntilTwice(front, t, u);
      if last.timestamp <= u {
        assert (Until(front, u) + [last])[..|Until(front, u)|] == Until(front, u);
      }
    }
  }

  lemma {:induction false} BarAtAppend(bars: seq<MarketBar>, last: MarketBar, t: Time)
    ensures BarAt(bars + [last], t) ==
            if BarAt(bars, t).Some? then BarAt(bars, t) else if last.timestamp == t then Some(last) else None
  {
    if bars == [] {
      assert bars + [last] == [last];
      assert [last][1..] == [];
    } else {
      assert (bars + [last])[1..] == bars[1..] + [last];
      BarAtAppend(bars[1..], last, t);
    }
  }

  lemma {:induction false} BarAtUntil(bars: seq<MarketBar>, t: Time, u: Time)
    requires t <= u
    ensures BarAt(Until(bars, u), t) == BarAt(bars, t)
  {
    if bars != [] {
      var front, last := bars[..|bars| - 1], bars[|bars| - 1];
      assert bars == front + [last];
      BarAtUntil(front, t, u);
      BarAtAppend(front, last, t);
      BarAtAppend(Until(front, u), last, t);
    }
  }

  lemma CutTwice(h: History, t: Time, u: Time)
    requires t <= u
    ensures Cut(Cut(h, u), t) == Cut(h, t) && BarsAt(Cut(h, u), t) == BarsAt(h, t)
  {
    forall s | s in h
      ensures Until(Until(h[s], u), t) == Until(h[s], t) && BarAt(Until(h[s], u), t) == BarAt(h[s], t)
    {
      UntilTwice(h[s], t, u);
      BarAtUntil(h[s], t, u);
    }
  }

  /** In an increasing history the bars up to a time are a prefix. */
  lemma {:induction false} UntilIsPrefix(bars: seq<MarketBar>, t: Time)
    requires StrictlyIncreasing(bars)
    ensures Until(bars, t) <= bars
    ensures forall i :: 0 <= i < |bars| ==> (i < |Until(bars, t)| <==> bars[i].timestamp <= t)
  {
    if bars != [] {
      var front, last := bars[..|bars| - 1], bars[|bars| - 1];
      UntilIsPrefix(front, t);
      if last.timestamp <= t {
        forall i | 0 <= i < |front|
          ensures front[i].timestamp <= t
        {
          assert bars[i].timestamp < last.timestamp;
        }
      }
    }
  }

  // ----- One iteration, then all of them

  predicate HasBar(h: History, benchmark: Symbol, n: nat) {
    benchmark in h && StrictlyIncreasing(h[benchmark]) && n < |h[benchmark]|
  }

  lemma BarSurvives(h: History, benchmark: Symbol, n: nat, t: Time)
    requires HasBar(h, benchmark, n) && h[benchmark][n].timestamp <= t
    ensures benchmark in Cut(h, t) && n < |Cut(h, t)[benchmark]| && Cut(h, t)[benchmark][n] == h[benchmark][n]
  {
    UntilIsPrefix(h[benchmark], t);
  }

  lemma AdvanceOnCut(e: BacktestEngine, h: History, benchmark: Symbol, start: Option<Time>, st: Progress, n: nat,
                     t: Time)
    requires HasBar(h, benchmark, n + 1) && h[benchmark][n + 1].timestamp <= t
    ensures e.Iteration(h, benchmark, start)(st, n) == e.Iteration(Cut(h, t), benchmark, start)(st, n)
  {
    hide BacktestEngine.Trade, Latest, Until, BarAt;
    var decision, execution := h[benchmark][n].timestamp, h[benchmark][n + 1].timestamp;
    BarSurvives(h, benchmark, n, t);
    BarSurvives(h, benchmark, n + 1, t);
    CutTwice(h, decision, t);
    CutTwice(h, execution, t);
    e.IterationIs(h, benchmark, start, st, n);
    e.IterationIs(Cut(h, t), benchmark, start, st, n);
  }

  lemma {:induction false} SameLoop<S>(init: S, a: (S, nat) -> Result<S, Error>, b: (S, nat) -> Result<S, Error>,
                                       from: nat, to: nat)
    requires forall s, n: nat :: n < to ==> a(s, n) == b(s, n)
    ensures Loop(init, a, from, to) == Loop(init, b, from, to)
  {
    if to > from {
      SameLoop(init, a, b, from, to - 1);
    }
  }

  /** Up to bar `n`, the loop cannot tell the history from its part up to any later time. */
  lemma RunOnCut(e: BacktestEngine, h: History, benchmark: Symbol, start: Option<Time>, n: nat, t: Time)
    requires e.config.Valid() && HasBar(h, benchmark, n) && h[benchmark][n].timestamp <= t
    ensures benchmark in Cut(h, t)
    ensures e.RunTo(Cut(h, t), benchmark, start, n) == e.RunTo(h, benchmark, start, n)
  {
    hide BacktestEngine.Iteration, Until;
    var a, b := e.Iteration(h, benchmark, start), e.Iteration(Cut(h, t), benchmark, start);
    forall st, m: nat | m < n
      ensures a(st, m) == b(st, m)
    {
      AdvanceOnCut(e, h, benchmark, start, st, m, t);
    }
    SameLoop(e.Initial(), a, b, e.config.warmup - 1, n);
  }

  // ----- Points

  /** The points executed by a time. */
  function Executed(points: seq<Point>, t: Time): seq<Point> {
    if points == [] then []
    else
      var front := Executed(points[..|points| - 1], t);
      if points[|points| - 1].executionTime <= t then front + [points[|points| - 1]] else front
  }

  /** An iteration adds at most one point, executed at the bar after the decision. */
  lemma IterationAdds(e: BacktestEngine, h: History, benchmark: Symbol, start: Option<Time>, st: Progress, n: nat)
    requires benchmark in h && n + 1 < |h[benchmark]|
    requires e.Iteration(h, benchmark, start)(st, n).Ok?
    ensures var next := e.Iteration(h, benchmark, start)(st, n).value;
            || next == st
            || (|next.points| == |st.points| + 1 && next.points[..|st.points|] == st.points
                && next.points[|st.points|].decisionTime == h[benchmark][n].timestamp
                && next.points[|st.points|].executionTime == h[benchmark][n + 1].timestamp)
  {
    e.IterationIs(h, benchmark, start, st, n);
  }

  /** The bars up to `t` are those up to bar `n`. */
  predicate LastBar(h: History, benchmark: Symbol, n: nat, t: Time) {
    && HasBar(h, benchmark, n)
    && h[benchmark][n].timestamp <= t
    && (n + 1 < |h[benchmark]| ==> t < h[benchmark][n + 1].timestamp)
  }

  /** The points executed by `t` are those the loop had produced when it reached the last bar up to `t`. */
  lemma {:induction false} PointsByTime(e: BacktestEngine, h: History, benchmark: Symbol, start: Option<Time>, n: nat,
                                        m: nat, t: Time)
    requires e.config.Valid() && LastBar(h, benchmark, n, t) && m < |h[benchmark]|
    requires e.RunTo(h, benchmark, start, m).Ok?
    ensures m >= n ==> e.RunTo(h, benchmark, start, n).Ok?
                       && Executed(e.RunTo(h, benchmark, start, m).value.points, t)
                          == e.RunTo(h, benchmark, start, n).value.points
    ensures m <= n ==>
              Executed(e.RunTo(h, benchmark, start, m).value.points, t) == e.RunTo(h, benchmark, start, m).value.points
    decreases m
  {
    hide BacktestEngine.Iteration;
    var body := e.Iteration(h, benchmark, start);
    if m > e.config.warmup - 1 {
      PointsByTime(e, h, benchmark, start, n, m - 1, t);
      var before := Loop(e.Initial(), body, e.config.warmup - 1, m - 1).value;
      LoopStep(e.Initial(), body, e.config.warmup - 1, m - 1, before);
      IterationAdds(e, h, benchmark, start, before, m - 1);
      assert m <= n ==> h[benchmark][m].timestamp <= h[benchmark][n].timestamp;
      assert m > n ==> h[benchmark][n + 1].timestamp <= h[benchmark][m].timestamp;
    } else if m >= n {
      assert Loop(e.Initial(), body, e.config.warmup - 1, n) == Ok(e.Initial());
    }
  }

  lemma {:induction false} NothingBefore(e: BacktestEngine, h: History, benchmark: Symbol, start: Option<Time>, m: nat,
                                         t: Time)
    requires e.config.Valid() && HasBar(h, benchmark, 0) && t < h[benchmark][0].timestamp && m < |h[benchmark]|
    requires e.RunTo(h, benchmark, start, m).Ok?
    ensures Executed(e.RunTo(h, benchmark, start, m).value.points, t) == []
  {
    hide BacktestEngine.Iteration;
    var body := e.Iteration(h, benchmark, start);
    if m > e.config.warmup - 1 {
      NothingBefore(e, h, benchmark, start, m - 1, t);
      var before := Loop(e.Initial(), body, e.config.warmup - 1, m - 1).value;
      LoopStep(e.Initial(), body, e.config.warmup - 1, m - 1, before);
      IterationAdds(e, h, benchmark, start, before, m - 1);
    }
  }

  ghost function Points(e: BacktestEngine, h: History, benchmark: Symbol, start: Option<Time>): seq<Point>
    requires e.config.Valid() && e.Backtested(h, benchmark, start).Ok?
  {
    e.Backtested(h, benchmark, start).value.points
  }

  /** Two histories of the same symbols that agree on every bar up to a time. */
  ghost predicate SamePast(h: History, k: History, t: Time) {
    h.Keys == k.Keys && forall s :: s in h ==> Until(h[s], t) == Until(k[s], t)
  }

  lemma SamePastSameCut(h: History, k: History, t: Time)
    requires SamePast(h, k, t)
    ensures Cut(h, t) == Cut(k, t)
  {
    hide Until;
  }

  /** A raised error and all books included, nothing after the bar at which the loop stands can matter. */
  lemma SamePastSameRun(e: BacktestEngine, h: History, k: History, benchmark: Symbol, start: Option<Time>, n: nat,
                        t: Time)
    requires e.config.Valid() && SamePast(h, k, t)
    requires HasBar(h, benchmark, n) && h[benchmark][n].timestamp <= t
    requires benchmark in k && StrictlyIncreasing(k[benchmark])
    ensures n < |k[benchmark]| && k[benchmark][n] == h[benchmark][n]
    ensures e.RunTo(h, benchmark, start, n) == e.RunTo(k, benchmark, start, n)
  {
    hide BacktestEngine.RunTo, Until;
    SamePastSameCut(h, k, t);
    BarSurvives(h, benchmark, n, t);
    SameBar(k, benchmark, n, t);
    RunOnCut(e, h, benchmark, start, n, t);
    RunOnCut(e, k, benchmark, start, n, t);
  }

  lemma SameBar(k: History, benchmark: Symbol, n: nat, t: Time)
    requires benchmark in k && StrictlyIncreasing(k[benchmark]) && benchmark in Cut(k, t) && n < |Cut(k, t)[benchmark]|
    ensures n < |k[benchmark]| && k[benchmark][n] == Cut(k, t)[benchmark][n] && k[benchmark][n].timestamp <= t
  {
    UntilIsPrefix(k[benchmark], t);
  }

  /** No look-ahead: histories that agree up to T give the same points for every execution up to T. */
  lemma SamePastSamePoints(e: BacktestEngine, h: History, k: History, benchmark: Symbol, start: Option<Time>, t: Time)
    requires e.config.Valid() && SamePast(h, k, t)
    requires e.Backtested(h, benchmark, start).Ok? && e.Backtested(k, benchmark, start).Ok?
    ensures Executed(Points(e, h, benchmark, start), t) == Executed(Points(e, k, benchmark, start), t)
  {
    hide Executed, Until, Loop, BacktestEngine.Iteration, BacktestEngine.Initial;
    UntilIsPrefix(h[benchmark], t);
    UntilIsPrefix(k[benchmark], t);
    var known := |Until(h[benchmark], t)|;
    if known == 0 {
      NothingBefore(e, h, benchmark, start, |h[benchmark]| - 1, t);
      NothingBefore(e, k, benchmark, start, |k[benchmark]| - 1, t);
    } else {
      PointsByTime(e, h, benchmark, start, known - 1, |h[benchmark]| - 1, t);
      PointsByTime(e, k, benchmark, start, known - 1, |k[benchmark]| - 1, t);
      SamePastSameRun(e, h, k, benchmark, start, known - 1, t);
    }
  }
}
