/** Next-bar-open replay (backtest/engine.py:78-235). */
module Backtest {
  import opened Wrappers
  import opened Folds
  import opened Domain
  import opened Contracts
  import opened RebalancePolicy
  import opened Rebalancing
  import MapSum

  datatype BacktestConfig = BacktestConfig(startingCash: real, currency: string, warmup: nat, rates: Rates) {
    predicate Valid() {
      startingCash > 0.0 && warmup >= 2 && rates.Valid()
    }
  }

  datatype Point = Point(
    decisionTime: Time,
    executionTime: Time,
    nav: real,
    cash: real,
    turnover: real,
    costs: real,
    positions: map<Symbol, real>)

  datatype BacktestResult = BacktestResult(
    startingNav: real,
    endingNav: real,
    totalReturn: real,
    maxDrawdown: real,
    totalCosts: real,
    tradeCount: nat,
    points: seq<Point>,
    totalTurnover: real,
    averageCashWeight: real)

  /** Everything the main loop updates. */
  datatype Progress = Progress(
    cash: real,
    positions: map<Symbol, Position>,
    points: seq<Point>,
    costs: real,
    turnover: real,
    cashWeightSum: real,
    trades: nat,
    peak: real,
    drawdown: real)

  // ----- Looking at bars

  function Until(bars: seq<MarketBar>, t: Time): seq<MarketBar> {
    if bars == [] then []
    else
      var front := Until(bars[..|bars| - 1], t);
      if bars[|bars| - 1].timestamp <= t then front + [bars[|bars| - 1]] else front
  }

  function Cut(h: History, t: Time): History {
    map s | s in h :: Until(h[s], t)
  }

  function Latest(h: History): map<Symbol, MarketBar> {
    map s | s in h && h[s] != [] :: h[s][|h[s]| - 1]
  }

  /** _bar_at: the first bar with exactly this timestamp. */
  function BarAt(bars: seq<MarketBar>, t: Time): Option<MarketBar> {
    if bars == [] then None else if bars[0].timestamp == t then Some(bars[0]) else BarAt(bars[1..], t)
  }

  function BarsAt(h: History, t: Time): map<Symbol, MarketBar> {
    map s | s in h && BarAt(h[s], t).Some? :: BarAt(h[s], t).value
  }

  function Opens(bars: map<Symbol, MarketBar>): map<Symbol, real> {
    map s | s in bars :: bars[s].open
  }

  function Closes(bars: map<Symbol, MarketBar>): map<Symbol, real> {
    map s | s in bars :: bars[s].close
  }

  function Times(bars: map<Symbol, MarketBar>): map<Symbol, Time> {
    map s | s in bars :: bars[s].timestamp
  }

  predicate ValidHistory(h: History) {
    h != map[] && forall s :: s in h ==> s != "" && h[s] != [] && StrictlyIncreasing(h[s])
  }

  /** Every bar has passed its own validators. */
  predicate ValidBars(h: History) {
    forall s, i :: s in h && 0 <= i < |h[s]| ==> h[s][i].Valid()
  }

  /** `for index in range(from, to)` with a body that may raise. */
  ghost function Loop<S>(init: S, body: (S, nat) -> Result<S, Error>, from: nat, to: nat): Result<S, Error> {
    if to <= from then Ok(init)
    else
      var s :- Loop(init, body, from, to - 1);
      body(s, to - 1)
  }

  lemma LoopStep<S>(init: S, body: (S, nat) -> Result<S, Error>, from: nat, to: nat, s: S)
    requires from <= to && Loop(init, body, from, to) == Ok(s)
    ensures Loop(init, body, from, to + 1) == body(s, to)
  {
  }

  /** What is raised ends the loop. */
  lemma RaisedEnds<S>(init: S, body: (S, nat) -> Result<S, Error>, from: nat, n: nat, to: nat)
    requires n <= to && Loop(init, body, from, n).Err?
    ensures Loop(init, body, from, to) == Loop(init, body, from, n)
  {
    Stays((k: nat) => Loop(init, body, from, k), (v: Result<S, Error>) => v.Err?, n, to);
  }

  // ----- The engine

  /** A strategy is a function of its context; the history's hash is some function of the history. */
  datatype BacktestEngine = BacktestEngine(
    strategy: StrategyContext -> Result<TargetPortfolio, Error>,
    stateHash: History -> string,
    config: BacktestConfig,
    policy: Option<PolicyConfig>)
  {
    ghost predicate Valid() {
      && config.Valid()
      && (policy.Some? ==> policy.value.Valid())
      // a TargetPortfolio that fails its own validators cannot be constructed
      && forall c :: strategy(c).Ok? ==> strategy(c).value.Valid()
    }

    function Initial(): Progress {
      Progress(config.startingCash, map[], [], 0.0, 0.0, 0.0, 0, config.startingCash, 0.0)
    }

    function ContextOf(known: History, benchmark: Symbol, decision: Time, cash: real, positions: map<Symbol, Position>,
                       nav: real): StrategyContext {
      var latest := Latest(known);
      StrategyContext(decision, config.currency, PortfolioState(cash, positions, nav), Closes(latest), Times(latest),
                      stateHash(known), known, Some(benchmark))
    }

    /** The bookkeeping after a rebalance, marked at the closes. */
    function Booked(st: Progress, t: Trading, nav: real, decision: Time, execution: Time): Progress {
      var peak := Max(st.peak, nav);
      Progress(
        t.cash,
        t.positions,
        st.points + [Point(decision, execution, nav, t.cash, t.turnover, t.costs,
                           map s | s in t.positions :: t.positions[s].quantity)],
        st.costs + t.costs,
        st.turnover + t.turnover,
        st.cashWeightSum + (if nav > 0.0 then t.cash / nav else 0.0),
        st.trades + t.trades,
        peak,
        if peak > 0.0 then Min(st.drawdown, nav / peak - 1.0) else st.drawdown)
    }

    /** One decision on the bars known by then, executed at the open of the next bar. */
    ghost function Trade(known: History, bars: map<Symbol, MarketBar>, benchmark: Symbol, decision: Time,
                         execution: Time, st: Progress): Result<Progress, Error> {
      var ctx := ContextOf(known, benchmark, decision, st.cash, st.positions,
                           Nav(st.cash, st.positions, Closes(Latest(known))));
      var target :- strategy(ctx);
      var plan :- PlanOf(policy, target, ctx);
      if benchmark !in bars then Ok(st)
      else
        var nav := Nav(st.cash, st.positions, Opens(bars));
        var t :- Rebalanced(Request(config.rates, nav, target.weights, Opens(bars), plan), st.cash, st.positions);
        Ok(Booked(st, t, Nav(t.cash, t.positions, Closes(bars)), decision, execution))
    }

    /** One iteration of the main loop. */
    ghost function Advance(h: History, benchmark: Symbol, start: Option<Time>, st: Progress, index: nat)
      : Result<Progress, Error>
      requires benchmark in h && index + 1 < |h[benchmark]|
    {
      var decision, execution := h[benchmark][index].timestamp, h[benchmark][index + 1].timestamp;
      if start.Some? && decision < start.value then Ok(st)
      else if benchmark !in Latest(Cut(h, decision)) then Ok(st)
      else Trade(Cut(h, decision), BarsAt(h, execution), benchmark, decision, execution, st)
    }

    ghost function Iteration(h: History, benchmark: Symbol, start: Option<Time>)
      : (Progress, nat) -> Result<Progress, Error>
      requires benchmark in h
    {
      (st: Progress, index: nat) => if index + 1 < |h[benchmark]| then Advance(h, benchmark, start, st, index)
        else Ok(st)
    }

    /** The loop up to, and including, the execution at bar `n`. */
    ghost function RunTo(h: History, benchmark: Symbol, start: Option<Time>, n: nat): Result<Progress, Error>
      requires benchmark in h && config.Valid()
    {
      Loop(Initial(), Iteration(h, benchmark, start), config.warmup - 1, n)
    }

    function Summary(st: Progress): BacktestResult
      requires config.startingCash > 0.0
    {
      var ending := if st.points == [] then config.startingCash else st.points[|st.points| - 1].nav;
      BacktestResult(
        config.startingCash, ending, ending / config.startingCash - 1.0, st.drawdown, st.costs, st.trades, st.points,
        st.turnover,
        if st.points == [] then 1.0 else st.cashWeightSum / |st.points| as real)
    }

    ghost function Backtested(h: History, benchmark: Symbol, start: Option<Time>): Result<BacktestResult, Error>
      requires config.Valid()
    {
      if benchmark !in h || |h[benchmark]| < config.warmup + 1 then Err(InsufficientHistory)
      else if !ValidHistory(h) then Err(InvalidHistory)
      else
        var st :- RunTo(h, benchmark, start, |h[benchmark]| - 1);
        Ok(Summary(st))
    }

    /** _portfolio_state: cash plus every position at its price, or at its average price where there is none. */
    method PortfolioNav(cash: real, positions: map<Symbol, Position>, prices: map<Symbol, real>) returns (nav: real)
      ensures nav == Nav(cash, positions, prices)
    {
      nav := cash;
      var todo := positions.Keys;
      ghost var values := Values(prices, positions);
      ghost var rest := values;
      while todo != {}
        invariant todo == rest.Keys <= values.Keys
        invariant forall s :: s in rest ==> rest[s] == values[s]
        invariant nav + MapSum.Sum(rest) == cash + MapSum.Sum(values)
        decreases todo
      {
        var s :| s in todo;
        MapSum.Take(rest, s);
        rest := rest - {s};
        todo := todo - {s};
        nav := nav + MarkedValue(prices, s, positions[s]);
      }
      assert rest == map[];
    }

    method TradeOnce(known: History, bars: map<Symbol, MarketBar>, benchmark: Symbol, decision: Time, execution: Time,
                     st: Progress)
        returns (res: Result<Progress, Error>)
      ensures res == Trade(known, bars, benchmark, decision, execution, st)
    {
      var marked := PortfolioNav(st.cash, st.positions, Closes(Latest(known)));
      var ctx := ContextOf(known, benchmark, decision, st.cash, st.positions, marked);
      var target :- strategy(ctx);
      var plan := None;
      if policy.Some? {
        var planned :- Plan(policy.value, target, ctx);
        plan := Some(planned);
      }
      if benchmark !in bars {
        return Ok(st);
      }
      var nav := PortfolioNav(st.cash, st.positions, Opens(bars));
      var t :- Rebalance(Request(config.rates, nav, target.weights, Opens(bars), plan), st.cash, st.positions);
      var closing := PortfolioNav(t.cash, t.positions, Closes(bars));
      return Ok(Booked(st, t, closing, decision, execution));
    }

    method AdvanceOnce(h: History, benchmark: Symbol, start: Option<Time>, st: Progress, index: nat)
      returns (res: Result<Progress, Error>)
      requires benchmark in h && index + 1 < |h[benchmark]|
      ensures res == Advance(h, benchmark, start, st, index)
    {
      var decision, execution := h[benchmark][index].timestamp, h[benchmark][index + 1].timestamp;
      if start.Some? && decision < start.value {
        return Ok(st);
      }
      var known := Cut(h, decision);
      if benchmark !in Latest(known) {
        return Ok(st);
      }
      res := TradeOnce(known, BarsAt(h, execution), benchmark, decision, execution, st);
    }

    method RunLoop(h: History, benchmark: Symbol, start: Option<Time>) returns (res: Result<Progress, Error>)
      requires config.Valid() && benchmark in h && |h[benchmark]| > config.warmup
      ensures res == RunTo(h, benchmark, start, |h[benchmark]| - 1)
    {
      var st := Initial();
      hide Advance;
      ghost var body := Iteration(h, benchmark, start);
      for index := config.warmup - 1 to |h[benchmark]| - 1
        invariant Loop(Initial(), body, config.warmup - 1, index) == Ok(st)
      {
        var next := AdvanceOnce(h, benchmark, start, st, index);
        IterationIs(h, benchmark, start, st, index);
        LoopStep(Initial(), body, config.warmup - 1, index, st);
        if next.Err? {
          RaisedEnds(Initial(), body, config.warmup - 1, index + 1, |h[benchmark]| - 1);
          return next;
        }
        st := next.value;
      }
      return Ok(st);
    }

    method Run(h: History, benchmark: Symbol, start: Option<Time>) returns (res: Result<BacktestResult, Error>)
      requires config.Valid()
      ensures res == Backtested(h, benchmark, start)
    {
      if benchmark !in h || |h[benchmark]| < config.warmup + 1 {
        return Err(InsufficientHistory);
      }
      if !ValidHistory(h) {
        return Err(InvalidHistory);
      }
      var st :- RunLoop(h, benchmark, start);
      return Ok(Summary(st));
    }

    lemma IterationIs(h: History, benchmark: Symbol, start: Option<Time>, st: Progress, index: nat)
      requires benchmark in h && index + 1 < |h[benchmark]|
      ensures Iteration(h, benchmark, start)(st, index) == Advance(h, benchmark, start, st, index)
    {
    }
  }
}
