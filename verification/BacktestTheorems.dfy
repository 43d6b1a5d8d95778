/** What every run of the replay engine keeps (backtest/engine.py:97-235). */
module BacktestTheorems {
  import opened Wrappers
  import opened Domain
  import opened Contracts
  import opened RebalancePolicy
  import opened Rebalancing
  import opened RebalanceTheorems
  import opened Arithmetic
  import opened Backtest
  import opened NoLookAhead
  import MapSum

  predicate PositivePrices(prices: map<Symbol, real>) {
    forall s :: s in prices ==> prices[s] > 0.0
  }

  lemma NavAtLeastCash(cash: real, positions: map<Symbol, Position>, prices: map<Symbol, real>)
    requires Sound(cash, positions) && PositivePrices(prices)
    ensures Nav(cash, positions, prices) >= cash >= 0.0
  {
    forall s | s in positions
      ensures Values(prices, positions)[s] >= 0.0
    {
      Scale(positions[s].quantity, 0.0, Mark(prices, s, positions[s]));
    }
    MapSum.NonNegative(Values(prices, positions));
  }

  lemma {:induction false} UntilKeeps(bars: seq<MarketBar>, t: Time)
    ensures forall b :: b in Until(bars, t) ==> b in bars && b.timestamp <= t
    ensures StrictlyIncreasing(bars) ==> StrictlyIncreasing(Until(bars, t))
  {
    if bars != [] {
      UntilKeeps(bars[..|bars| - 1], t);
    }
    if StrictlyIncreasing(bars) {
      UntilIsPrefix(bars, t);
    }
  }

  lemma BarAtIsABar(bars: seq<MarketBar>, t: Time)
    ensures BarAt(bars, t).Some? ==> BarAt(bars, t).value in bars && BarAt(bars, t).value.timestamp == t
  {
  }

  predicate ValidPrices(bars: map<Symbol, MarketBar>) {
    forall s :: s in bars ==> bars[s].Valid()
  }

  lemma KnownIsValid(h: History, t: Time)
    requires ValidBars(h)
    ensures ValidPrices(Latest(Cut(h, t))) && ValidPrices(BarsAt(h, t))
    ensures forall s :: s in Latest(Cut(h, t)) ==> Latest(Cut(h, t))[s].timestamp <= t
  {
    forall s | s in h
      ensures forall b :: b in Until(h[s], t) ==> b.Valid() && b.timestamp <= t
      ensures BarAt(h[s], t).Some? ==> BarAt(h[s], t).value.Valid()
    {
      UntilKeeps(h[s], t);
      BarAtIsABar(h[s], t);
    }
  }

  /** What the engine shows a strategy passes the context's validators: nothing in it is from after the decision. */
  lemma ContextIsValid(e: BacktestEngine, h: History, benchmark: Symbol, decision: Time, cash: real,
                       positions: map<Symbol, Position>)
    requires ValidHistory(h) && ValidBars(h) && benchmark in h && Sound(cash, positions)
    ensures var known := Cut(h, decision);
            e.ContextOf(known, benchmark, decision, cash, positions,
                        Nav(cash, positions, Closes(Latest(known)))).Valid()
  {
    var known := Cut(h, decision);
    KnownIsValid(h, decision);
    NavAtLeastCash(cash, positions, Closes(Latest(known)));
    forall s | s in known
      ensures StrictlyIncreasing(known[s]) && forall i :: 0 <= i < |known[s]| ==> known[s][i].timestamp <= decision
    {
      UntilKeeps(h[s], decision);
    }
  }

  ghost function Decision(e: BacktestEngine, known: History, benchmark: Symbol, decision: Time, st: Progress)
    : StrategyContext
  {
    e.ContextOf(known, benchmark, decision, st.cash, st.positions, Nav(st.cash, st.positions, Closes(Latest(known))))
  }

  ghost predicate Books(e: BacktestEngine, st: Progress)
    requires e.Valid()
  {
    Sound(st.cash, st.positions) && CostBound(e.config.rates, st.costs, st.turnover)
  }

  /** The request of a decision is one the rebalance accepts. */
  lemma RequestIsValid(e: BacktestEngine, c: StrategyContext, st: Progress, bars: map<Symbol, MarketBar>,
                       plan: Option<RebalancePlan>)
    requires e.Valid() && Sound(st.cash, st.positions) && ValidPrices(bars) && e.strategy(c).Ok?
    ensures Request(e.config.rates, Nav(st.cash, st.positions, Opens(bars)), e.strategy(c).value.weights, Opens(bars),
                    plan).Valid()
  {
    NavAtLeastCash(st.cash, st.positions, Opens(bars));
    assert e.strategy(c).value.Valid();
  }

  /**
    One decision and its execution: it fails only if the strategy or the plan does, and it keeps the books,
    losing at the execution's opens exactly the costs it adds.
   */
  lemma TradeKeepsBooks(e: BacktestEngine, known: History, bars: map<Symbol, MarketBar>, benchmark: Symbol,
                        decision: Time, execution: Time, st: Progress)
    requires e.Valid() && Books(e, st) && ValidPrices(bars)
    ensures var c := Decision(e, known, benchmark, decision, st);
            e.Trade(known, bars, benchmark, decision, execution, st).Err?
            <==> e.strategy(c).Err? || PlanOf(e.policy, e.strategy(c).value, c).Err?
    ensures e.Trade(known, bars, benchmark, decision, execution, st).Ok? ==>
              var next := e.Trade(known, bars, benchmark, decision, execution, st).value;
              && Books(e, next)
              && Nav(next.cash, next.positions, Opens(bars)) + (next.costs - st.costs)
                 == Nav(st.cash, st.positions, Opens(bars))
  {
    hide CostBound, Nav, Rebalanced, Rates.Worst;
    var c := Decision(e, known, benchmark, decision, st);
    if e.strategy(c).Ok? && PlanOf(e.policy, e.strategy(c).value, c).Ok? && benchmark in bars {
      var plan := PlanOf(e.policy, e.strategy(c).value, c).value;
      RequestIsValid(e, c, st, bars, plan);
      var r := Request(e.config.rates, Nav(st.cash, st.positions, Opens(bars)), e.strategy(c).value.weights,
                       Opens(bars), plan);
      RebalanceConserves(r, st.cash, st.positions);
      var t := Rebalanced(r, st.cash, st.positions).value;
      CostsAdd(e.config.rates, st.costs, st.turnover, t.costs, t.turnover, st.costs + t.costs,
               st.turnover + t.turnover);
    }
  }

  // ----- Drawdown

  /** `low` is at least the fraction `1 + d` of an earlier `high`. */
  predicate Within(high: real, low: real, d: real) {
    low >= (1.0 + d) * high
  }

  predicate Highest(start: real, points: seq<Point>, peak: real) {
    && peak >= start
    && (forall i :: 0 <= i < |points| ==> points[i].nav <= peak)
    && (peak == start || exists i :: 0 <= i < |points| && points[i].nav == peak)
  }

  /** No value is further below an earlier one than `d` says. */
  predicate WorstLoss(start: real, points: seq<Point>, d: real) {
    && -1.0 <= d <= 0.0
    && (forall j :: 0 <= j < |points| ==> Within(start, points[j].nav, d))
    && (forall i, j :: 0 <= i <= j < |points| ==> Within(points[i].nav, points[j].nav, d))
  }

  predicate Exactly(high: real, low: real, d: real) {
    high > 0.0 && low == (1.0 + d) * high
  }

  /** Some value is exactly that far below an earlier one. */
  predicate LossOccurs(start: real, points: seq<Point>, d: real) {
    || d == 0.0
    || (exists j :: 0 <= j < |points| && Exactly(start, points[j].nav, d))
    || (exists i, j :: 0 <= i <= j < |points| && Exactly(points[i].nav, points[j].nav, d))
  }

  predicate DrawdownIs(start: real, points: seq<Point>, peak: real, d: real) {
    && start > 0.0
    && (forall i :: 0 <= i < |points| ==> points[i].nav >= 0.0)
    && Highest(start, points, peak) && WorstLoss(start, points, d) && LossOccurs(start, points, d)
  }

  lemma WithinWeaker(high: real, low: real, d: real, d2: real)
    requires Within(high, low, d) && d2 <= d && high >= 0.0
    ensures Within(high, low, d2)
  {
    Scale(high, 1.0 + d2, 1.0 + d);
  }

  lemma WithinLower(high: real, high2: real, low: real, d: real)
    requires Within(high, low, d) && high2 <= high && d >= -1.0
    ensures Within(high2, low, d)
  {
    Scale(1.0 + d, high2, high);
  }

  lemma LossFromPeak(nav: real, peak: real)
    requires 0.0 <= nav <= peak && peak > 0.0
    ensures -1.0 <= nav / peak - 1.0 <= 0.0 && Exactly(peak, nav, nav / peak - 1.0)
  {
    assert (nav / peak) * peak == nav;
    QuotientOrder(nav, 1.0, peak);
  }

  lemma ExactlyIsWithin(high: real, low: real, d: real)
    requires Exactly(high, low, d)
    ensures Within(high, low, d)
  {
  }

  lemma DrawdownGrows(start: real, points: seq<Point>, peak: real, d: real, p: Point, peak2: real, d2: real)
    requires DrawdownIs(start, points, peak, d) && p.nav >= 0.0
    requires peak2 == Max(peak, p.nav) && d2 == Min(d, p.nav / peak2 - 1.0)
    ensures DrawdownIs(start, points + [p], peak2, d2)
  {
    hide Within, Exactly, LossOccurs;
    PeakGrows(start, points, peak, p, peak2);
    LossFromPeak(p.nav, peak2);
    ExactlyIsWithin(peak2, p.nav, p.nav / peak2 - 1.0);
    WithinWeaker(peak2, p.nav, p.nav / peak2 - 1.0, d2);
    LossGrows(start, points, peak2, d, d2, p);
    if d2 == d {
      LossOccursStill(start, points, d, p);
    } else {
      LossOccursNow(start, points, peak2, d2, p);
    }
  }

  lemma PeakGrows(start: real, points: seq<Point>, peak: real, p: Point, peak2: real)
    requires Highest(start, points, peak) && peak2 == Max(peak, p.nav)
    ensures Highest(start, points + [p], peak2)
  {
    if peak2 == p.nav {
      assert (points + [p])[|points|].nav == peak2;
    } else if i :| 0 <= i < |points| && points[i].nav == peak {
      assert (points + [p])[i].nav == peak2;
    }
  }

  lemma LossGrows(start: real, points: seq<Point>, peak: real, d: real, d2: real, p: Point)
    requires start > 0.0 && WorstLoss(start, points, d) && -1.0 <= d2 <= d
    requires Highest(start, points + [p], peak) && Within(peak, p.nav, d2)
    requires forall i :: 0 <= i < |points| ==> points[i].nav >= 0.0
    ensures WorstLoss(start, points + [p], d2)
  {
    hide Within;
    var longer := points + [p];
    forall j | 0 <= j < |longer|
      ensures Within(start, longer[j].nav, d2)
    {
      if j < |points| {
        WithinWeaker(start, points[j].nav, d, d2);
      } else {
        WithinLower(peak, start, p.nav, d2);
      }
    }
    forall i, j | 0 <= i <= j < |longer|
      ensures Within(longer[i].nav, longer[j].nav, d2)
    {
      if j < |points| {
        WithinWeaker(points[i].nav, points[j].nav, d, d2);
      } else {
        WithinLower(peak, longer[i].nav, p.nav, d2);
      }
    }
  }

  lemma LossOccursStill(start: real, points: seq<Point>, d: real, p: Point)
    requires LossOccurs(start, points, d)
    ensures LossOccurs(start, points + [p], d)
  {
    hide Exactly;
    var longer := points + [p];
    if j :| 0 <= j < |points| && Exactly(start, points[j].nav, d) {
      assert Exactly(start, longer[j].nav, d);
    } else if i, j :| 0 <= i <= j < |points| && Exactly(points[i].nav, points[j].nav, d) {
      assert Exactly(longer[i].nav, longer[j].nav, d);
    }
  }

  lemma LossOccursNow(start: real, points: seq<Point>, peak: real, d: real, p: Point)
    requires Highest(start, points + [p], peak) && Exactly(peak, p.nav, d)
    ensures LossOccurs(start, points + [p], d)
  {
    hide Exactly;
    var longer := points + [p];
    assert longer[|points|].nav == p.nav;
    if peak != start {
      var i :| 0 <= i < |longer| && longer[i].nav == peak;
      assert Exactly(longer[i].nav, longer[|points|].nav, d);
    }
  }

  // ----- The whole run

  function CostsOf(points: seq<Point>): real {
    if points == [] then 0.0 else CostsOf(points[..|points| - 1]) + points[|points| - 1].costs
  }

  function TurnoverOf(points: seq<Point>): real {
    if points == [] then 0.0 else TurnoverOf(points[..|points| - 1]) + points[|points| - 1].turnover
  }

  function CashWeightsOf(points: seq<Point>): real {
    if points == [] then 0.0
    else
      var last := points[|points| - 1];
      CashWeightsOf(points[..|points| - 1]) + if last.nav > 0.0 then last.cash / last.nav else 0.0
  }

  /** The running totals are those of the points, and the last point shows the books. */
  predicate PointsShow(st: Progress) {
    && st.costs == CostsOf(st.points) && st.turnover == TurnoverOf(st.points)
    && st.cashWeightSum == CashWeightsOf(st.points)
    && (st.points != [] ==>
          var last := st.points[|st.points| - 1];
          && last.cash == st.cash && last.positions.Keys == st.positions.Keys
          && forall s :: s in st.positions ==> last.positions[s] == st.positions[s].quantity)
  }

  ghost predicate Kept(e: BacktestEngine, st: Progress)
    requires e.Valid()
  {
    Books(e, st) && PointsShow(st) && DrawdownIs(e.config.startingCash, st.points, st.peak, st.drawdown)
  }

  lemma BookedKeepsDrawdown(e: BacktestEngine, st: Progress, t: Trading, nav: real, decision: Time, execution: Time)
    requires PointsShow(st) && DrawdownIs(e.config.startingCash, st.points, st.peak, st.drawdown) && nav >= 0.0
    ensures var next := e.Booked(st, t, nav, decision, execution);
            PointsShow(next) && DrawdownIs(e.config.startingCash, next.points, next.peak, next.drawdown)
  {
    hide DrawdownIs;
    var next := e.Booked(st, t, nav, decision, execution);
    assert next.points[..|st.points|] == st.points;
    PeakIsPositive(e.config.startingCash, st.points, st.peak, st.drawdown);
    DrawdownGrows(e.config.startingCash, st.points, st.peak, st.drawdown, next.points[|st.points|], next.peak,
                  next.drawdown);
  }

  lemma PeakIsPositive(start: real, points: seq<Point>, peak: real, d: real)
    requires DrawdownIs(start, points, peak, d)
    ensures peak > 0.0
  {
  }

  lemma TradeKeepsDrawdown(e: BacktestEngine, known: History, bars: map<Symbol, MarketBar>, benchmark: Symbol,
                           decision: Time, execution: Time, st: Progress)
    requires e.Valid() && Books(e, st) && ValidPrices(bars)
    requires PointsShow(st) && DrawdownIs(e.config.startingCash, st.points, st.peak, st.drawdown)
    requires e.Trade(known, bars, benchmark, decision, execution, st).Ok?
    ensures var next := e.Trade(known, bars, benchmark, decision, execution, st).value;
            PointsShow(next) && DrawdownIs(e.config.startingCash, next.points, next.peak, next.drawdown)
  {
    hide DrawdownIs, PointsShow, CostBound, Nav, Rebalanced, BacktestEngine.Booked;
    if benchmark in bars {
      var c := Decision(e, known, benchmark, decision, st);
      var plan := PlanOf(e.policy, e.strategy(c).value, c).value;
      RequestIsValid(e, c, st, bars, plan);
      var r := Request(e.config.rates, Nav(st.cash, st.positions, Opens(bars)), e.strategy(c).value.weights,
                       Opens(bars), plan);
      RebalanceConserves(r, st.cash, st.positions);
      var t := Rebalanced(r, st.cash, st.positions).value;
      NavAtLeastCash(t.cash, t.positions, Closes(bars));
      BookedKeepsDrawdown(e, st, t, Nav(t.cash, t.positions, Closes(bars)), decision, execution);
    }
  }

  lemma IterationKeeps(e: BacktestEngine, h: History, benchmark: Symbol, start: Option<Time>, st: Progress, n: nat)
    requires e.Valid() && ValidBars(h) && benchmark in h && n + 1 < |h[benchmark]| && Kept(e, st)
    ensures var res := e.Iteration(h, benchmark, start)(st, n);
            && (res.Ok? ==> Kept(e, res.value))
            && (res.Err? ==> Refused(e, res.error))
  {
    hide DrawdownIs, PointsShow, Books, BacktestEngine.Trade;
    e.IterationIs(h, benchmark, start, st, n);
    var decision, execution := h[benchmark][n].timestamp, h[benchmark][n + 1].timestamp;
    KnownIsValid(h, execution);
    TradeRefused(e, Cut(h, decision), BarsAt(h, execution), benchmark, decision, execution, st);
    if e.Trade(Cut(h, decision), BarsAt(h, execution), benchmark, decision, execution, st).Ok? {
      TradeKeepsDrawdown(e, Cut(h, decision), BarsAt(h, execution), benchmark, decision, execution, st);
    }
  }

  ghost predicate RefusedAt(e: BacktestEngine, c: StrategyContext, error: Error) {
    e.strategy(c) == Err(error) || (e.strategy(c).Ok? && PlanOf(e.policy, e.strategy(c).value, c) == Err(error))
  }

  /** The strategy raised the error for some context, or the plan did for its target. */
  ghost predicate Refused(e: BacktestEngine, error: Error) {
    exists c :: RefusedAt(e, c, error)
  }

  lemma TradeRefused(e: BacktestEngine, known: History, bars: map<Symbol, MarketBar>, benchmark: Symbol,
                     decision: Time, execution: Time, st: Progress)
    requires e.Valid() && Books(e, st) && ValidPrices(bars)
    ensures var res := e.Trade(known, bars, benchmark, decision, execution, st);
            && (res.Err? ==> Refused(e, res.error))
            && (res.Ok? ==> Books(e, res.value))
  {
    hide Books, CostBound;
    TradeKeepsBooks(e, known, bars, benchmark, decision, execution, st);
    var res := e.Trade(known, bars, benchmark, decision, execution, st);
    if res.Err? {
      assert RefusedAt(e, Decision(e, known, benchmark, decision, st), res.error);
    }
  }

  lemma InitialKept(e: BacktestEngine)
    requires e.Valid()
    ensures Kept(e, e.Initial())
  {
  }

  lemma {:induction false} RunKeeps(e: BacktestEngine, h: History, benchmark: Symbol, start: Option<Time>, n: nat)
    requires e.Valid() && ValidBars(h) && benchmark in h && n < |h[benchmark]|
    ensures var res := e.RunTo(h, benchmark, start, n);
            && (res.Ok? ==> Kept(e, res.value))
            && (res.Err? ==> Refused(e, res.error))
  {
    hide Kept, Refused, BacktestEngine.Iteration, BacktestEngine.Initial;
    if n <= e.config.warmup - 1 {
      InitialKept(e);
    } else {
      RunKeeps(e, h, benchmark, start, n - 1);
      if e.RunTo(h, benchmark, start, n - 1).Ok? {
        IterationKeeps(e, h, benchmark, start, e.RunTo(h, benchmark, start, n - 1).value, n - 1);
      }
    }
  }

  /**
    A backtest fails only where its strategy or its plan refuses a decision: it never runs out of cash.  Its total
    cost is bounded by its total turnover, and its drawdown is the worst loss from an earlier value.
   */
  lemma BacktestIsSound(e: BacktestEngine, h: History, benchmark: Symbol, start: Option<Time>)
    requires e.Valid() && ValidBars(h) && ValidHistory(h) && benchmark in h && |h[benchmark]| > e.config.warmup
    ensures e.Backtested(h, benchmark, start).Err? ==> Refused(e, e.Backtested(h, benchmark, start).error)
    ensures e.Backtested(h, benchmark, start).Ok? ==>
              var r := e.Backtested(h, benchmark, start).value;
              && CostBound(e.config.rates, r.totalCosts, r.totalTurnover)
              && r.totalCosts == CostsOf(r.points) && r.totalTurnover == TurnoverOf(r.points)
              && r.averageCashWeight == (if r.points == [] then 1.0 else CashWeightsOf(r.points) / |r.points| as real)
              && WorstLoss(e.config.startingCash, r.points, r.maxDrawdown)
              && LossOccurs(e.config.startingCash, r.points, r.maxDrawdown)
  {
    hide WorstLoss, LossOccurs, Highest, CostBound, Sound, BacktestEngine.RunTo, Refused;
    RunKeeps(e, h, benchmark, start, |h[benchmark]| - 1);
  }
}
