/**
  What the points of a replay are, on the history itself: what the strategy was shown, at which prices its target was
  traded, and what the books were worth at the close (backtest/engine.py:119-235).
 */
module BacktestPoints {
  import opened Wrappers
  import opened Domain
  import opened Contracts
  import opened Symbols
  import opened RebalancePolicy
  import opened Rebalancing
  import opened RebalanceTheorems
  import opened Turnover
  import opened Backtest
  import opened BacktestTheorems
  import MapSum

  // ----- Prices of the history

  datatype Quote = AtOpen | AtClose

  function Quoted(b: MarketBar, q: Quote): real {
    if q == AtOpen then b.open else b.close
  }

  predicate BarOf(h: History, s: Symbol, t: Time, b: MarketBar) {
    s in h && b in h[s] && b.timestamp == t
  }

  /** The newest bar of the symbol by then. */
  predicate NewestBy(h: History, s: Symbol, t: Time, b: MarketBar) {
    s in h && b in h[s] && b.timestamp <= t && forall x :: x in h[s] && x.timestamp <= t ==> x.timestamp <= b.timestamp
  }

  /** The price of a share at an open or a close: that of its symbol's bar, the average price where there is none. */
  ghost predicate PriceAt(h: History, s: Symbol, t: Time, q: Quote, average: real, price: real) {
    if exists b :: BarOf(h, s, t, b) then exists b :: BarOf(h, s, t, b) && price == Quoted(b, q) else price == average
  }

  /** The price of a share at a decision: the close of the newest bar by then, the average price where there is none. */
  ghost predicate PriceBy(h: History, s: Symbol, t: Time, average: real, price: real) {
    if exists b :: NewestBy(h, s, t, b) then exists b :: NewestBy(h, s, t, b) && price == b.close else price == average
  }

  /** Cash and all positions, at an open or a close. */
  ghost predicate Worth(h: History, t: Time, q: Quote, cash: real, positions: map<Symbol, Position>, worth: real) {
    exists values: map<Symbol, real> ::
      && values.Keys == positions.Keys && worth == cash + MapSum.Sum(values)
      && forall s :: s in values ==>
           exists price :: PriceAt(h, s, t, q, positions[s].averagePrice, price)
                           && values[s] == positions[s].quantity * price
  }

  ghost predicate WorthBy(h: History, t: Time, cash: real, positions: map<Symbol, Position>, worth: real) {
    exists values: map<Symbol, real> ::
      && values.Keys == positions.Keys && worth == cash + MapSum.Sum(values)
      && forall s :: s in values ==>
           exists price :: PriceBy(h, s, t, positions[s].averagePrice, price)
                           && values[s] == positions[s].quantity * price
  }

  lemma {:induction false} BarAtIs(bars: seq<MarketBar>, t: Time)
    ensures BarAt(bars, t).Some? ==> BarAt(bars, t).value in bars && BarAt(bars, t).value.timestamp == t
    ensures BarAt(bars, t).None? ==> forall b :: b in bars ==> b.timestamp != t
  {
    if bars != [] && bars[0].timestamp != t {
      BarAtIs(bars[1..], t);
      assert bars == [bars[0]] + bars[1..];
    }
  }

  lemma {:induction false} UntilIs(bars: seq<MarketBar>, t: Time)
    ensures forall b :: b in Until(bars, t) <==> b in bars && b.timestamp <= t
  {
    if bars != [] {
      UntilIs(bars[..|bars| - 1], t);
      assert bars == bars[..|bars| - 1] + [bars[|bars| - 1]];
    }
  }

  lemma LatestIsNewest(h: History, s: Symbol, t: Time)
    requires s in h && StrictlyIncreasing(h[s])
    ensures s in Latest(Cut(h, t)) <==> exists b :: NewestBy(h, s, t, b)
    ensures s in Latest(Cut(h, t)) ==> NewestBy(h, s, t, Latest(Cut(h, t))[s])
  {
    var known := Until(h[s], t);
    UntilIs(h[s], t);
    UntilKeeps(h[s], t);
    if b :| NewestBy(h, s, t, b) {
      assert b in known;
    }
    if known != [] {
      var last := known[|known| - 1];
      assert last in known;
      forall x | x in h[s] && x.timestamp <= t
        ensures x.timestamp <= last.timestamp
      {
        assert x in known;
      }
      assert NewestBy(h, s, t, last);
    }
  }

  function Quotes(bars: map<Symbol, MarketBar>, q: Quote): map<Symbol, real> {
    if q == AtOpen then Opens(bars) else Closes(bars)
  }

  lemma QuotesAre(h: History, t: Time, q: Quote, s: Symbol, average: real)
    ensures var prices := Quotes(BarsAt(h, t), q);
            && (s in prices <==> exists b :: BarOf(h, s, t, b))
            && (s in prices ==> exists b :: BarOf(h, s, t, b) && prices[s] == Quoted(b, q))
            && PriceAt(h, s, t, q, average, if s in prices then prices[s] else average)
  {
    if s in h {
      BarAtIs(h[s], t);
      if BarAt(h[s], t).Some? {
        assert BarOf(h, s, t, BarAt(h[s], t).value);
      }
    }
  }

  lemma NavIsWorth(h: History, t: Time, q: Quote, cash: real, positions: map<Symbol, Position>)
    ensures Worth(h, t, q, cash, positions, Nav(cash, positions, Quotes(BarsAt(h, t), q)))
  {
    hide MapSum.Sum, PriceAt, Quotes, BarsAt;
    var prices := Quotes(BarsAt(h, t), q);
    var values := Values(prices, positions);
    forall s | s in values
      ensures PriceAt(h, s, t, q, positions[s].averagePrice, Mark(prices, s, positions[s]))
              && values[s] == positions[s].quantity * Mark(prices, s, positions[s])
    {
      QuotesAre(h, t, q, s, positions[s].averagePrice);
    }
  }

  lemma NavIsWorthBy(h: History, t: Time, cash: real, positions: map<Symbol, Position>)
    requires ValidHistory(h)
    ensures WorthBy(h, t, cash, positions, Nav(cash, positions, Closes(Latest(Cut(h, t)))))
  {
    hide MapSum.Sum, Latest, Cut, NewestBy;
    var prices := Closes(Latest(Cut(h, t)));
    var values := Values(prices, positions);
    forall s | s in values
      ensures PriceBy(h, s, t, positions[s].averagePrice, Mark(prices, s, positions[s]))
              && values[s] == positions[s].quantity * Mark(prices, s, positions[s])
    {
      if s in h {
        LatestIsNewest(h, s, t);
      } else {
        NotListed(h, s, t);
      }
    }
  }

  lemma NotListed(h: History, s: Symbol, t: Time)
    requires s !in h
    ensures s !in Latest(Cut(h, t)) && forall b :: !NewestBy(h, s, t, b)
  {
  }

  // ----- What the strategy is shown

  /** The portfolio at its decision prices, the newest closes with their times, and every bar by then. */
  ghost predicate Shown(e: BacktestEngine, h: History, benchmark: Symbol, t: Time, st: Progress, c: StrategyContext) {
    && c.asOf == t && c.currency == e.config.currency && c.benchmark == Some(benchmark)
    && c.portfolio.cash == st.cash && c.portfolio.positions == st.positions
    && WorthBy(h, t, st.cash, st.positions, c.portfolio.nav)
    && c.history.Keys == h.Keys
    && (forall s, b :: s in h ==> (b in c.history[s] <==> b in h[s] && b.timestamp <= t))
    && (forall s :: s in h ==> StrictlyIncreasing(c.history[s]))
    && c.referencePrices.Keys == c.referenceTimes.Keys
    && (forall s :: s in c.referencePrices <==> exists b :: NewestBy(h, s, t, b))
    && (forall s :: s in c.referencePrices ==>
          exists b :: NewestBy(h, s, t, b) && c.referencePrices[s] == b.close && c.referenceTimes[s] == b.timestamp)
    && c.stateHash == e.stateHash(c.history)
  }

  lemma ContextIsShown(e: BacktestEngine, h: History, benchmark: Symbol, t: Time, st: Progress)
    requires ValidHistory(h)
    ensures Shown(e, h, benchmark, t, st, Decision(e, Cut(h, t), benchmark, t, st))
  {
    hide WorthBy, NewestBy, Latest, Nav, StrictlyIncreasing, Until;
    var c := Decision(e, Cut(h, t), benchmark, t, st);
    NavIsWorthBy(h, t, st.cash, st.positions);
    forall s | s in h
      ensures StrictlyIncreasing(c.history[s]) && forall b :: b in c.history[s] <==> b in h[s] && b.timestamp <= t
      ensures s in c.referencePrices <==> exists b :: NewestBy(h, s, t, b)
      ensures s in c.referencePrices ==> NewestBy(h, s, t, Latest(Cut(h, t))[s])
    {
      UntilIs(h[s], t);
      UntilKeeps(h[s], t);
      LatestIsNewest(h, s, t);
    }
    forall s | s !in h
      ensures s !in c.referencePrices && forall b :: !NewestBy(h, s, t, b)
    {
      NotListed(h, s, t);
    }
  }

  // ----- One decision and its execution

  /** What is asked of the rebalance: the target, at the opens, of what the books are worth there. */
  ghost predicate Asked(e: BacktestEngine, h: History, t: Time, st: Progress, target: TargetPortfolio,
                        plan: Option<RebalancePlan>, r: Request) {
    && r.rates == e.config.rates && r.weights == target.weights && r.plan == plan
    && Worth(h, t, AtOpen, st.cash, st.positions, r.nav)
    && (forall s :: s in r.prices <==> exists b :: BarOf(h, s, t, b))
    && forall s :: s in r.prices ==> exists b :: BarOf(h, s, t, b) && r.prices[s] == b.open
  }

  /** The strategy's target was traded at the opens as far as it goes, at the turnover and the costs the point shows. */
  ghost predicate Traded(e: BacktestEngine, h: History, benchmark: Symbol, decision: Time, prev: Progress,
                         next: Progress, p: Point, c: StrategyContext, target: TargetPortfolio,
                         plan: Option<RebalancePlan>, r: Request) {
    && Shown(e, h, benchmark, decision, prev, c)
    && e.strategy(c) == Ok(target) && PlanOf(e.policy, target, c) == Ok(plan)
    && Asked(e, h, p.executionTime, prev, target, plan, r)
    && (forall s: Symbol :: Fate(r, prev.positions, next.positions, next.cash, s))
    && Worth(h, p.executionTime, AtOpen, next.cash, next.positions, r.nav - p.costs)
    && p.turnover == PaidOver(r, prev.positions, next.positions, Sorted(Universe(prev.positions, target.weights)))
    && p.costs == LostOver(r, prev.positions, next.positions, Sorted(Universe(prev.positions, target.weights)))
    && next.trades - prev.trades
       == |set s | s in Universe(prev.positions, target.weights)
                   && QuantityOf(prev.positions, s) != QuantityOf(next.positions, s)|
  }

  /** The point shows the books, and what they are worth at the close of the bars of its execution. */
  ghost predicate Shows(h: History, next: Progress, p: Point) {
    && p.cash == next.cash && p.positions.Keys == next.positions.Keys
    && (forall s :: s in p.positions ==> p.positions[s] == next.positions[s].quantity)
    && Worth(h, p.executionTime, AtClose, next.cash, next.positions, p.nav)
  }

  ghost predicate Executed(e: BacktestEngine, h: History, benchmark: Symbol, decision: Time, execution: Time,
                           prev: Progress, next: Progress, p: Point) {
    && next.points == prev.points + [p] && p.decisionTime == decision && p.executionTime == execution
    && Shows(h, next, p)
    && exists c, target, plan, r :: Traded(e, h, benchmark, decision, prev, next, p, c, target, plan, r)
  }

  lemma RebalanceIsTraded(e: BacktestEngine, h: History, benchmark: Symbol, decision: Time, execution: Time,
                          prev: Progress, next: Progress, p: Point, c: StrategyContext, target: TargetPortfolio,
                          plan: Option<RebalancePlan>, r: Request)
    requires e.Valid() && ValidBars(h) && ValidHistory(h) && Books(e, prev)
    requires c == Decision(e, Cut(h, decision), benchmark, decision, prev)
    requires e.strategy(c) == Ok(target) && PlanOf(e.policy, target, c) == Ok(plan)
    requires r == Request(e.config.rates, Nav(prev.cash, prev.positions, Opens(BarsAt(h, execution))), target.weights,
                          Opens(BarsAt(h, execution)), plan)
    requires Rebalanced(r, prev.cash, prev.positions).Ok?
    requires var t := Rebalanced(r, prev.cash, prev.positions).value;
             && next.cash == t.cash && next.positions == t.positions && next.trades == prev.trades + t.trades
             && p.turnover == t.turnover && p.costs == t.costs && p.executionTime == execution
    ensures Traded(e, h, benchmark, decision, prev, next, p, c, target, plan, r)
  {
    hide Nav, Rebalanced, Shown, Worth, PaidOver, LostOver, Fate, Sorted, Basis, CostBound, BarsAt, BarOf,
      BacktestEngine.ContextOf;
    KnownIsValid(h, execution);
    RequestIsValid(e, c, prev, BarsAt(h, execution), plan);
    ContextIsShown(e, h, benchmark, decision, prev);
    NavIsWorth(h, execution, AtOpen, prev.cash, prev.positions);
    NavIsWorth(h, execution, AtOpen, next.cash, next.positions);
    RebalanceConserves(r, prev.cash, prev.positions);
    TurnoverIsPaid(r, prev.cash, prev.positions);
    TradesAreChanges(r, prev.cash, prev.positions);
    forall s: Symbol
      ensures Fate(r, prev.positions, next.positions, next.cash, s)
      ensures s in r.prices <==> exists b :: BarOf(h, s, execution, b)
      ensures s in r.prices ==> exists b :: BarOf(h, s, execution, b) && r.prices[s] == b.open
    {
      NoOvershoot(r, prev.cash, prev.positions, s);
      QuotesAre(h, execution, AtOpen, s, 0.0);
    }
  }

  /** One iteration adds no point and leaves the books alone, or adds the point of one executed decision. */
  lemma IterationExecutes(e: BacktestEngine, h: History, benchmark: Symbol, start: Option<Time>, prev: Progress, n: nat)
    requires e.Valid() && ValidBars(h) && ValidHistory(h) && benchmark in h && n + 1 < |h[benchmark]| && Books(e, prev)
    requires e.Iteration(h, benchmark, start)(prev, n).Ok?
    ensures var next := e.Iteration(h, benchmark, start)(prev, n).value;
            next == prev
            || (next.points != []
                && Executed(e, h, benchmark, h[benchmark][n].timestamp, h[benchmark][n + 1].timestamp, prev, next,
                            next.points[|next.points| - 1]))
  {
    hide Nav, Rebalanced, Traded, Worth, Latest, BarsAt, Until, Books;
    e.IterationIs(h, benchmark, start, prev, n);
    var decision, execution := h[benchmark][n].timestamp, h[benchmark][n + 1].timestamp;
    var next := e.Advance(h, benchmark, start, prev, n).value;
    if next != prev {
      var c := Decision(e, Cut(h, decision), benchmark, decision, prev);
      var target := e.strategy(c).value;
      var plan, bars := PlanOf(e.policy, target, c).value, BarsAt(h, execution);
      var r := Request(e.config.rates, Nav(prev.cash, prev.positions, Opens(bars)), target.weights, Opens(bars), plan);
      var p := next.points[|next.points| - 1];
      RebalanceIsTraded(e, h, benchmark, decision, execution, prev, next, p, c, target, plan, r);
      NavIsWorth(h, execution, AtClose, next.cash, next.positions);
    }
  }

  // ----- What is refused

  /** A symbol's bars can be replayed: it has a name and bars, each later than the one before. */
  predicate Replayable(s: Symbol, bars: seq<MarketBar>) {
    s != "" && |bars| > 0 && forall i :: 0 <= i < |bars| - 1 ==> bars[i].timestamp < bars[i + 1].timestamp
  }

  lemma {:induction false} AdjacentIncrease(bars: seq<MarketBar>, i: nat, j: nat)
    requires forall k :: 0 <= k < |bars| - 1 ==> bars[k].timestamp < bars[k + 1].timestamp
    requires i < j < |bars|
    ensures bars[i].timestamp < bars[j].timestamp
  {
    if i < j - 1 {
      AdjacentIncrease(bars, i, j - 1);
      assert bars[j - 1].timestamp < bars[j - 1 + 1].timestamp;
    }
  }

  lemma ReplayableIs(s: Symbol, bars: seq<MarketBar>)
    ensures Replayable(s, bars) <==> s != "" && bars != [] && StrictlyIncreasing(bars)
  {
    if Replayable(s, bars) {
      forall i, j | 0 <= i < j < |bars|
        ensures bars[i].timestamp < bars[j].timestamp
      {
        AdjacentIncrease(bars, i, j);
      }
    }
  }

  /**
    What a backtest refuses before it starts: too few bars of the benchmark, or any symbol that cannot be replayed.
    Anything else fails only where the strategy or the plan refuses a decision.
   */
  lemma BacktestRefuses(e: BacktestEngine, h: History, benchmark: Symbol, start: Option<Time>)
    requires e.Valid() && ValidBars(h)
    ensures var r := e.Backtested(h, benchmark, start);
            if benchmark !in h || |h[benchmark]| <= e.config.warmup then r == Err(InsufficientHistory)
            else if exists s :: s in h && !Replayable(s, h[s]) then r == Err(InvalidHistory)
            else r.Err? ==> Refused(e, r.error)
  {
    hide Replayable, StrictlyIncreasing, BacktestEngine.RunTo, Refused;
    forall s | s in h
      ensures Replayable(s, h[s]) <==> s != "" && h[s] != [] && StrictlyIncreasing(h[s])
    {
      ReplayableIs(s, h[s]);
    }
    if benchmark in h && |h[benchmark]| > e.config.warmup && ValidHistory(h) {
      RunKeeps(e, h, benchmark, start, |h[benchmark]| - 1);
    }
  }

  // ----- The whole run

  /** The point at `i` comes from the execution at bar `m`. */
  ghost predicate PointOf(e: BacktestEngine, h: History, benchmark: Symbol, start: Option<Time>, points: seq<Point>,
                          i: int, m: nat)
    requires e.Valid() && benchmark in h
  {
    && 0 <= i < |points| && 0 < m < |h[benchmark]|
    && e.RunTo(h, benchmark, start, m - 1).Ok? && e.RunTo(h, benchmark, start, m).Ok?
    && var prev, next := e.RunTo(h, benchmark, start, m - 1).value, e.RunTo(h, benchmark, start, m).value;
       && prev.points == points[..i] && next.points == points[..i + 1]
       && Executed(e, h, benchmark, h[benchmark][m - 1].timestamp, h[benchmark][m].timestamp, prev, next, points[i])
  }

  /** Some execution of the run produced the point at `i`. */
  ghost predicate Produced(e: BacktestEngine, h: History, benchmark: Symbol, start: Option<Time>, points: seq<Point>,
                           i: int)
    requires e.Valid() && benchmark in h
  {
    exists m: nat :: PointOf(e, h, benchmark, start, points, i, m)
  }

  ghost predicate PointsAre(e: BacktestEngine, h: History, benchmark: Symbol, start: Option<Time>, points: seq<Point>)
    requires e.Valid() && benchmark in h
  {
    forall i :: 0 <= i < |points| ==> Produced(e, h, benchmark, start, points, i)
  }

  lemma OlderPoint(e: BacktestEngine, h: History, benchmark: Symbol, start: Option<Time>, before: seq<Point>,
                   points: seq<Point>, i: int, m: nat)
    requires e.Valid() && benchmark in h && before <= points && PointOf(e, h, benchmark, start, before, i, m)
    ensures PointOf(e, h, benchmark, start, points, i, m)
  {
    hide Executed, BacktestEngine.RunTo;
    assert before[..i] == points[..i] && before[..i + 1] == points[..i + 1];
  }

  /** Every point of a run is the outcome of one decision, traded at the opens and marked at the closes. */
  lemma {:induction false} RunExecutes(e: BacktestEngine, h: History, benchmark: Symbol, start: Option<Time>, n: nat)
    requires e.Valid() && ValidBars(h) && ValidHistory(h) && benchmark in h && n < |h[benchmark]|
    requires e.RunTo(h, benchmark, start, n).Ok?
    ensures PointsAre(e, h, benchmark, start, e.RunTo(h, benchmark, start, n).value.points)
  {
    hide Executed, BacktestEngine.Iteration, Kept, Refused, PointOf;
    if n > e.config.warmup - 1 {
      RunExecutes(e, h, benchmark, start, n - 1);
      RunKeeps(e, h, benchmark, start, n - 1);
      var prev, next := e.RunTo(h, benchmark, start, n - 1).value, e.RunTo(h, benchmark, start, n).value;
      KeptBooks(e, prev);
      IterationExecutes(e, h, benchmark, start, prev, n - 1);
      NextPoints(e, h, benchmark, start, n, prev, next);
    }
  }

  lemma KeptBooks(e: BacktestEngine, st: Progress)
    requires e.Valid() && Kept(e, st)
    ensures Books(e, st)
  {
  }

  lemma NextPoints(e: BacktestEngine, h: History, benchmark: Symbol, start: Option<Time>, n: nat, prev: Progress,
                   next: Progress)
    requires e.Valid() && benchmark in h && 0 < n < |h[benchmark]|
    requires e.RunTo(h, benchmark, start, n - 1) == Ok(prev) && e.RunTo(h, benchmark, start, n) == Ok(next)
    requires PointsAre(e, h, benchmark, start, prev.points)
    requires next == prev
             || (next.points != []
                 && Executed(e, h, benchmark, h[benchmark][n - 1].timestamp, h[benchmark][n].timestamp, prev, next,
                             next.points[|next.points| - 1]))
    ensures PointsAre(e, h, benchmark, start, next.points)
  {
    hide Executed, BacktestEngine.RunTo, PointOf;
    if next != prev {
      NewestPoint(e, h, benchmark, start, n, prev, next);
      forall i | 0 <= i < |next.points|
        ensures Produced(e, h, benchmark, start, next.points, i)
      {
        if i < |prev.points| {
          assert Produced(e, h, benchmark, start, prev.points, i);
          var m: nat :| PointOf(e, h, benchmark, start, prev.points, i, m);
          OlderPoint(e, h, benchmark, start, prev.points, next.points, i, m);
        }
      }
    }
  }

  lemma NewestPoint(e: BacktestEngine, h: History, benchmark: Symbol, start: Option<Time>, n: nat, prev: Progress,
                    next: Progress)
    requires e.Valid() && benchmark in h && 0 < n < |h[benchmark]| && next.points != []
    requires e.RunTo(h, benchmark, start, n - 1) == Ok(prev) && e.RunTo(h, benchmark, start, n) == Ok(next)
    requires Executed(e, h, benchmark, h[benchmark][n - 1].timestamp, h[benchmark][n].timestamp, prev, next,
                      next.points[|next.points| - 1])
    ensures PointOf(e, h, benchmark, start, next.points, |next.points| - 1, n)
    ensures |next.points| == |prev.points| + 1 && next.points[..|prev.points|] == prev.points
  {
    hide Traded, Shows, BacktestEngine.RunTo;
    var i := |prev.points|;
    assert next.points[..i] == prev.points && next.points[..i + 1] == next.points;
  }

  /** How many quantities changed from point to point, starting with none. */
  function ChangesOf(points: seq<Point>): nat {
    if points == [] then 0
    else
      var n := |points| - 1;
      ChangesOf(points[..n]) + |Moves(if n == 0 then map[] else points[n - 1].positions, points[n].positions)|
  }

  function Shares(m: map<Symbol, real>, s: Symbol): real {
    if s in m then m[s] else 0.0
  }

  function Moves(m: map<Symbol, real>, n: map<Symbol, real>): set<Symbol> {
    set s | s in m.Keys + n.Keys && Shares(m, s) != Shares(n, s)
  }

  /** The trades counted so far are the changes from point to point, and before the first point nothing is held. */
  predicate Counted(st: Progress) {
    st.trades == ChangesOf(st.points) && (st.points == [] ==> st.positions == map[])
  }

  lemma MovesAre(prev: map<Symbol, Position>, next: map<Symbol, Position>, m: map<Symbol, real>, n: map<Symbol, real>,
                 universe: set<Symbol>)
    requires m.Keys == prev.Keys && forall s :: s in m ==> m[s] == prev[s].quantity
    requires n.Keys == next.Keys && forall s :: s in n ==> n[s] == next[s].quantity
    requires prev.Keys <= universe
    requires forall s :: s !in universe ==> QuantityOf(next, s) == 0.0
    ensures Moves(m, n) == set s | s in universe && QuantityOf(prev, s) != QuantityOf(next, s)
  {
    forall s
      ensures Shares(m, s) == QuantityOf(prev, s) && Shares(n, s) == QuantityOf(next, s)
    {
    }
  }

  lemma OutsideUniverse(r: Request, prev: map<Symbol, Position>, next: map<Symbol, Position>, cash: real, s: Symbol)
    requires Fate(r, prev, next, cash, s) && s !in Universe(prev, r.weights)
    ensures QuantityOf(next, s) == 0.0
  {
    assert r.TargetValue(s) == 0.0;
    assert s in r.prices ==> QuantityOf(prev, s) * r.prices[s] == 0.0;
  }

  lemma TradedQuantities(e: BacktestEngine, h: History, benchmark: Symbol, decision: Time, prev: Progress,
                         next: Progress, p: Point, c: StrategyContext, target: TargetPortfolio,
                         plan: Option<RebalancePlan>, r: Request)
    requires Traded(e, h, benchmark, decision, prev, next, p, c, target, plan, r)
    ensures var universe := Universe(prev.positions, target.weights);
            && (forall s :: s !in universe ==> QuantityOf(next.positions, s) == 0.0)
            && next.trades - prev.trades
               == |set s | s in universe && QuantityOf(prev.positions, s) != QuantityOf(next.positions, s)|
  {
    hide Shown, Worth, Fate, PaidOver, LostOver, Asked, Sorted;
    AskedWeights(e, h, p.executionTime, prev, target, plan, r);
    forall s | s !in Universe(prev.positions, target.weights)
      ensures QuantityOf(next.positions, s) == 0.0
    {
      assert Fate(r, prev.positions, next.positions, next.cash, s);
      OutsideUniverse(r, prev.positions, next.positions, next.cash, s);
    }
  }

  lemma ExecutedCounts(e: BacktestEngine, h: History, benchmark: Symbol, decision: Time, execution: Time,
                       prev: Progress, next: Progress, p: Point)
    requires Executed(e, h, benchmark, decision, execution, prev, next, p) && PointsShow(prev) && Counted(prev)
    ensures Counted(next)
  {
    hide Traded, Worth, Moves, Universe, CostsOf, TurnoverOf, CashWeightsOf;
    var c, target, plan, r :| Traded(e, h, benchmark, decision, prev, next, p, c, target, plan, r);
    TradedQuantities(e, h, benchmark, decision, prev, next, p, c, target, plan, r);
    var universe := Universe(prev.positions, target.weights);
    var n := |prev.points|;
    var before := if n == 0 then map[] else prev.points[n - 1].positions;
    HeldAreInUniverse(prev.positions, target.weights);
    MovesAre(prev.positions, next.positions, before, p.positions, universe);
    assert next.points[..n] == prev.points;
  }

  lemma HeldAreInUniverse(positions: map<Symbol, Position>, weights: map<Symbol, real>)
    ensures positions.Keys <= Universe(positions, weights)
  {
  }

  lemma AskedWeights(e: BacktestEngine, h: History, t: Time, st: Progress, target: TargetPortfolio,
                     plan: Option<RebalancePlan>, r: Request)
    requires Asked(e, h, t, st, target, plan, r)
    ensures r.weights == target.weights
  {
  }

  lemma {:induction false} RunCounts(e: BacktestEngine, h: History, benchmark: Symbol, start: Option<Time>, n: nat)
    requires e.Valid() && ValidBars(h) && ValidHistory(h) && benchmark in h && n < |h[benchmark]|
    requires e.RunTo(h, benchmark, start, n).Ok?
    ensures Counted(e.RunTo(h, benchmark, start, n).value)
  {
    hide Executed, BacktestEngine.Iteration, Refused, Books, DrawdownIs, PointsShow;
    if n > e.config.warmup - 1 {
      RunCounts(e, h, benchmark, start, n - 1);
      RunKeeps(e, h, benchmark, start, n - 1);
      var prev, next := e.RunTo(h, benchmark, start, n - 1).value, e.RunTo(h, benchmark, start, n).value;
      IterationExecutes(e, h, benchmark, start, prev, n - 1);
      if next != prev {
        ExecutedCounts(e, h, benchmark, h[benchmark][n - 1].timestamp, h[benchmark][n].timestamp, prev, next,
                       next.points[|next.points| - 1]);
      }
    }
  }

  /**
    A backtest's figures: it starts with the configured cash, ends at the value of its last point, and returns the one
    in proportion to the other; every point is the outcome of one decision.
   */
  lemma ResultIsThePoints(e: BacktestEngine, h: History, benchmark: Symbol, start: Option<Time>)
    requires e.Valid() && ValidBars(h) && ValidHistory(h) && benchmark in h && |h[benchmark]| > e.config.warmup
    requires e.Backtested(h, benchmark, start).Ok?
    ensures var r := e.Backtested(h, benchmark, start).value;
            && PointsAre(e, h, benchmark, start, r.points)
            && r.startingNav == e.config.startingCash
            && r.endingNav == (if r.points == [] then e.config.startingCash else r.points[|r.points| - 1].nav)
            && r.totalReturn * r.startingNav == r.endingNav - r.startingNav
            && r.tradeCount == ChangesOf(r.points)
  {
    hide BacktestEngine.RunTo, PointsAre;
    RunCounts(e, h, benchmark, start, |h[benchmark]| - 1);
    RunExecutes(e, h, benchmark, start, |h[benchmark]| - 1);
    var r := e.Backtested(h, benchmark, start).value;
    ReturnIs(r.endingNav, r.startingNav);
  }

  lemma ReturnIs(ending: real, starting: real)
    requires starting > 0.0
    ensures (ending / starting - 1.0) * starting == ending - starting
  {
    assert ending / starting * starting == ending;
  }
}
