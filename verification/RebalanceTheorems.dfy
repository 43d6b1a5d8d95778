/** What a rebalance does as a whole: value, cost, and the fate of every symbol (backtest/engine.py:237-329). */
module RebalanceTheorems {
  import opened Domain
  import opened Symbols
  import opened RebalancePolicy
  import opened Rebalancing
  import opened Arithmetic

  predicate Distinct(symbols: seq<Symbol>) {
    forall i, j :: 0 <= i < j < |symbols| ==> symbols[i] != symbols[j]
  }

  predicate Tradable(r: Request, s: Symbol) {
    r.Allows(s) && s in r.prices
  }

  /** The symbols whose quantity differs between two books. */
  function Changed(m: map<Symbol, Position>, n: map<Symbol, Position>, symbols: seq<Symbol>): set<Symbol> {
    set s | s in symbols && QuantityOf(m, s) != QuantityOf(n, s)
  }

  // ----- Single steps, in terms of one request

  ghost predicate Step(rates: Rates, prices: map<Symbol, real>, t: Trading, u: Trading, s: Symbol)
    requires rates.Valid()
  {
    && Sound(u.cash, u.positions)
    && Traded(rates, prices, t, u, s)
    && u.trades == t.trades + (if QuantityOf(t.positions, s) != QuantityOf(u.positions, s) then 1 else 0)
  }

  /** From `held` to `now`: down to the target exactly, or not at all. */
  predicate Reduces(held: real, now: real, price: real, target: real) {
    if held * price > target then SoldTo(held, now, price, target) else now == held
  }

  /** From `held` to `now`: up towards the target as far as the cash goes, or not at all. */
  predicate Grows(rates: Rates, held: real, now: real, price: real, target: real, cash: real) {
    if held * price < target then BoughtTowards(rates, held, now, price, target, cash) else now == held
  }

  lemma SellTowardsStep(rates: Rates, prices: map<Symbol, real>, t: Trading, u: Trading, s: Symbol, price: real,
                        target: real)
    requires rates.Valid() && SellOutcome(rates, prices, t, u, s, price, target)
    ensures Step(rates, prices, t, u, s)
    ensures Reduces(QuantityOf(t.positions, s), QuantityOf(u.positions, s), price, target)
    ensures QuantityOf(t.positions, s) == QuantityOf(u.positions, s) ==> u == t
  {
  }

  lemma BuyTowardsStep(rates: Rates, prices: map<Symbol, real>, t: Trading, u: Trading, s: Symbol, price: real,
                       target: real)
    requires rates.Valid() && BuyOutcome(rates, prices, t, u, s, price, target)
    ensures Step(rates, prices, t, u, s)
    ensures Grows(rates, QuantityOf(t.positions, s), QuantityOf(u.positions, s), price, target, u.cash)
    ensures QuantityOf(t.positions, s) == QuantityOf(u.positions, s) ==> u == t
  {
  }

  ghost predicate SellOne(r: Request, t: Trading, u: Trading, s: Symbol) {
    if Tradable(r, s)
    then Reduces(QuantityOf(t.positions, s), QuantityOf(u.positions, s), r.prices[s], r.TargetValue(s))
         && (QuantityOf(t.positions, s) == QuantityOf(u.positions, s) ==> u == t)
    else u == t
  }

  ghost predicate BuyOne(r: Request, t: Trading, u: Trading, s: Symbol) {
    if Tradable(r, s)
    then Grows(r.rates, QuantityOf(t.positions, s), QuantityOf(u.positions, s), r.prices[s], r.TargetValue(s), u.cash)
         && (QuantityOf(t.positions, s) == QuantityOf(u.positions, s) ==> u == t)
    else u == t
  }

  lemma SellStepIs(r: Request, t: Trading, s: Symbol)
    requires r.Valid() && Sound(t.cash, t.positions)
    ensures Step(r.rates, r.prices, t, SellStep(r, t, s), s) && SellOne(r, t, SellStep(r, t, s), s)
  {
    if Tradable(r, s) {
      TargetIsNonNegative(r, s);
      SellTowardsFacts(r.rates, r.prices, t, s, r.TargetValue(s));
      SellTowardsStep(r.rates, r.prices, t, SellStep(r, t, s), s, r.prices[s], r.TargetValue(s));
    } else {
      NoTrade(r.rates, r.prices, t, s);
    }
  }

  lemma BuyStepIs(r: Request, t: Trading, s: Symbol)
    requires r.Valid() && Sound(t.cash, t.positions)
    ensures BuyStep(r, t, s).Ok?
    ensures var u := BuyStep(r, t, s).value;
            Step(r.rates, r.prices, t, u, s) && u.cash <= t.cash && BuyOne(r, t, u, s)
  {
    if Tradable(r, s) && s in r.weights && r.weights[s] > 0.0 {
      BuyTowardsFacts(r.rates, r.prices, t, s, r.TargetValue(s));
      BuyTowardsStep(r.rates, r.prices, t, BuyStep(r, t, s).value, s, r.prices[s], r.TargetValue(s));
    } else {
      NoTrade(r.rates, r.prices, t, s);
      if Tradable(r, s) {
        NothingWanted(r, QuantityOf(t.positions, s), s);
      }
    }
  }

  lemma NothingWanted(r: Request, held: real, s: Symbol)
    requires r.Valid() && s in r.prices && held >= 0.0
    requires s !in r.weights || r.weights[s] <= 0.0
    ensures held * r.prices[s] >= r.TargetValue(s)
  {
    Scale(held, 0.0, r.prices[s]);
    TargetIsNonNegative(r, s);
  }

  // ----- A whole loop over distinct symbols

  ghost predicate Phase(rates: Rates, prices: map<Symbol, real>, t: Trading, u: Trading, symbols: seq<Symbol>)
    requires rates.Valid()
  {
    && Sound(u.cash, u.positions)
    && Nav(u.cash, u.positions, prices) + u.costs == Nav(t.cash, t.positions, prices) + t.costs
    && CostBound(rates, u.costs - t.costs, u.turnover - t.turnover)
    && u.trades == t.trades + |Changed(t.positions, u.positions, symbols)|
    && forall s :: s !in symbols ==> Untouched(t.positions, u.positions, s)
  }

  lemma CostsAdd(rates: Rates, c: real, v: real, d: real, w: real, sumC: real, sumV: real)
    requires rates.Valid() && CostBound(rates, c, v) && CostBound(rates, d, w) && sumC == c + d && sumV == v + w
    ensures CostBound(rates, sumC, sumV)
  {
    Distribute(rates.Worst(), v, w);
  }

  lemma ChangedGrows(m0: map<Symbol, Position>, m1: map<Symbol, Position>, m2: map<Symbol, Position>,
                     symbols: seq<Symbol>, s: Symbol)
    requires s !in symbols && Untouched(m0, m1, s) && SameElsewhere(m1, m2, s)
    ensures |Changed(m0, m2, symbols + [s])| ==
            |Changed(m0, m1, symbols)| + if QuantityOf(m1, s) != QuantityOf(m2, s) then 1 else 0
  {
    var before, after := Changed(m0, m1, symbols), Changed(m0, m2, symbols + [s]);
    forall x | x != s
      ensures x in before <==> x in after
    {
      assert Untouched(m1, m2, x);
    }
    assert s in after <==> QuantityOf(m1, s) != QuantityOf(m2, s);
    OneMore(before, after, s);
  }

  lemma OneMore<T>(before: set<T>, after: set<T>, x: T)
    requires x !in before && forall y :: y != x ==> (y in before <==> y in after)
    ensures |after| == |before| + if x in after then 1 else 0
  {
    assert before == after - {x};
  }

  lemma PhaseGrows(rates: Rates, prices: map<Symbol, real>, t: Trading, m: Trading, u: Trading, symbols: seq<Symbol>,
                   s: Symbol)
    requires rates.Valid() && s !in symbols && Phase(rates, prices, t, m, symbols) && Step(rates, prices, m, u, s)
    ensures Phase(rates, prices, t, u, symbols + [s])
  {
    ChangedGrows(t.positions, m.positions, u.positions, symbols, s);
    CostsAdd(rates, m.costs - t.costs, m.turnover - t.turnover, u.costs - m.costs, u.turnover - m.turnover,
             u.costs - t.costs, u.turnover - t.turnover);
    forall x | x !in symbols + [s]
      ensures Untouched(t.positions, u.positions, x)
    {
      assert Untouched(t.positions, m.positions, x) && Untouched(m.positions, u.positions, x);
    }
  }

  lemma PhaseStarts(rates: Rates, prices: map<Symbol, real>, t: Trading)
    requires rates.Valid() && Sound(t.cash, t.positions)
    ensures Phase(rates, prices, t, t, [])
  {
    assert Changed(t.positions, t.positions, []) == {};
    assert t.turnover - t.turnover == 0.0;
  }

  lemma {:induction false} SellsPhase(r: Request, t: Trading, symbols: seq<Symbol>)
    requires r.Valid() && Sound(t.cash, t.positions) && Distinct(symbols)
    ensures Phase(r.rates, r.prices, t, Sells(r, t, symbols), symbols)
  {
    if symbols == [] {
      PhaseStarts(r.rates, r.prices, t);
    } else {
      var front, s := symbols[..|symbols| - 1], symbols[|symbols| - 1];
      SellsPhase(r, t, front);
      SellStepIs(r, Sells(r, t, front), s);
      PhaseGrows(r.rates, r.prices, t, Sells(r, t, front), Sells(r, t, symbols), front, s);
      assert front + [s] == symbols;
    }
  }

  lemma {:induction false} BuysPhase(r: Request, t: Trading, symbols: seq<Symbol>)
    requires r.Valid() && Sound(t.cash, t.positions) && Distinct(symbols)
    ensures Buys(r, t, symbols).Ok? && Phase(r.rates, r.prices, t, Buys(r, t, symbols).value, symbols)
  {
    if symbols == [] {
      PhaseStarts(r.rates, r.prices, t);
    } else {
      var front, s := symbols[..|symbols| - 1], symbols[|symbols| - 1];
      BuysPhase(r, t, front);
      BuyStepIs(r, Buys(r, t, front).value, s);
      PhaseGrows(r.rates, r.prices, t, Buys(r, t, front).value, Buys(r, t, symbols).value, front, s);
      assert front + [s] == symbols;
    }
  }

  /** What happens to one symbol in one loop. */
  ghost predicate SellFate(r: Request, m: map<Symbol, Position>, n: map<Symbol, Position>, s: Symbol) {
    if Tradable(r, s)
    then Reduces(QuantityOf(m, s), QuantityOf(n, s), r.prices[s], r.TargetValue(s))
         && (QuantityOf(m, s) == QuantityOf(n, s) ==> Untouched(m, n, s))
    else Untouched(m, n, s)
  }

  ghost predicate BuyFate(r: Request, m: map<Symbol, Position>, n: map<Symbol, Position>, cash: real, s: Symbol) {
    if Tradable(r, s)
    then Grows(r.rates, QuantityOf(m, s), QuantityOf(n, s), r.prices[s], r.TargetValue(s), cash)
         && (QuantityOf(m, s) == QuantityOf(n, s) ==> Untouched(m, n, s))
    else Untouched(m, n, s)
  }

  lemma {:induction false} SellsFate(r: Request, t: Trading, symbols: seq<Symbol>, s: Symbol)
    requires r.Valid() && Sound(t.cash, t.positions) && Distinct(symbols) && s in symbols
    ensures SellFate(r, t.positions, Sells(r, t, symbols).positions, s)
  {
    var front, last := symbols[..|symbols| - 1], symbols[|symbols| - 1];
    SellsPhase(r, t, front);
    var m := Sells(r, t, front);
    SellStepIs(r, m, last);
    if s == last {
      assert s !in front;
      SameFate(r, t.positions, m.positions, SellStep(r, m, s).positions, s);
    } else {
      SellsFate(r, t, front, s);
      assert Untouched(m.positions, SellStep(r, m, last).positions, s);
    }
  }

  lemma SameFate(r: Request, m0: map<Symbol, Position>, m: map<Symbol, Position>, n: map<Symbol, Position>, s: Symbol)
    requires Untouched(m0, m, s)
    ensures SellFate(r, m, n, s) == SellFate(r, m0, n, s)
    ensures forall cash :: BuyFate(r, m, n, cash, s) == BuyFate(r, m0, n, cash, s)
  {
    assert QuantityOf(m, s) == QuantityOf(m0, s);
  }

  lemma SameBuyFate(r: Request, m: map<Symbol, Position>, n: map<Symbol, Position>, n2: map<Symbol, Position>,
                    cash: real, cash2: real, s: Symbol)
    requires BuyFate(r, m, n, cash, s) && Untouched(n, n2, s) && (cash == 0.0 ==> cash2 == 0.0)
    ensures BuyFate(r, m, n2, cash2, s)
  {
    assert QuantityOf(n, s) == QuantityOf(n2, s);
  }

  lemma {:induction false} BuysFate(r: Request, t: Trading, symbols: seq<Symbol>, s: Symbol)
    requires r.Valid() && Sound(t.cash, t.positions) && Distinct(symbols) && s in symbols
    ensures Buys(r, t, symbols).Ok?
    ensures BuyFate(r, t.positions, Buys(r, t, symbols).value.positions, Buys(r, t, symbols).value.cash, s)
  {
    var front, last := symbols[..|symbols| - 1], symbols[|symbols| - 1];
    BuysPhase(r, t, front);
    var m := Buys(r, t, front).value;
    BuyStepIs(r, m, last);
    var u := BuyStep(r, m, last).value;
    if s == last {
      assert s !in front;
      SameFate(r, t.positions, m.positions, u.positions, s);
    } else {
      BuysFate(r, t, front, s);
      SameBuyFate(r, t.positions, m.positions, u.positions, m.cash, u.cash, s);
    }
  }

  // ----- The rebalance

  function Start(cash: real, positions: map<Symbol, Position>): Trading {
    Trading(cash, positions, 0.0, 0.0, 0)
  }

  function Sold(r: Request, cash: real, positions: map<Symbol, Position>): Trading {
    Sells(r, Start(cash, positions), Sorted(Universe(positions, r.weights)))
  }

  /** A position at or below its target is not sold, one at its target is not bought. */
  lemma TwoLoops(r: Request, cash: real, positions: map<Symbol, Position>)
    requires r.Valid() && Sound(cash, positions)
    ensures var symbols, sold := Sorted(Universe(positions, r.weights)), Sold(r, cash, positions);
            && Distinct(symbols)
            && Phase(r.rates, r.prices, Start(cash, positions), sold, symbols)
            && Buys(r, sold, symbols).Ok? && Rebalanced(r, cash, positions) == Buys(r, sold, symbols)
            && Phase(r.rates, r.prices, sold, Buys(r, sold, symbols).value, symbols)
  {
    var symbols := Sorted(Universe(positions, r.weights));
    SellsPhase(r, Start(cash, positions), symbols);
    BuysPhase(r, Sold(r, cash, positions), symbols);
  }

  /**
    Above the target a symbol ends exactly there; below it ends between the old value and the target, short of it
    only if the cash ran out; what the plan holds back or has no price is untouched.
   */
  ghost predicate Fate(r: Request, m: map<Symbol, Position>, n: map<Symbol, Position>, cash: real, s: Symbol) {
    if !Tradable(r, s) then Untouched(m, n, s)
    else Reached(r.rates, QuantityOf(m, s), QuantityOf(n, s), r.prices[s], r.TargetValue(s), cash)
         && (QuantityOf(m, s) == QuantityOf(n, s) ==> Untouched(m, n, s))
  }

  predicate Reached(rates: Rates, held: real, now: real, price: real, target: real, cash: real) {
    if held * price > target then now < held && now * price == target
    else if held * price < target then BoughtTowards(rates, held, now, price, target, cash)
    else now == held
  }

  lemma SellThenBuy(rates: Rates, held: real, mid: real, now: real, price: real, target: real, cash: real)
    requires Reduces(held, mid, price, target) && Grows(rates, mid, now, price, target, cash)
    ensures Reached(rates, held, now, price, target, cash)
    ensures mid == held || now == mid
  {
  }

  lemma JoinFates(r: Request, m: map<Symbol, Position>, mid: map<Symbol, Position>, n: map<Symbol, Position>,
                  cash: real, s: Symbol)
    requires SellFate(r, m, mid, s) && BuyFate(r, mid, n, cash, s)
    ensures Fate(r, m, n, cash, s)
    ensures Untouched(m, mid, s) || Untouched(mid, n, s)
  {
    if Tradable(r, s) {
      SellThenBuy(r.rates, QuantityOf(m, s), QuantityOf(mid, s), QuantityOf(n, s), r.prices[s], r.TargetValue(s), cash);
    }
  }

  lemma NotInUniverse(r: Request, m: map<Symbol, Position>, n: map<Symbol, Position>, cash: real, s: Symbol)
    requires Untouched(m, n, s) && s !in m && s !in r.weights
    ensures Fate(r, m, n, cash, s)
  {
  }

  /** Every symbol meets its fate, and none is both sold and bought. */
  lemma NoOvershoot(r: Request, cash: real, positions: map<Symbol, Position>, s: Symbol)
    requires r.Valid() && Sound(cash, positions)
    ensures Rebalanced(r, cash, positions).Ok?
    ensures var u := Rebalanced(r, cash, positions).value; Fate(r, positions, u.positions, u.cash, s)
    ensures Untouched(positions, Sold(r, cash, positions).positions, s)
            || Untouched(Sold(r, cash, positions).positions, Rebalanced(r, cash, positions).value.positions, s)
  {
    TwoLoops(r, cash, positions);
    var symbols, sold := Sorted(Universe(positions, r.weights)), Sold(r, cash, positions);
    var u := Rebalanced(r, cash, positions).value;
    if s in symbols {
      SellsFate(r, Start(cash, positions), symbols, s);
      BuysFate(r, sold, symbols, s);
      JoinFates(r, positions, sold.positions, u.positions, u.cash, s);
    } else {
      assert Untouched(positions, sold.positions, s) && Untouched(sold.positions, u.positions, s);
      NotInUniverse(r, positions, u.positions, u.cash, s);
    }
  }

  lemma ChangesAdd(m: map<Symbol, Position>, mid: map<Symbol, Position>, n: map<Symbol, Position>, symbols: seq<Symbol>)
    requires forall s :: s in symbols ==>
               QuantityOf(mid, s) == QuantityOf(m, s) || QuantityOf(n, s) == QuantityOf(mid, s)
    ensures |Changed(m, n, symbols)| == |Changed(m, mid, symbols)| + |Changed(mid, n, symbols)|
  {
    assert Changed(m, n, symbols) == Changed(m, mid, symbols) + Changed(mid, n, symbols);
    assert Changed(m, mid, symbols) !! Changed(mid, n, symbols);
  }

  lemma TradesOfLoops(r: Request, cash: real, positions: map<Symbol, Position>)
    requires r.Valid() && Sound(cash, positions)
    ensures Rebalanced(r, cash, positions).Ok?
    ensures var symbols := Sorted(Universe(positions, r.weights));
            var sold, u := Sold(r, cash, positions), Rebalanced(r, cash, positions).value;
            u.trades == |Changed(positions, sold.positions, symbols)| + |Changed(sold.positions, u.positions, symbols)|
  {
    hide Rebalanced, Sold, CostBound, Nav, Request.Valid;
    TwoLoops(r, cash, positions);
  }

  /** It counts one trade for every symbol whose quantity changed. */
  lemma TradesAreChanges(r: Request, cash: real, positions: map<Symbol, Position>)
    requires r.Valid() && Sound(cash, positions)
    ensures Rebalanced(r, cash, positions).Ok?
    ensures var u := Rebalanced(r, cash, positions).value;
            var symbols := Universe(positions, r.weights);
            u.trades == |set s | s in symbols && QuantityOf(positions, s) != QuantityOf(u.positions, s)|
  {
    hide Fate, Rebalanced, Sold, Request.Valid, Sorted, Sound;
    TradesOfLoops(r, cash, positions);
    var symbols, sold := Sorted(Universe(positions, r.weights)), Sold(r, cash, positions);
    var u := Rebalanced(r, cash, positions).value;
    forall s | s in symbols
      ensures QuantityOf(sold.positions, s) == QuantityOf(positions, s)
              || QuantityOf(u.positions, s) == QuantityOf(sold.positions, s)
    {
      NoOvershoot(r, cash, positions, s);
    }
    ChangesAdd(positions, sold.positions, u.positions, symbols);
    assert Changed(positions, u.positions, symbols)
        == set s | s in Universe(positions, r.weights) && QuantityOf(positions, s) != QuantityOf(u.positions, s);
  }

  /**
    Marked at the prices it trades at, a rebalance loses exactly the costs it reports, which its turnover bounds.
    It never runs out of cash, so the clamp never has anything to do.
   */
  lemma RebalanceConserves(r: Request, cash: real, positions: map<Symbol, Position>)
    requires r.Valid() && Sound(cash, positions)
    ensures Rebalanced(r, cash, positions).Ok?
    ensures var u := Rebalanced(r, cash, positions).value;
            && Sound(u.cash, u.positions)
            && Nav(u.cash, u.positions, r.prices) + u.costs == Nav(cash, positions, r.prices)
            && CostBound(r.rates, u.costs, u.turnover)
  {
    TwoLoops(r, cash, positions);
    PhasesJoin(r.rates, r.prices, Start(cash, positions), Sold(r, cash, positions),
               Rebalanced(r, cash, positions).value,
               Sorted(Universe(positions, r.weights)));
  }

  lemma PhasesJoin(rates: Rates, prices: map<Symbol, real>, t: Trading, m: Trading, u: Trading, symbols: seq<Symbol>)
    requires rates.Valid() && t.costs == 0.0 && t.turnover == 0.0
    requires Phase(rates, prices, t, m, symbols) && Phase(rates, prices, m, u, symbols)
    ensures Nav(u.cash, u.positions, prices) + u.costs == Nav(t.cash, t.positions, prices)
    ensures CostBound(rates, u.costs, u.turnover)
  {
    CostsAdd(rates, m.costs - t.costs, m.turnover - t.turnover, u.costs - m.costs, u.turnover - m.turnover, u.costs,
             u.turnover);
  }
}
