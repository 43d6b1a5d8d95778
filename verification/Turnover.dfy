/** What a rebalance reports: turnover, costs and cost bases, from the quantities alone (backtest/engine.py:272-327). */
module Turnover {
  import opened Domain
  import opened Symbols
  import opened RebalancePolicy
  import opened Rebalancing
  import opened RebalanceTheorems

  // ----- One symbol

  /** What is paid or received: a sale fills below the quoted price, a purchase above it. */
  function Paid(rates: Rates, before: real, after: real, price: real): real {
    if after < before then (before - after) * (price - price * rates.slippage)
    else (after - before) * (price + price * rates.slippage)
  }

  /** The fee on it, and the slippage against the quoted price. */
  function Lost(rates: Rates, before: real, after: real, price: real): real {
    Paid(rates, before, after, price) * rates.fee + Abs(after - before) * (price * rates.slippage)
  }

  function PaidFor(r: Request, m: map<Symbol, Position>, n: map<Symbol, Position>, s: Symbol): real {
    if s in r.prices then Paid(r.rates, QuantityOf(m, s), QuantityOf(n, s), r.prices[s]) else 0.0
  }

  function LostOn(r: Request, m: map<Symbol, Position>, n: map<Symbol, Position>, s: Symbol): real {
    if s in r.prices then Lost(r.rates, QuantityOf(m, s), QuantityOf(n, s), r.prices[s]) else 0.0
  }

  /** A sale leaves the average price alone; a purchase averages in what is paid. */
  predicate Basis(r: Request, m: map<Symbol, Position>, n: map<Symbol, Position>, s: Symbol) {
    s in n ==>
      if s !in m then n[s].averagePrice * n[s].quantity == PaidFor(r, m, n, s)
      else if n[s].quantity <= m[s].quantity then n[s].averagePrice == m[s].averagePrice
      else n[s].averagePrice * n[s].quantity == m[s].averagePrice * m[s].quantity + PaidFor(r, m, n, s)
  }

  ghost predicate Moved(r: Request, t: Trading, u: Trading, s: Symbol) {
    && u.turnover == t.turnover + PaidFor(r, t.positions, u.positions, s)
    && u.costs == t.costs + LostOn(r, t.positions, u.positions, s)
    && Basis(r, t.positions, u.positions, s)
  }

  lemma NothingMoved(r: Request, t: Trading, s: Symbol)
    ensures Moved(r, t, t, s)
  {
  }

  lemma SaleIsPaid(rates: Rates, held: real, quantity: real, price: real)
    requires quantity > 0.0
    ensures var f := SaleFill(rates, quantity, price);
            f.notional == Paid(rates, held, held - quantity, price)
            && f.fee + f.impact == Lost(rates, held, held - quantity, price)
  {
    assert price * (1.0 - rates.slippage) == price - price * rates.slippage;
  }

  lemma PurchaseIsPaid(rates: Rates, held: real, quantity: real, price: real)
    requires quantity > 0.0
    ensures var f := PurchaseFill(rates, quantity, price);
            f.notional == Paid(rates, held, held + quantity, price)
            && f.fee + f.impact == Lost(rates, held, held + quantity, price)
            && f.notional == f.quantity * f.price
  {
    assert price * (1.0 + rates.slippage) == price + price * rates.slippage;
  }

  lemma SellMoves(r: Request, t: Trading, s: Symbol)
    requires r.Valid() && Sound(t.cash, t.positions)
    ensures Moved(r, t, SellStep(r, t, s), s)
  {
    hide SaleFill, SaleQuantity, Paid, Lost;
    if Tradable(r, s) && QuantityOf(t.positions, s) * r.prices[s] > r.TargetValue(s) {
      TargetIsNonNegative(r, s);
      HeldIfAbove(t.positions, s, r.prices[s], r.TargetValue(s));
      SoldToTarget(t.positions[s].quantity, r.prices[s], r.TargetValue(s));
      SaleMoves(r, t, s, SaleQuantity(t.positions[s].quantity, r.prices[s], r.TargetValue(s)));
    } else {
      NothingMoved(r, t, s);
    }
  }

  lemma SaleMoves(r: Request, t: Trading, s: Symbol, quantity: real)
    requires s in r.prices && s in t.positions && 0.0 < quantity <= t.positions[s].quantity
    ensures Moved(r, t, Sell(t, s, SaleFill(r.rates, quantity, r.prices[s])), s)
  {
    hide Paid, Lost;
    SaleIsPaid(r.rates, t.positions[s].quantity, quantity, r.prices[s]);
  }

  lemma BuyMoves(r: Request, t: Trading, s: Symbol)
    requires r.Valid() && Sound(t.cash, t.positions) && BuyStep(r, t, s).Ok?
    ensures Moved(r, t, BuyStep(r, t, s).value, s)
  {
    hide PurchaseFill, BuyQuantity, Paid, Lost;
    if BuyStep(r, t, s).value != t {
      PurchaseMoves(r, t, s, BuyQuantity(r.rates, t.cash, QuantityOf(t.positions, s), r.prices[s], r.TargetValue(s)));
    } else {
      NothingMoved(r, t, s);
    }
  }

  lemma PurchaseMoves(r: Request, t: Trading, s: Symbol, quantity: real)
    requires s in r.prices && Sound(t.cash, t.positions) && quantity > 0.0
    requires Buy(t, s, PurchaseFill(r.rates, quantity, r.prices[s])).Ok?
    ensures Moved(r, t, Buy(t, s, PurchaseFill(r.rates, quantity, r.prices[s])).value, s)
  {
    hide Paid, Lost;
    PurchaseIsPaid(r.rates, QuantityOf(t.positions, s), quantity, r.prices[s]);
    var f := PurchaseFill(r.rates, quantity, r.prices[s]);
    MergedMean(t.positions, s, f);
  }

  lemma MergedMean(positions: map<Symbol, Position>, s: Symbol, f: Fill)
    requires f.quantity > 0.0 && (s in positions ==> positions[s].quantity > 0.0)
    ensures var p := Merged(positions, s, f);
            && p.quantity == QuantityOf(positions, s) + f.quantity
            && p.averagePrice * p.quantity == f.quantity * f.price
                                              + if s in positions then positions[s].averagePrice * positions[s].quantity
                                                else 0.0
  {
    if s in positions {
      var spent, total := positions[s].quantity * positions[s].averagePrice + f.quantity * f.price,
                          positions[s].quantity + f.quantity;
      assert (spent / total) * total == spent;
    }
  }

  // ----- A loop over distinct symbols

  function PaidOver(r: Request, m: map<Symbol, Position>, n: map<Symbol, Position>, symbols: seq<Symbol>): real {
    if symbols == [] then 0.0
    else PaidOver(r, m, n, symbols[..|symbols| - 1]) + PaidFor(r, m, n, symbols[|symbols| - 1])
  }

  function LostOver(r: Request, m: map<Symbol, Position>, n: map<Symbol, Position>, symbols: seq<Symbol>): real {
    if symbols == [] then 0.0
    else LostOver(r, m, n, symbols[..|symbols| - 1]) + LostOn(r, m, n, symbols[|symbols| - 1])
  }

  ghost predicate MovedOver(r: Request, t: Trading, u: Trading, symbols: seq<Symbol>) {
    && u.turnover == t.turnover + PaidOver(r, t.positions, u.positions, symbols)
    && u.costs == t.costs + LostOver(r, t.positions, u.positions, symbols)
    && forall s :: s in symbols ==> Basis(r, t.positions, u.positions, s)
  }

  /** Only the quantities of the listed symbols matter. */
  lemma {:induction false} SameOver(r: Request, m: map<Symbol, Position>, n: map<Symbol, Position>,
                                    n2: map<Symbol, Position>, symbols: seq<Symbol>)
    requires forall s :: s in symbols ==> Untouched(n, n2, s)
    ensures PaidOver(r, m, n, symbols) == PaidOver(r, m, n2, symbols)
    ensures LostOver(r, m, n, symbols) == LostOver(r, m, n2, symbols)
  {
    hide Paid, Lost;
    if symbols != [] {
      SameOver(r, m, n, n2, symbols[..|symbols| - 1]);
      assert Untouched(n, n2, symbols[|symbols| - 1]);
    }
  }

  lemma MovedGrows(r: Request, t: Trading, m: Trading, u: Trading, symbols: seq<Symbol>, s: Symbol)
    requires s !in symbols && MovedOver(r, t, m, symbols) && Moved(r, m, u, s)
    requires SameElsewhere(m.positions, u.positions, s) && Untouched(t.positions, m.positions, s)
    ensures MovedOver(r, t, u, symbols + [s])
  {
    hide Paid, Lost;
    var longer := symbols + [s];
    assert longer[..|symbols|] == symbols;
    forall x | x in symbols
      ensures Untouched(m.positions, u.positions, x)
    {
    }
    SameOver(r, t.positions, m.positions, u.positions, symbols);
    assert PaidFor(r, m.positions, u.positions, s) == PaidFor(r, t.positions, u.positions, s);
    assert LostOn(r, m.positions, u.positions, s) == LostOn(r, t.positions, u.positions, s);
    forall x | x in longer
      ensures Basis(r, t.positions, u.positions, x)
    {
      if x != s {
        assert Basis(r, t.positions, m.positions, x) && Untouched(m.positions, u.positions, x);
      }
    }
  }

  lemma {:induction false} SellsMove(r: Request, t: Trading, symbols: seq<Symbol>)
    requires r.Valid() && Sound(t.cash, t.positions) && Distinct(symbols)
    ensures MovedOver(r, t, Sells(r, t, symbols), symbols)
  {
    hide SellStep, Moved, PaidFor, LostOn, Basis, CostBound, Nav;
    if symbols != [] {
      var front, s := symbols[..|symbols| - 1], symbols[|symbols| - 1];
      SellsMove(r, t, front);
      SellsPhase(r, t, front);
      var m := Sells(r, t, front);
      SellStepIs(r, m, s);
      SellMoves(r, m, s);
      assert s !in front;
      MovedGrows(r, t, m, SellStep(r, m, s), front, s);
      assert front + [s] == symbols;
    }
  }

  lemma {:induction false} BuysMove(r: Request, t: Trading, symbols: seq<Symbol>)
    requires r.Valid() && Sound(t.cash, t.positions) && Distinct(symbols)
    ensures Buys(r, t, symbols).Ok? && MovedOver(r, t, Buys(r, t, symbols).value, symbols)
  {
    hide BuyStep, Moved, PaidFor, LostOn, Basis, CostBound, Nav;
    if symbols != [] {
      var front, s := symbols[..|symbols| - 1], symbols[|symbols| - 1];
      BuysMove(r, t, front);
      BuysPhase(r, t, front);
      var m := Buys(r, t, front).value;
      BuyStepIs(r, m, s);
      BuyMoves(r, m, s);
      assert s !in front;
      MovedGrows(r, t, m, BuyStep(r, m, s).value, front, s);
      assert front + [s] == symbols;
    }
  }

  // ----- The rebalance

  lemma OnceMoved(r: Request, m: map<Symbol, Position>, mid: map<Symbol, Position>, n: map<Symbol, Position>, s: Symbol)
    requires Untouched(m, mid, s) || Untouched(mid, n, s)
    ensures PaidFor(r, m, n, s) == PaidFor(r, m, mid, s) + PaidFor(r, mid, n, s)
    ensures LostOn(r, m, n, s) == LostOn(r, m, mid, s) + LostOn(r, mid, n, s)
    ensures Basis(r, m, mid, s) && Basis(r, mid, n, s) ==> Basis(r, m, n, s)
  {
    StandingStill(r, mid, s);
    StandingStill(r, m, s);
  }

  lemma StandingStill(r: Request, m: map<Symbol, Position>, s: Symbol)
    ensures forall n :: Untouched(m, n, s) ==> PaidFor(r, m, n, s) == LostOn(r, m, n, s) == 0.0
  {
  }

  lemma {:induction false} OncePaid(r: Request, m: map<Symbol, Position>, mid: map<Symbol, Position>,
                                    n: map<Symbol, Position>, symbols: seq<Symbol>)
    requires forall s :: s in symbols ==> Untouched(m, mid, s) || Untouched(mid, n, s)
    ensures PaidOver(r, m, n, symbols) == PaidOver(r, m, mid, symbols) + PaidOver(r, mid, n, symbols)
    ensures LostOver(r, m, n, symbols) == LostOver(r, m, mid, symbols) + LostOver(r, mid, n, symbols)
  {
    hide PaidFor, LostOn;
    if symbols != [] {
      OncePaid(r, m, mid, n, symbols[..|symbols| - 1]);
      OnceMoved(r, m, mid, n, symbols[|symbols| - 1]);
    }
  }

  /**
    What a rebalance reports is fixed by the quantities before and after: turnover and costs are sums over the symbols,
    and every position is carried at what was paid for it.
   */
  lemma TurnoverIsPaid(r: Request, cash: real, positions: map<Symbol, Position>)
    requires r.Valid() && Sound(cash, positions)
    ensures Rebalanced(r, cash, positions).Ok?
    ensures var u, symbols := Rebalanced(r, cash, positions).value, Sorted(Universe(positions, r.weights));
            && u.turnover == PaidOver(r, positions, u.positions, symbols)
            && u.costs == LostOver(r, positions, u.positions, symbols)
            && forall s :: s in symbols ==> Basis(r, positions, u.positions, s)
  {
    hide PaidFor, LostOn, Basis, Fate, Sorted, Sells, Buys, CostBound, Nav;
    TwoLoops(r, cash, positions);
    var symbols, sold := Sorted(Universe(positions, r.weights)), Sold(r, cash, positions);
    var u := Rebalanced(r, cash, positions).value;
    SellsMove(r, Start(cash, positions), symbols);
    BuysMove(r, sold, symbols);
    forall s | s in symbols
      ensures Untouched(positions, sold.positions, s) || Untouched(sold.positions, u.positions, s)
      ensures Basis(r, positions, u.positions, s)
    {
      NoOvershoot(r, cash, positions, s);
      OnceMoved(r, positions, sold.positions, u.positions, s);
    }
    OncePaid(r, positions, sold.positions, u.positions, symbols);
  }
}
