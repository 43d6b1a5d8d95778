/**
  Holding still: the target a strategy returns when it does not want to trade (strategies/low_frequency.py:177-232).
 */
module Preserve {
  import opened Wrappers
  import opened Domain
  import opened Contracts
  import opened Symbols
  import opened RebalancePolicy
  import opened Rebalancing
  import opened RebalanceTheorems
  import opened ProposalBuilding
  import opened ProposalTheorems
  import opened Arithmetic
  import MapSum

  datatype Name = Name(strategyId: string, version: string)

  function CashTarget(name: Name, c: StrategyContext, confidence: real): TargetPortfolio {
    TargetPortfolio(c.asOf, c.currency, map[], 1.0, name.strategyId, name.version, c.stateHash, confidence)
  }

  function WeightOf(c: StrategyContext, s: Symbol): real
    requires s in c.portfolio.positions && s in c.referencePrices && c.portfolio.nav > 0.0
  {
    c.portfolio.positions[s].quantity * c.referencePrices[s] / c.portfolio.nav
  }

  predicate WeightFits(c: StrategyContext, s: Symbol)
    requires s in c.portfolio.positions && c.portfolio.nav > 0.0
  {
    s in c.referencePrices && 0.0 <= WeightOf(c, s) <= 1.0
  }

  function Weights(c: StrategyContext, symbols: set<Symbol>): map<Symbol, real>
    requires c.portfolio.nav > 0.0 && symbols <= c.portfolio.positions.Keys && symbols <= c.referencePrices.Keys
  {
    map s | s in symbols :: WeightOf(c, s)
  }

  /** The current weights, if they are weights at all. */
  ghost function Preserved(name: Name, c: StrategyContext): Result<TargetPortfolio, Error> {
    if c.portfolio.nav <= 0.0 || c.portfolio.positions == map[] then Ok(CashTarget(name, c, 0.5))
    else if exists s :: s in c.portfolio.positions && !WeightFits(c, s) then
      // the first symbol in order decides which of the two errors it is
      Err(FirstMisfit(c, Sorted(c.portfolio.positions.Keys)))
    else
      var weights := Weights(c, c.portfolio.positions.Keys);
      var invested := MapSum.Sum(weights);
      if invested > 1.0 then Err(OutOfBounds)
      else Ok(TargetPortfolio(c.asOf, c.currency, weights, 1.0 - invested, name.strategyId, name.version, c.stateHash,
                              0.5))
  }

  function FirstMisfit(c: StrategyContext, symbols: seq<Symbol>): Error
    requires c.portfolio.nav > 0.0 && forall s :: s in symbols ==> s in c.portfolio.positions
  {
    if symbols == [] then OutOfBounds
    else if WeightFits(c, symbols[0]) then FirstMisfit(c, symbols[1..])
    else if symbols[0] in c.referencePrices then OutOfBounds else MissingPrice
  }

  lemma {:induction false} FirstMisfitIs(c: StrategyContext, symbols: seq<Symbol>, i: nat)
    requires c.portfolio.nav > 0.0 && (forall s :: s in symbols ==> s in c.portfolio.positions) && i < |symbols|
    requires !WeightFits(c, symbols[i]) && forall j :: 0 <= j < i ==> WeightFits(c, symbols[j])
    ensures FirstMisfit(c, symbols) == if symbols[i] in c.referencePrices then OutOfBounds else MissingPrice
  {
    hide WeightFits;
    if i > 0 {
      assert WeightFits(c, symbols[0]);
      FirstMisfitIs(c, symbols[1..], i - 1);
    }
  }

  method PreservePositions(name: Name, c: StrategyContext) returns (res: Result<TargetPortfolio, Error>)
    ensures res == Preserved(name, c)
  {
    hide WeightOf, WeightFits, FirstMisfit, Sorted, MapSum.Sum;
    if c.portfolio.nav <= 0.0 || c.portfolio.positions == map[] {
      return Ok(CashTarget(name, c, 0.5));
    }
    var symbols := Sorted(c.portfolio.positions.Keys);
    var collected := CollectWeights(c, symbols);
    if collected.Err? {
      return Err(collected.error);
    }
    var (weights, invested) := collected.value;
    assert weights == Weights(c, c.portfolio.positions.Keys);
    if invested > 1.0 {
      return Err(OutOfBounds);
    }
    return Ok(TargetPortfolio(c.asOf, c.currency, weights, 1.0 - invested, name.strategyId, name.version, c.stateHash,
                              0.5));
  }

  method CollectWeights(c: StrategyContext, symbols: seq<Symbol>)
    returns (res: Result<(map<Symbol, real>, real), Error>)
    requires c.portfolio.nav > 0.0 && forall s :: s in symbols ==> s in c.portfolio.positions
    requires forall i, j :: 0 <= i < j < |symbols| ==> symbols[i] != symbols[j]
    ensures res.Err? ==> res.error == FirstMisfit(c, symbols) && exists s :: s in symbols && !WeightFits(c, s)
    ensures res.Ok? ==> forall s :: s in symbols ==> WeightFits(c, s) && s in c.referencePrices
    ensures res.Ok? ==> res.value.0.Keys == (set s | s in symbols) && res.value.1 == MapSum.Sum(res.value.0)
    ensures res.Ok? ==> forall s :: s in symbols ==> res.value.0[s] == WeightOf(c, s)
  {
    hide WeightOf, MapSum.Sum;
    var weights: map<Symbol, real> := map[];
    var invested := 0.0;
    MapSum.Empty<Symbol>();
    for i := 0 to |symbols|
      invariant forall j :: 0 <= j < i ==>
                  WeightFits(c, symbols[j]) && symbols[j] in weights && weights[symbols[j]] == WeightOf(c, symbols[j])
      invariant weights.Keys == set s | s in symbols[..i]
      invariant invested == MapSum.Sum(weights)
    {
      var s := symbols[i];
      if s !in c.referencePrices {
        FirstMisfitIs(c, symbols, i);
        return Err(MissingPrice);
      }
      var weight := WeightOf(c, s);
      if weight < 0.0 || weight > 1.0 {
        FirstMisfitIs(c, symbols, i);
        return Err(OutOfBounds);
      }
      MapSum.Updated(weights, s, weight);
      assert s !in weights;
      weights := weights[s := weight];
      invested := invested + weight;
    }
    assert symbols[..|symbols|] == symbols;
    return Ok((weights, invested));
  }

  /** The single-market strategy's own version agrees, once it has refused any other position. */
  method PreserveSingle(name: Name, symbol: Symbol, c: StrategyContext) returns (res: Result<TargetPortfolio, Error>)
    ensures c.portfolio.positions.Keys <= {symbol} ==> res == Preserved(name, c)
    ensures !(c.portfolio.positions.Keys <= {symbol}) ==> res == Err(ValidationError)
  {
    hide WeightOf, MapSum.Sum;
    if !(c.portfolio.positions.Keys <= {symbol}) {
      return Err(ValidationError);
    }
    if symbol !in c.portfolio.positions || c.portfolio.nav <= 0.0 {
      assert symbol !in c.portfolio.positions ==> c.portfolio.positions == map[];
      return Ok(CashTarget(name, c, 0.5));
    }
    assert c.portfolio.positions.Keys == {symbol};
    var symbols := Sorted({symbol});
    assert symbol in symbols && symbols[0] == symbol;
    if symbol !in c.referencePrices {
      FirstMisfitIs(c, symbols, 0);
      return Err(MissingPrice);
    }
    var weight := WeightOf(c, symbol);
    if weight < 0.0 || weight > 1.0 {
      FirstMisfitIs(c, symbols, 0);
      return Err(OutOfBounds);
    }
    MapSum.Singleton(symbol, weight);
    assert Weights(c, c.portfolio.positions.Keys) == map[symbol := weight];
    return Ok(TargetPortfolio(c.asOf, c.currency, map[symbol := weight], 1.0 - weight, name.strategyId, name.version,
                              c.stateHash, 0.5));
  }

  // ----- It preserves

  function MarkedAt(c: StrategyContext): map<Symbol, real>
    requires c.portfolio.positions.Keys <= c.referencePrices.Keys
  {
    map s | s in c.portfolio.positions :: c.portfolio.positions[s].quantity * c.referencePrices[s]
  }

  /** The portfolio is marked at the reference prices. */
  ghost predicate Marked(c: StrategyContext) {
    && c.portfolio.positions.Keys <= c.referencePrices.Keys
    && c.portfolio.nav == c.portfolio.cash + MapSum.Sum(MarkedAt(c))
  }

  lemma {:induction false} SumOfShares(values: map<Symbol, real>, shares: map<Symbol, real>, nav: real)
    requires nav > 0.0 && values.Keys == shares.Keys && forall s :: s in values ==> shares[s] == values[s] / nav
    ensures MapSum.Sum(shares) == MapSum.Sum(values) / nav
    decreases |values|
  {
    hide MapSum.Sum;
    if values == map[] {
      assert shares == map[];
      MapSum.Empty<Symbol>();
    } else {
      var s :| s in values;
      MapSum.Take(values, s);
      MapSum.Take(shares, s);
      SumOfShares(values - {s}, shares - {s}, nav);
      AddShares(values[s], MapSum.Sum(values - {s}), nav);
    }
  }

  lemma AddShares(a: real, b: real, nav: real)
    requires nav > 0.0
    ensures a / nav + b / nav == (a + b) / nav
  {
  }

  lemma ShareFits(value: real, rest: real, nav: real)
    requires nav > 0.0 && value >= 0.0 && rest >= 0.0 && value + rest == nav
    ensures 0.0 <= value / nav <= 1.0 && 1.0 - value / nav == rest / nav && 0.0 <= rest / nav <= 1.0
  {
    AddShares(value, rest, nav);
    assert (value / nav) * nav == value && (rest / nav) * nav == rest;
    FactorNotNegative(value / nav, nav);
    FactorNotNegative(rest / nav, nav);
  }

  lemma ValuesFit(c: StrategyContext)
    requires c.Valid() && Marked(c)
    ensures forall s :: s in MarkedAt(c) ==> 0.0 <= MarkedAt(c)[s] <= MapSum.Sum(MarkedAt(c))
    ensures MapSum.Sum(MarkedAt(c)) >= 0.0
    ensures forall s :: s in c.portfolio.positions && c.portfolio.positions[s].quantity > 0.0 ==> c.portfolio.nav > 0.0
  {
    hide MapSum.Sum;
    forall s | s in MarkedAt(c)
      ensures MarkedAt(c)[s] >= 0.0
      ensures c.portfolio.positions[s].quantity > 0.0 ==> MarkedAt(c)[s] > 0.0
    {
      ProductNotNegative(c.portfolio.positions[s].quantity, c.referencePrices[s]);
      if c.portfolio.positions[s].quantity > 0.0 {
        PositiveProduct(c.portfolio.positions[s].quantity, c.referencePrices[s]);
      }
    }
    MapSum.NonNegative(MarkedAt(c));
    forall s | s in c.portfolio.positions && c.portfolio.positions[s].quantity > 0.0
      ensures c.portfolio.nav > 0.0
    {
      assert s in MarkedAt(c);
    }
  }

  /** The position's value lies between nothing and everything. */
  predicate Sane(c: StrategyContext, s: Symbol)
    requires s in c.portfolio.positions
  {
    s in c.referencePrices
    && 0.0 <= c.portfolio.positions[s].quantity * c.referencePrices[s] <= c.portfolio.nav
  }

  lemma SaneIsFit(c: StrategyContext, s: Symbol)
    requires c.portfolio.nav > 0.0 && s in c.portfolio.positions
    ensures WeightFits(c, s) <==> Sane(c, s)
    ensures s in c.referencePrices ==>
              WeightOf(c, s) * c.portfolio.nav == c.portfolio.positions[s].quantity * c.referencePrices[s]
  {
    if s in c.referencePrices {
      var value, nav := c.portfolio.positions[s].quantity * c.referencePrices[s], c.portfolio.nav;
      assert value / nav * nav == value;
      if value >= 0.0 {
        FactorNotNegative(value / nav, nav);
      }
      if value <= nav {
        AtMost(value / nav, 1.0, nav);
      }
      if 0.0 <= value / nav <= 1.0 {
        ProductNotNegative(value / nav, nav);
        ProductNotNegative(1.0 - value / nav, nav);
      }
    }
  }

  /**
    Holding still is possible exactly if every position is priced and sane and all of them together are worth no more
    than the portfolio; the weights are then their shares of it.
   */
  lemma PreserveSucceeds(name: Name, c: StrategyContext)
    requires c.portfolio.nav > 0.0 && c.portfolio.positions != map[]
    ensures Preserved(name, c).Ok? <==>
              && c.portfolio.positions.Keys <= c.referencePrices.Keys
              && (forall s :: s in c.portfolio.positions ==> Sane(c, s))
              && MapSum.Sum(MarkedAt(c)) <= c.portfolio.nav
    ensures Preserved(name, c).Ok? ==>
              var t := Preserved(name, c).value;
              && t.weights.Keys == c.portfolio.positions.Keys && MapSum.Sum(t.weights) + t.cashWeight == 1.0
              && t.strategyId == name.strategyId && t.strategyVersion == name.version && t.confidence == 0.5
              && forall s :: s in t.weights ==>
                   t.weights[s] * c.portfolio.nav == c.portfolio.positions[s].quantity * c.referencePrices[s]
  {
    hide MapSum.Sum, WeightFits, Sane, WeightOf, FirstMisfit, Sorted;
    forall s | s in c.portfolio.positions
      ensures WeightFits(c, s) <==> Sane(c, s)
    {
      SaneIsFit(c, s);
    }
    if forall s :: s in c.portfolio.positions ==> WeightFits(c, s) {
      SaneSum(c);
    }
  }

  lemma SaneSum(c: StrategyContext)
    requires c.portfolio.nav > 0.0 && forall s :: s in c.portfolio.positions ==> WeightFits(c, s)
    ensures c.portfolio.positions.Keys <= c.referencePrices.Keys
    ensures MapSum.Sum(Weights(c, c.portfolio.positions.Keys)) <= 1.0 <==> MapSum.Sum(MarkedAt(c)) <= c.portfolio.nav
    ensures forall s :: s in c.portfolio.positions ==>
              WeightOf(c, s) * c.portfolio.nav == c.portfolio.positions[s].quantity * c.referencePrices[s]
  {
    hide MapSum.Sum;
    forall s | s in c.portfolio.positions
      ensures s in c.referencePrices
              && WeightOf(c, s) * c.portfolio.nav == c.portfolio.positions[s].quantity * c.referencePrices[s]
    {
      SaneIsFit(c, s);
    }
    var values, nav := MarkedAt(c), c.portfolio.nav;
    SumOfShares(values, Weights(c, c.portfolio.positions.Keys), nav);
    WholeOrLess(MapSum.Sum(values), nav);
  }

  lemma WholeOrLess(value: real, nav: real)
    requires nav > 0.0
    ensures value / nav <= 1.0 <==> value <= nav
  {
    assert value / nav * nav == value;
    if value <= nav {
      AtMost(value / nav, 1.0, nav);
    }
    if value / nav <= 1.0 {
      ProductNotNegative(1.0 - value / nav, nav);
    }
  }

  /** The first position in order that is not priced and sane decides the error. */
  lemma PreserveFails(name: Name, c: StrategyContext, s: Symbol)
    requires c.portfolio.nav > 0.0 && s in c.portfolio.positions && !Sane(c, s)
    requires forall x :: x in c.portfolio.positions && x != s && LexLe(x, s) ==> Sane(c, x)
    ensures Preserved(name, c) == Err(if s in c.referencePrices then OutOfBounds else MissingPrice)
  {
    hide MapSum.Sum, WeightFits, Sane, WeightOf, FirstMisfit, LexLe;
    var symbols := Sorted(c.portfolio.positions.Keys);
    var i :| 0 <= i < |symbols| && symbols[i] == s;
    SaneIsFit(c, s);
    forall j | 0 <= j < i
      ensures WeightFits(c, symbols[j])
    {
      assert LexLe(symbols[j], symbols[i]) && symbols[j] != symbols[i];
      SaneIsFit(c, symbols[j]);
    }
    FirstMisfitIs(c, symbols, i);
  }

  /**
    Marked at its own prices, a portfolio has weights: the target is valid and, if it is worth anything, nothing is
    missing from it.
   */
  lemma PreservedIsValid(name: Name, c: StrategyContext)
    requires c.Valid() && Marked(c)
    ensures Preserved(name, c).Ok? && Preserved(name, c).value.Valid() && Matches(Preserved(name, c).value, c)
    ensures Preserved(name, c).value.weights.Keys == if c.portfolio.nav > 0.0 then c.portfolio.positions.Keys else {}
    ensures forall s :: s in c.portfolio.positions && c.portfolio.nav > 0.0 ==>
              Preserved(name, c).value.weights[s] == WeightOf(c, s)
    ensures c.portfolio.nav > 0.0 ==> Preserved(name, c).value.cashWeight == c.portfolio.cash / c.portfolio.nav
  {
    hide MapSum.Sum, WeightOf;
    MapSum.Empty<Symbol>();
    ValuesFit(c);
    if c.portfolio.nav > 0.0 {
      if c.portfolio.positions != map[] {
        SharesOf(c);
      } else {
        assert MarkedAt(c) == map[];
        ShareFits(0.0, c.portfolio.cash, c.portfolio.nav);
      }
    }
  }

  lemma SharesOf(c: StrategyContext)
    requires c.Valid() && Marked(c) && c.portfolio.nav > 0.0
    ensures forall s :: s in c.portfolio.positions ==> WeightFits(c, s)
    ensures var invested := MapSum.Sum(Weights(c, c.portfolio.positions.Keys));
            0.0 <= invested <= 1.0 && 1.0 - invested == c.portfolio.cash / c.portfolio.nav
  {
    hide MapSum.Sum, WeightOf;
    var values, nav := MarkedAt(c), c.portfolio.nav;
    ValuesFit(c);
    forall s | s in c.portfolio.positions
      ensures WeightOf(c, s) == values[s] / nav && WeightFits(c, s)
    {
      WeightIsShare(c, s);
      ShareFits(values[s], nav - values[s], nav);
    }
    SumOfShares(values, Weights(c, c.portfolio.positions.Keys), nav);
    ShareFits(MapSum.Sum(values), c.portfolio.cash, nav);
  }

  lemma WeightIsShare(c: StrategyContext, s: Symbol)
    requires c.portfolio.positions.Keys <= c.referencePrices.Keys && s in c.portfolio.positions && c.portfolio.nav > 0.0
    ensures WeightOf(c, s) == MarkedAt(c)[s] / c.portfolio.nav
  {
  }

  /** Nothing is missing to the target and nothing is too much. */
  lemma NothingMissing(name: Name, c: StrategyContext, s: Symbol)
    requires c.Valid() && Marked(c) && s in c.referencePrices
    ensures Preserved(name, c).Ok? && Delta(Preserved(name, c).value, c, s) == 0.0
    ensures s in c.portfolio.positions ==> !FullExit(Preserved(name, c).value, c, s)
  {
    hide Preserved, TargetPortfolio.Valid, MapSum.Sum, WeightOf;
    PreservedIsValid(name, c);
    ValuesFit(c);
    if s in c.portfolio.positions && c.portfolio.nav > 0.0 {
      BackToValue(c, s);
    }
  }

  lemma BackToValue(c: StrategyContext, s: Symbol)
    requires s in c.portfolio.positions && s in c.referencePrices && c.portfolio.nav > 0.0
    requires c.portfolio.positions[s].quantity >= 0.0 && c.referencePrices[s] > 0.0
    ensures c.portfolio.nav * WeightOf(c, s) == c.portfolio.positions[s].quantity * c.referencePrices[s]
    ensures c.portfolio.positions[s].quantity > 0.0 ==> WeightOf(c, s) != 0.0
  {
    if c.portfolio.positions[s].quantity > 0.0 {
      PositiveProduct(c.portfolio.positions[s].quantity, c.referencePrices[s]);
    }
  }

  // ----- And nothing happens

  lemma UniverseIsPositions(name: Name, c: StrategyContext)
    requires c.Valid() && Marked(c)
    ensures Preserved(name, c).Ok?
            && Universe(c.portfolio.positions, Preserved(name, c).value.weights) == c.portfolio.positions.Keys
    ensures Universe(c.portfolio.positions, Preserved(name, c).value.weights) <= c.referencePrices.Keys
  {
    hide Preserved, TargetPortfolio.Valid, MapSum.Sum;
    PreservedIsValid(name, c);
  }

  /** The plan for a preserved portfolio executes nothing, whatever the policy. */
  lemma NothingExecuted(name: Name, c: StrategyContext, policy: PolicyConfig, s: Symbol)
    requires c.Valid() && Marked(c) && policy.Valid()
    ensures Preserved(name, c).Ok? && PlanFor(policy, Preserved(name, c).value, c).Ok?
    ensures !Executes(PlanFor(policy, Preserved(name, c).value, c).value, s)
  {
    hide Preserved, Marked, TargetPortfolio.Valid, Executes, Delta, FullExit;
    PreservedIsValid(name, c);
    UniverseIsPositions(name, c);
    WhatThePlanExecutes(policy, Preserved(name, c).value, c, s);
    if s in c.referencePrices {
      NothingMissing(name, c, s);
    }
  }

  /** A draft for a symbol with nothing missing is a reduction by nothing, of shares, and without a minimum order. */
  lemma DraftForNothing(b: ProposalBuilder, held: real, price: real, cap: Option<real>)
    requires b.Valid() && price > 0.0 && held >= 0.0
    ensures b.DraftOf(held, price, 0.0, false, cap).Some? <==> b.minOrderNotional == 0.0 && held > 0.0
  {
  }

  lemma WantedIfUnlimited(name: Name, c: StrategyContext, b: ProposalBuilder, plan: Option<RebalancePlan>, s: Symbol)
    requires c.Valid() && Marked(c) && b.Valid() && s in c.portfolio.positions
    ensures Preserved(name, c).Ok?
    ensures Wanted(b, Preserved(name, c).value, c, plan, s)
            <==> !b.Suppressed(plan, s) && b.minOrderNotional == 0.0 && c.portfolio.positions[s].quantity > 0.0
  {
    hide Preserved, MapSum.Sum, ProposalBuilder.DraftOf, ProposalBuilder.Suppressed, Delta, FullExit;
    NothingMissing(name, c, s);
    var held := QuantityOf(c.portfolio.positions, s);
    DraftForNothing(b, held, c.referencePrices[s],
                    if held == 0.0 && c.portfolio.positions == map[]
                    then Some(b.InitialBuyAffordable(c.portfolio.cash)) else None);
  }

  lemma CollectsWithPrices(b: ProposalBuilder, t: TargetPortfolio, c: StrategyContext, plan: Option<RebalancePlan>,
                           symbols: seq<Symbol>)
    requires forall s :: s in symbols ==> b.Priced(c, s)
    ensures b.Collected(t, c, plan, symbols).Ok?
  {
    hide ProposalBuilder.DraftFor, ProposalBuilder.Dressed;
    if symbols != [] {
      CollectsWithPrices(b, t, c, plan, symbols[..|symbols| - 1]);
    }
  }

  lemma PreservedBuilds(name: Name, c: StrategyContext, b: ProposalBuilder)
    requires c.Valid() && Marked(c) && b.Valid()
    ensures Preserved(name, c).Ok? && b.Build(Preserved(name, c).value, c).Ok?
  {
    hide Preserved, TargetPortfolio.Valid, MapSum.Sum, ProposalBuilder.Collected, Sort, Executes;
    PreservedIsValid(name, c);
    UniverseIsPositions(name, c);
    var t := Preserved(name, c).value;
    if b.policy.Some? {
      NothingExecuted(name, c, b.policy.value, "");
    }
    CollectsWithPrices(b, t, c, PlanOf(b.policy, t, c).value, Sorted(Universe(c.portfolio.positions, t.weights)));
  }

  /** No position has any shares. */
  predicate HoldsNothing(c: StrategyContext) {
    forall s :: s in c.portfolio.positions ==> c.portfolio.positions[s].quantity == 0.0
  }

  /**
    The builder proposes nothing for a preserved portfolio, unless it has neither a policy nor a minimum order
    size: then it proposes to reduce every position that has shares by nothing.
   */
  lemma NothingProposed(name: Name, c: StrategyContext, b: ProposalBuilder)
    requires c.Valid() && Marked(c) && b.Valid() && Injective(b.digest)
    ensures Preserved(name, c).Ok? && b.Build(Preserved(name, c).value, c).Ok?
    ensures b.Build(Preserved(name, c).value, c).value.proposals == []
            <==> b.policy.Some? || b.minOrderNotional > 0.0 || HoldsNothing(c)
  {
    hide Preserved, StrategyContext.Valid, Marked, Injective, InOrder, Wanted, ProposalBuilder.Build,
      ProposalBuilder.Suppressed;
    PreservedBuilds(name, c, b);
    UniverseIsPositions(name, c);
    var t := Preserved(name, c).value;
    var r := b.Build(t, c).value;
    BuiltIsComplete(b, t, c);
    forall s | s in c.portfolio.positions
      ensures Has(r.proposals, s)
              <==> b.policy.None? && b.minOrderNotional == 0.0 && c.portfolio.positions[s].quantity > 0.0
    {
      WantedIfUnlimited(name, c, b, r.plan, s);
      HeldBack(name, c, b, s);
    }
    if r.proposals != [] {
      HasAt(r.proposals, 0);
    } else {
      forall s | s in c.portfolio.positions
        ensures !Has(r.proposals, s) && c.portfolio.positions[s].quantity >= 0.0
      {
        QuantityNotNegative(c, s);
      }
    }
  }

  lemma QuantityNotNegative(c: StrategyContext, s: Symbol)
    requires c.Valid() && s in c.portfolio.positions
    ensures c.portfolio.positions[s].quantity >= 0.0
  {
  }

  /** With a policy every held symbol is held back; without one none is. */
  lemma HeldBack(name: Name, c: StrategyContext, b: ProposalBuilder, s: Symbol)
    requires c.Valid() && Marked(c) && b.Valid() && s in c.portfolio.positions
    ensures Preserved(name, c).Ok? && b.Build(Preserved(name, c).value, c).Ok?
    ensures b.Suppressed(b.Build(Preserved(name, c).value, c).value.plan, s) <==> b.policy.Some?
  {
    hide Preserved, Marked, StrategyContext.Valid, TargetPortfolio.Valid, MapSum.Sum, ProposalBuilder.Collected, Sort;
    PreservedBuilds(name, c, b);
    UniverseIsPositions(name, c);
    if b.policy.Some? {
      NothingExecuted(name, c, b.policy.value, s);
      PlanAnswers(b.policy.value, Preserved(name, c).value, c, s);
    }
  }

  // ----- The replay holds still as well

  /** Where nothing may be traded, or everything is at its target, both loops do nothing at all. */
  lemma {:induction false} LoopsIdle(r: Request, t: Trading, symbols: seq<Symbol>)
    requires r.Valid() && Sound(t.cash, t.positions)
    requires forall s :: s in symbols && Tradable(r, s) ==> QuantityOf(t.positions, s) * r.prices[s] == r.TargetValue(s)
    ensures Sells(r, t, symbols) == t && Buys(r, t, symbols) == Ok(t)
  {
    hide SellStep, BuyStep, Step, Request.Valid, Request.TargetValue;
    if symbols != [] {
      var front, s := symbols[..|symbols| - 1], symbols[|symbols| - 1];
      LoopsIdle(r, t, front);
      SellStepIs(r, t, s);
      BuyStepIs(r, t, s);
    }
  }

  /** With a plan that executes nothing, a rebalance leaves cash and positions alone, at any prices. */
  lemma HeldBackRebalance(name: Name, c: StrategyContext, policy: PolicyConfig, r: Request, cash: real,
                          positions: map<Symbol, Position>)
    requires c.Valid() && Marked(c) && policy.Valid() && r.Valid() && Sound(cash, positions)
    requires Preserved(name, c).Ok? && PlanFor(policy, Preserved(name, c).value, c).Ok?
    requires r.plan == Some(PlanFor(policy, Preserved(name, c).value, c).value)
    ensures Rebalanced(r, cash, positions) == Ok(Start(cash, positions))
  {
    hide Preserved, Marked, StrategyContext.Valid, PlanFor, Executes, Sells, Buys, Request.TargetValue;
    forall s | Tradable(r, s)
      ensures false
    {
      NothingExecuted(name, c, policy, s);
    }
    LoopsIdle(r, Start(cash, positions), Sorted(Universe(positions, r.weights)));
  }

  lemma TargetIsValue(r: Request, t: TargetPortfolio, c: StrategyContext, s: Symbol)
    requires r.weights == t.weights && r.nav == c.portfolio.nav && r.prices == c.referencePrices
    requires s in c.referencePrices && Delta(t, c, s) == 0.0
    ensures QuantityOf(c.portfolio.positions, s) * r.prices[s] == r.TargetValue(s)
  {
  }

  /** Without a plan it does so at the prices the portfolio was marked at. */
  lemma MarkedRebalance(name: Name, c: StrategyContext, r: Request)
    requires c.Valid() && Marked(c) && r.Valid() && Sound(c.portfolio.cash, c.portfolio.positions)
             && Preserved(name, c).Ok?
    requires r.plan.None? && r.weights == Preserved(name, c).value.weights && r.nav == c.portfolio.nav
             && r.prices == c.referencePrices
    ensures Rebalanced(r, c.portfolio.cash, c.portfolio.positions) == Ok(Start(c.portfolio.cash, c.portfolio.positions))
  {
    hide Preserved, Marked, StrategyContext.Valid, Request.Valid, Request.TargetValue, Delta, Sells, Buys, Sound;
    forall s | Tradable(r, s)
      ensures QuantityOf(c.portfolio.positions, s) * r.prices[s] == r.TargetValue(s)
    {
      NothingMissing(name, c, s);
      TargetIsValue(r, Preserved(name, c).value, c, s);
    }
    LoopsIdle(r, Start(c.portfolio.cash, c.portfolio.positions), Sorted(Universe(c.portfolio.positions, r.weights)));
  }
}
