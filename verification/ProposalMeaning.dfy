/**
  The list of proposals in terms of the money each symbol is off its target (strategies/proposal_builder.py:53-214).
 */
module ProposalMeaning {
  import opened Wrappers
  import opened Domain
  import opened Contracts
  import opened Symbols
  import opened RebalancePolicy
  import opened ProposalBuilding
  import opened ProposalTheorems
  import opened Preserve
  import opened Arithmetic

  // ----- What is off

  /** Money missing to the target, negative where there is too much. */
  function Gap(t: TargetPortfolio, c: StrategyContext, s: Symbol): real
    requires s in c.referencePrices
  {
    TargetOf(t, c, s) - HeldOf(c, s) * c.referencePrices[s]
  }

  /** Something is held that should not be. */
  predicate Leaves(t: TargetPortfolio, c: StrategyContext, s: Symbol) {
    HeldOf(c, s) > 0.0 && (s in t.weights ==> t.weights[s] == 0.0)
  }

  /**
    What the cash of an empty portfolio pays for, with slippage and fee: all of it is spent, or it does not pay the
    fee.
   */
  predicate Means(b: ProposalBuilder, cash: real, most: real) {
    most >= 0.0 && if cash <= b.estimatedFee then most == 0.0
                   else most + most * b.slippageRate + b.estimatedFee == cash
  }

  lemma MeansIs(b: ProposalBuilder, cash: real)
    requires b.Valid()
    ensures Means(b, cash, b.InitialBuyAffordable(cash))
  {
    var rate := 1.0 + b.slippageRate;
    if cash > b.estimatedFee {
      var most := (cash - b.estimatedFee) / rate;
      assert most * rate == cash - b.estimatedFee;
      FactorNotNegative(most, rate);
      assert most * rate == most + most * b.slippageRate;
    }
  }

  lemma MeansOnce(b: ProposalBuilder, cash: real, x: real, y: real)
    requires b.Valid() && Means(b, cash, x) && Means(b, cash, y)
    ensures x == y
  {
    var rate := 1.0 + b.slippageRate;
    if cash > b.estimatedFee {
      assert x * rate == x + x * b.slippageRate && y * rate == y + y * b.slippageRate;
      Cancel(x, y, rate);
    }
  }

  /** What is bought: the gap, or what the means of an empty portfolio allow of it. */
  ghost predicate Buys(b: ProposalBuilder, t: TargetPortfolio, c: StrategyContext, s: Symbol, amount: real)
    requires s in c.referencePrices
  {
    if c.portfolio.positions != map[] then amount == Gap(t, c, s)
    else exists most :: Means(b, c.portfolio.cash, most)
                        && amount == if most < Gap(t, c, s) then most else Gap(t, c, s)
  }

  // ----- Drafts

  /** The change is worth the minimum order size: what is to be bought is, or there is something to sell. */
  ghost predicate WorthAnOrder(b: ProposalBuilder, t: TargetPortfolio, c: StrategyContext, s: Symbol)
    requires s in c.referencePrices
  {
    && (Gap(t, c, s) >= b.minOrderNotional || -Gap(t, c, s) >= b.minOrderNotional)
    && if Gap(t, c, s) > 0.0 then exists amount :: Buys(b, t, c, s, amount) && amount >= b.minOrderNotional
       else HeldOf(c, s) > 0.0
  }

  /** The action that closes the gap, and how much of it. */
  ghost predicate Closes(b: ProposalBuilder, t: TargetPortfolio, c: StrategyContext, s: Symbol, d: Draft)
    requires s in c.referencePrices
  {
    var held, price := HeldOf(c, s), c.referencePrices[s];
    if Leaves(t, c, s) then d == Draft(EXIT, None, None, held * price)
    else if Gap(t, c, s) > 0.0 then
      && d.action == (if held == 0.0 then BUY else ADD) && d.reduceFraction == None
      && d.quantity.Some? && d.quantity.value * price == d.notional && Buys(b, t, c, s, d.notional)
    else
      && d.action == REDUCE && d.quantity == None && d.reduceFraction.Some?
      && 0.0 <= d.reduceFraction.value <= 1.0 && held * d.reduceFraction.value * price == d.notional == -Gap(t, c, s)
  }

  lemma ReductionIs(held: real, price: real, surplus: real)
    requires held > 0.0 && price > 0.0 && 0.0 <= surplus <= held * price
    ensures var quantity := Min(surplus / price, held);
            0.0 <= quantity / held <= 1.0 && held * (quantity / held) * price == quantity * price == surplus
  {
    ReduceArithmetic(held, price, held * price, held * price - surplus);
    var quantity := surplus / price;
    assert quantity * price == surplus;
    AtMost(quantity, held, price);
  }

  lemma PurchaseDraft(b: ProposalBuilder, held: real, price: real, gap: real, cap: Option<real>)
    requires price > 0.0 && gap > 0.0
    ensures var d, amount := b.DraftOf(held, price, gap, false, cap),
                             if cap.Some? && cap.value < gap then cap.value else gap;
            && (d.Some? <==> gap >= b.minOrderNotional && amount >= b.minOrderNotional)
            && (d.Some? ==>
                  && d.value.action == (if held == 0.0 then BUY else ADD) && d.value.reduceFraction == None
                  && d.value.quantity.Some? && d.value.quantity.value * price == d.value.notional == amount)
  {
    var amount := if cap.Some? && cap.value < gap then cap.value else gap;
    assert amount / price * price == amount;
  }

  lemma ReductionDraft(b: ProposalBuilder, held: real, price: real, gap: real, cap: Option<real>)
    requires held >= 0.0 && price > 0.0 && gap <= 0.0 && -gap <= held * price
    ensures var d := b.DraftOf(held, price, gap, false, cap);
            && (d.Some? <==> -gap >= b.minOrderNotional && held > 0.0)
            && (d.Some? ==>
                  && d.value.action == REDUCE && d.value.quantity == None && d.value.reduceFraction.Some?
                  && 0.0 <= d.value.reduceFraction.value <= 1.0
                  && held * d.value.reduceFraction.value * price == d.value.notional == -gap)
  {
    hide ProposalBuilder.DraftOf;
    ReductionDraftIs(b, held, price, gap, cap);
    if held > 0.0 {
      ReductionIs(held, price, -gap);
    }
  }

  lemma ReductionDraftIs(b: ProposalBuilder, held: real, price: real, gap: real, cap: Option<real>)
    requires held >= 0.0 && price > 0.0 && gap <= 0.0
    ensures b.DraftOf(held, price, gap, false, cap) ==
            if held == 0.0 || -gap < b.minOrderNotional then None
            else
              var quantity := Min(-gap / price, held);
              Some(Draft(REDUCE, None, Some(quantity / held), quantity * price))
  {
  }

  lemma AmountIs(b: ProposalBuilder, t: TargetPortfolio, c: StrategyContext, s: Symbol, x: real)
    requires b.Valid() && s in c.referencePrices
    ensures var most, gap := b.InitialBuyAffordable(c.portfolio.cash), Gap(t, c, s);
            Buys(b, t, c, s, x) <==> x == if c.portfolio.positions == map[] && most < gap then most else gap
  {
    hide Means, ProposalBuilder.InitialBuyAffordable, Gap;
    var most := b.InitialBuyAffordable(c.portfolio.cash);
    MeansIs(b, c.portfolio.cash);
    if c.portfolio.positions == map[] && Buys(b, t, c, s, x) {
      var other :| Means(b, c.portfolio.cash, other) && x == if other < Gap(t, c, s) then other else Gap(t, c, s);
      MeansOnce(b, c.portfolio.cash, most, other);
    }
  }

  lemma HeldIsNotNegative(t: TargetPortfolio, c: StrategyContext, s: Symbol)
    requires c.Valid() && t.Valid() && s in c.referencePrices
    ensures HeldOf(c, s) >= 0.0 && c.referencePrices[s] > 0.0 && -Gap(t, c, s) <= HeldOf(c, s) * c.referencePrices[s]
    ensures c.portfolio.positions == map[] ==> HeldOf(c, s) == 0.0
  {
    ProductNotNegative(c.portfolio.nav, t.Weight(s));
  }

  lemma DraftForIs(b: ProposalBuilder, t: TargetPortfolio, c: StrategyContext, s: Symbol)
    requires s in c.referencePrices && c.referencePrices[s] > 0.0
    requires c.portfolio.positions == map[] ==> HeldOf(c, s) == 0.0
    ensures b.DraftFor(t, c, s)
         == b.DraftOf(HeldOf(c, s), c.referencePrices[s], Gap(t, c, s), Leaves(t, c, s),
                      if c.portfolio.positions == map[] then Some(b.InitialBuyAffordable(c.portfolio.cash)) else None)
  {
    hide ProposalBuilder.DraftOf, ProposalBuilder.InitialBuyAffordable;
    assert Gap(t, c, s) == Delta(t, c, s) && (Leaves(t, c, s) <==> FullExit(t, c, s));
  }

  lemma DraftCloses(b: ProposalBuilder, t: TargetPortfolio, c: StrategyContext, s: Symbol)
    requires b.Valid() && c.Valid() && t.Valid() && s in c.referencePrices && c.referencePrices[s] > 0.0
    ensures b.DraftFor(t, c, s).Some? <==> Leaves(t, c, s) || WorthAnOrder(b, t, c, s)
    ensures b.DraftFor(t, c, s).Some? ==> Closes(b, t, c, s, b.DraftFor(t, c, s).value)
  {
    hide Buys, ProposalBuilder.InitialBuyAffordable, StrategyContext.Valid, TargetPortfolio.Valid,
      ProposalBuilder.DraftOf, ProposalBuilder.DraftFor, Leaves, Gap;
    HeldIsNotNegative(t, c, s);
    DraftForIs(b, t, c, s);
    var held, price, gap := HeldOf(c, s), c.referencePrices[s], Gap(t, c, s);
    var most := b.InitialBuyAffordable(c.portfolio.cash);
    var cap := if c.portfolio.positions == map[] then Some(most) else None;
    if Leaves(t, c, s) {
      ExitDraft(b, held, price, gap, cap);
    } else if gap > 0.0 {
      PurchaseDraft(b, held, price, gap, cap);
      var amount := if c.portfolio.positions == map[] && most < gap then most else gap;
      forall x
        ensures Buys(b, t, c, s, x) <==> x == amount
      {
        AmountIs(b, t, c, s, x);
      }
      assert Buys(b, t, c, s, amount);
    } else {
      ReductionDraft(b, held, price, gap, cap);
    }
  }

  lemma ExitDraft(b: ProposalBuilder, held: real, price: real, gap: real, cap: Option<real>)
    requires price > 0.0
    ensures b.DraftOf(held, price, gap, true, cap) == Some(Draft(EXIT, None, None, held * price))
  {
  }

  // ----- Proposals

  /**
    A proposal closes the gap of its symbol, at the context's price and time, in the target's currency, with the
    builder's fee and its slippage on what is traded.
   */
  ghost predicate Closing(b: ProposalBuilder, t: TargetPortfolio, c: StrategyContext, p: TradeProposal) {
    && p.symbol in c.referencePrices && p.symbol in c.referenceTimes
    && p.referencePrice == c.referencePrices[p.symbol] && p.referenceTime == c.referenceTimes[p.symbol] as real
    && p.currency == t.currency && p.cancelOrderId == None && p.estimatedFee == b.estimatedFee
    && (p.notional.Some? <==> p.quantity.Some?)
    && (p.quantity.Some? ==> p.notional.value == p.quantity.value * p.referencePrice)
    && "strategy-" <= p.proposalId <= p.key && |p.proposalId| <= 33 && (|p.key| >= 33 ==> |p.proposalId| == 33)
    && exists traded: real ::
         && p.estimatedSlippage == traded * b.slippageRate
         && Closes(b, t, c, p.symbol, Draft(p.action, p.quantity, p.reduceFraction, traded))
  }

  lemma OfferedCloses(b: ProposalBuilder, t: TargetPortfolio, c: StrategyContext, p: TradeProposal)
    requires b.Valid() && c.Valid() && t.Valid() && Offered(b, t, c, p)
    ensures Closing(b, t, c, p)
  {
    hide Closes, ProposalBuilder.DraftFor, Identity, StrategyContext.Valid, TargetPortfolio.Valid;
    var n: nat :| Numbered(b, t, c, p, n);
    DraftCloses(b, t, c, p.symbol);
    var d := b.DraftFor(t, c, p.symbol).value;
    assert p.estimatedSlippage == d.notional * b.slippageRate;
    assert d == Draft(p.action, p.quantity, p.reduceFraction, d.notional);
  }

  // ----- Which symbols

  /** The economic policy lets a symbol be traded: a change over both limits, or a forced exit. */
  predicate Economic(policy: PolicyConfig, t: TargetPortfolio, c: StrategyContext, s: Symbol)
    requires s in c.referencePrices
  {
    var gap := if Gap(t, c, s) >= 0.0 then Gap(t, c, s) else -Gap(t, c, s);
    (gap > 0.0 && gap >= policy.minimumNotional && gap >= c.portfolio.nav * policy.minimumFraction)
    || (Leaves(t, c, s) && policy.forceFullExits)
  }

  lemma ExecutesIfEconomic(policy: PolicyConfig, t: TargetPortfolio, c: StrategyContext, s: Symbol)
    requires PlanFor(policy, t, c).Ok? && c.Valid() && policy.Valid()
    requires s in Universe(c.portfolio.positions, t.weights)
    ensures s in c.referencePrices
    ensures PlanFor(policy, t, c).value.ForSymbol(s).Some?
    ensures PlanFor(policy, t, c).value.ForSymbol(s).value.execute <==> Economic(policy, t, c, s)
  {
    hide PlanFor, Delta, FullExit, Gap, StrategyContext.Valid, InstructionFor;
    SameGap(t, c, s);
    PlanIsPriced(policy, t, c, s);
    PlanAnswers(policy, t, c, s);
    WhatThePlanExecutes(policy, t, c, s);
    ExitMovesMoney(t, c, s);
  }

  lemma SameGap(t: TargetPortfolio, c: StrategyContext, s: Symbol)
    ensures s in c.referencePrices ==> Gap(t, c, s) == Delta(t, c, s)
    ensures Leaves(t, c, s) <==> FullExit(t, c, s)
  {
  }

  lemma PlanIsPriced(policy: PolicyConfig, t: TargetPortfolio, c: StrategyContext, s: Symbol)
    requires PlanFor(policy, t, c).Ok?
    ensures Universe(c.portfolio.positions, t.weights) <= c.referencePrices.Keys
  {
  }

  /** Priced, allowed by the policy, and either to be left or worth an order. */
  ghost predicate Due(b: ProposalBuilder, t: TargetPortfolio, c: StrategyContext, s: Symbol) {
    && s in c.referencePrices && s in c.referenceTimes
    && (b.policy.Some? ==> Economic(b.policy.value, t, c, s))
    && (Leaves(t, c, s) || WorthAnOrder(b, t, c, s))
  }

  lemma WantedIsDue(b: ProposalBuilder, t: TargetPortfolio, c: StrategyContext, s: Symbol)
    requires b.Valid() && c.Valid() && t.Valid() && PlanOf(b.policy, t, c).Ok?
    requires s in Universe(c.portfolio.positions, t.weights)
    ensures Wanted(b, t, c, PlanOf(b.policy, t, c).value, s) <==> Due(b, t, c, s)
  {
    hide PlanFor, WorthAnOrder, Leaves, Economic, ProposalBuilder.DraftFor, TargetPortfolio.Valid;
    if b.policy.Some? {
      ExecutesIfEconomic(b.policy.value, t, c, s);
    }
    if s in c.referencePrices && c.referencePrices[s] > 0.0 {
      DraftCloses(b, t, c, s);
    }
  }

  /**
    The whole list: for exactly the symbols held or wanted that are due there is one proposal, and it closes the gap;
    what frees cash comes first.
   */
  lemma BuiltCloses(b: ProposalBuilder, t: TargetPortfolio, c: StrategyContext)
    requires b.Valid() && c.Valid() && t.Valid() && Injective(b.digest) && b.Build(t, c).Ok?
    ensures var ps := b.Build(t, c).value.proposals;
            && (forall s :: Has(ps, s) <==> s in c.portfolio.positions.Keys + t.weights.Keys && Due(b, t, c, s))
            && (forall p :: p in ps ==> Closing(b, t, c, p))
            && (forall i, j :: 0 <= i < j < |ps| ==>
                  && ps[i].symbol != ps[j].symbol && ps[i].key != ps[j].key
                  && (ps[j].action == EXIT ==> ps[i].action == EXIT)
                  && (ps[j].action == REDUCE ==> ps[i].action == EXIT || ps[i].action == REDUCE)
                  && (ps[i].action == ps[j].action ==> LexLe(ps[i].symbol, ps[j].symbol)))
  {
    hide Due, Closing, Wanted, Injective, Has, StrategyContext.Valid, TargetPortfolio.Valid, Offered, PlanOf, LexLe,
      ProposalBuilder.Collected;
    BuiltIsComplete(b, t, c);
    var r := b.Build(t, c).value;
    forall s
      ensures Has(r.proposals, s) <==> s in c.portfolio.positions.Keys + t.weights.Keys && Due(b, t, c, s)
    {
      if s in Universe(c.portfolio.positions, t.weights) {
        WantedIsDue(b, t, c, s);
      }
    }
    forall p | p in r.proposals
      ensures Closing(b, t, c, p) && (p.action == EXIT || p.action == REDUCE || p.action == BUY || p.action == ADD)
    {
      OfferedCloses(b, t, c, p);
      ProposalBecomesOrder(b, t, c, p, "");
    }
  }

  // ----- What is refused

  lemma {:induction false} CollectedRefuses(b: ProposalBuilder, t: TargetPortfolio, c: StrategyContext,
                                            plan: Option<RebalancePlan>, symbols: seq<Symbol>)
    ensures b.Collected(t, c, plan, symbols).Err? ==> b.Collected(t, c, plan, symbols) == Err(MissingPrice)
    ensures b.Collected(t, c, plan, symbols).Ok? ==>
              forall s :: s in symbols ==> b.Suppressed(plan, s) || b.Priced(c, s)
  {
    hide ProposalBuilder.DraftFor, ProposalBuilder.Dressed, ProposalBuilder.Suppressed, ProposalBuilder.Priced;
    if symbols != [] {
      CollectedRefuses(b, t, c, plan, symbols[..|symbols| - 1]);
    }
  }

  /**
    A target from another account, state or time is refused, and so is one that leaves a symbol without a price; with
    valid inputs nothing else is.
   */
  lemma BuildRefuses(b: ProposalBuilder, t: TargetPortfolio, c: StrategyContext)
    requires b.Valid() && c.Valid()
    ensures b.Build(t, c) == Err(InvalidTarget) <==>
              t.currency != c.currency || t.stateHash != c.stateHash || t.asOf != c.asOf
    ensures b.Build(t, c) == Err(MissingPrice) <==>
              t.currency == c.currency && t.stateHash == c.stateHash && t.asOf == c.asOf
              && exists s :: s in c.portfolio.positions.Keys + t.weights.Keys && s !in c.referencePrices
    ensures b.Build(t, c).Err? ==> b.Build(t, c).error == InvalidTarget || b.Build(t, c).error == MissingPrice
  {
    hide ProposalBuilder.Collected, InstructionsFor, Sort;
    if Matches(t, c) && PlanOf(b.policy, t, c).Ok? {
      var plan, universe := PlanOf(b.policy, t, c).value, Universe(c.portfolio.positions, t.weights);
      CollectedRefuses(b, t, c, plan, Sorted(universe));
      if universe <= c.referencePrices.Keys {
        CollectsWithPrices(b, t, c, plan, Sorted(universe));
      }
    }
  }
}
