/** The trade / no-trade policy shared by replay and live proposals (strategies/rebalance.py). */
module RebalancePolicy {
  import opened Wrappers
  import opened Domain
  import opened Contracts
  import opened Symbols
  import opened Arithmetic

  datatype Reason = EXECUTE | FORCED_EXIT | BELOW_ECONOMIC_THRESHOLD | NO_CHANGE

  datatype PolicyConfig = PolicyConfig(minimumNotional: real, minimumFraction: real, forceFullExits: bool) {
    predicate Valid() {
      minimumNotional >= 0.0 && 0.0 <= minimumFraction <= 1.0
    }
  }

  datatype Instruction = Instruction(
    symbol: Symbol,
    currentWeight: real,
    targetWeight: real,
    deltaNotional: real,
    execute: bool,
    riskReducing: bool,
    reason: Reason)

  datatype RebalancePlan = RebalancePlan(instructions: seq<Instruction>, threshold: real) {
    /** for_symbol: the first instruction for a symbol. */
    function ForSymbol(s: Symbol): Option<Instruction> {
      First(instructions, s)
    }
  }

  function First(instructions: seq<Instruction>, s: Symbol): Option<Instruction> {
    if instructions == [] then None
    else if instructions[0].symbol == s then Some(instructions[0])
    else First(instructions[1..], s)
  }

  /** The symbols a rebalance looks at: everything held or wanted. */
  function Universe(positions: map<Symbol, Position>, weights: map<Symbol, real>): set<Symbol> {
    positions.Keys + weights.Keys
  }

  predicate Matches(target: TargetPortfolio, ctx: StrategyContext) {
    target.currency == ctx.currency && target.stateHash == ctx.stateHash && target.asOf == ctx.asOf
      && ctx.portfolio.nav >= 0.0
  }

  function Threshold(c: PolicyConfig, nav: real): real {
    Max(c.minimumNotional, nav * c.minimumFraction)
  }

  function Delta(target: TargetPortfolio, ctx: StrategyContext, s: Symbol): real
    requires s in ctx.referencePrices
  {
    ctx.portfolio.nav * target.Weight(s) - QuantityOf(ctx.portfolio.positions, s) * ctx.referencePrices[s]
  }

  predicate FullExit(target: TargetPortfolio, ctx: StrategyContext, s: Symbol) {
    QuantityOf(ctx.portfolio.positions, s) > 0.0 && target.Weight(s) == 0.0
  }

  function InstructionFor(c: PolicyConfig, target: TargetPortfolio, ctx: StrategyContext, s: Symbol): Instruction
    requires s in ctx.referencePrices
  {
    var nav := ctx.portfolio.nav;
    var currentNotional := QuantityOf(ctx.portfolio.positions, s) * ctx.referencePrices[s];
    var currentWeight := if nav > 0.0 then currentNotional / nav else 0.0;
    var delta := Delta(target, ctx, s);
    if delta == 0.0 then
      Instruction(s, currentWeight, target.Weight(s), delta, false, false, NO_CHANGE)
    else if FullExit(target, ctx, s) && c.forceFullExits then
      Instruction(s, currentWeight, target.Weight(s), delta, true, true, FORCED_EXIT)
    else
      var execute := Abs(delta) >= Threshold(c, nav);
      Instruction(s, currentWeight, target.Weight(s), delta, execute, delta < 0.0,
                  if execute then EXECUTE else BELOW_ECONOMIC_THRESHOLD)
  }

  function InstructionsFor(c: PolicyConfig, target: TargetPortfolio, ctx: StrategyContext,
                           symbols: seq<Symbol>): (r: seq<Instruction>)
    requires forall s :: s in symbols ==> s in ctx.referencePrices
    ensures |r| == |symbols|
    ensures forall i :: 0 <= i < |r| ==> r[i] == InstructionFor(c, target, ctx, symbols[i])
  {
    seq(|symbols|, i requires 0 <= i < |symbols| => InstructionFor(c, target, ctx, symbols[i]))
  }

  function PlanFor(c: PolicyConfig, target: TargetPortfolio, ctx: StrategyContext): Result<RebalancePlan, Error> {
    var symbols := Universe(ctx.portfolio.positions, target.weights);
    if !Matches(target, ctx) then Err(InvalidTarget)
    else if !(symbols <= ctx.referencePrices.Keys) then Err(MissingPrice)
    else Ok(RebalancePlan(InstructionsFor(c, target, ctx, Sorted(symbols)), Threshold(c, ctx.portfolio.nav)))
  }

  /** The plan, where there is a policy. */
  function PlanOf(policy: Option<PolicyConfig>, target: TargetPortfolio, ctx: StrategyContext)
    : Result<Option<RebalancePlan>, Error>
  {
    if policy.None? then Ok(None)
    else
      var plan :- PlanFor(policy.value, target, ctx);
      Ok(Some(plan))
  }

  method Plan(c: PolicyConfig, target: TargetPortfolio, ctx: StrategyContext)
    returns (res: Result<RebalancePlan, Error>)
    ensures res == PlanFor(c, target, ctx)
  {
    if !Matches(target, ctx) {
      return Err(InvalidTarget);
    }
    var instructions := [];
    var symbols := Sorted(Universe(ctx.portfolio.positions, target.weights));
    for i := 0 to |symbols|
      invariant forall s :: s in symbols[..i] ==> s in ctx.referencePrices
      invariant instructions == InstructionsFor(c, target, ctx, symbols[..i])
    {
      var s := symbols[i];
      if s !in ctx.referencePrices {
        return Err(MissingPrice);
      }
      assert symbols[..i + 1] == symbols[..i] + [s];
      instructions := instructions + [InstructionFor(c, target, ctx, s)];
    }
    assert symbols[..|symbols|] == symbols;
    return Ok(RebalancePlan(instructions, Threshold(c, ctx.portfolio.nav)));
  }

  lemma {:induction false} FirstIsIt(c: PolicyConfig, target: TargetPortfolio, ctx: StrategyContext,
                                     symbols: seq<Symbol>, s: Symbol)
    requires forall x :: x in symbols ==> x in ctx.referencePrices
    ensures s in symbols ==>
              First(InstructionsFor(c, target, ctx, symbols), s) == Some(InstructionFor(c, target, ctx, s))
    ensures s !in symbols ==> First(InstructionsFor(c, target, ctx, symbols), s) == None
  {
    if symbols != [] && symbols[0] != s {
      assert InstructionsFor(c, target, ctx, symbols)[1..] == InstructionsFor(c, target, ctx, symbols[1..]);
      FirstIsIt(c, target, ctx, symbols[1..], s);
    }
  }

  /** A plan answers for exactly the symbols held or wanted. */
  lemma PlanAnswers(c: PolicyConfig, target: TargetPortfolio, ctx: StrategyContext, s: Symbol)
    requires PlanFor(c, target, ctx).Ok?
    ensures PlanFor(c, target, ctx).value.ForSymbol(s) ==
            if s in Universe(ctx.portfolio.positions, target.weights) then Some(InstructionFor(c, target, ctx, s))
               else None
  {
    FirstIsIt(c, target, ctx, Sorted(Universe(ctx.portfolio.positions, target.weights)), s);
  }

  predicate Executes(plan: RebalancePlan, s: Symbol) {
    plan.ForSymbol(s).Some? && plan.ForSymbol(s).value.execute
  }

  /**
    The policy in one line: trade a symbol if the change is worth the threshold, or if the position has to go
    completely and full exits are forced. A forced exit is never held back.
   */
  lemma WhatThePlanExecutes(c: PolicyConfig, target: TargetPortfolio, ctx: StrategyContext, s: Symbol)
    requires PlanFor(c, target, ctx).Ok? && ctx.Valid() && c.Valid()
    ensures Executes(PlanFor(c, target, ctx).value, s) <==>
            && s in Universe(ctx.portfolio.positions, target.weights)
            && Delta(target, ctx, s) != 0.0
            && ((Abs(Delta(target, ctx, s)) >= c.minimumNotional
                 && Abs(Delta(target, ctx, s)) >= ctx.portfolio.nav * c.minimumFraction)
                || (FullExit(target, ctx, s) && c.forceFullExits))
    ensures FullExit(target, ctx, s) && c.forceFullExits ==>
              && Executes(PlanFor(c, target, ctx).value, s)
              && PlanFor(c, target, ctx).value.ForSymbol(s).value.riskReducing
              && PlanFor(c, target, ctx).value.ForSymbol(s).value.reason == FORCED_EXIT
  {
    hide Delta, FullExit, Threshold, Universe, InstructionFor, StrategyContext.Valid, PolicyConfig.Valid, Abs;
    PlanAnswers(c, target, ctx, s);
    ExitMovesMoney(target, ctx, s);
    if s in ctx.referencePrices {
      InstructionExecutes(c, target, ctx, s);
    }
  }

  lemma InstructionExecutes(c: PolicyConfig, target: TargetPortfolio, ctx: StrategyContext, s: Symbol)
    requires s in ctx.referencePrices
    ensures var i, delta := InstructionFor(c, target, ctx, s), Delta(target, ctx, s);
            && (i.execute <==>
                  && delta != 0.0
                  && ((Abs(delta) >= c.minimumNotional && Abs(delta) >= ctx.portfolio.nav * c.minimumFraction)
                      || (FullExit(target, ctx, s) && c.forceFullExits)))
            && (delta != 0.0 && FullExit(target, ctx, s) && c.forceFullExits ==>
                  i.riskReducing && i.reason == FORCED_EXIT)
  {
    hide Delta, FullExit, Threshold, Abs;
    ThresholdIsBoth(c, ctx.portfolio.nav, Abs(Delta(target, ctx, s)));
  }

  /** A change is worth trading if it reaches both limits, and no limit is set aside. */
  lemma ThresholdIsBoth(c: PolicyConfig, nav: real, change: real)
    ensures change >= Threshold(c, nav) <==> change >= c.minimumNotional && change >= nav * c.minimumFraction
    ensures Threshold(c, nav) == c.minimumNotional || Threshold(c, nav) == nav * c.minimumFraction
  {
  }

  /** One instruction for each of these symbols, in order. */
  ghost predicate OneEach(instructions: seq<Instruction>, symbols: set<Symbol>) {
    && (forall i, j :: 0 <= i < j < |instructions| ==>
          instructions[i].symbol != instructions[j].symbol && LexLe(instructions[i].symbol, instructions[j].symbol))
    && forall s :: s in symbols <==> exists i :: 0 <= i < |instructions| && instructions[i].symbol == s
  }

  /**
    The plan itself: refused for a target of another account, state or time, and for a symbol without a price; otherwise
    one instruction for each symbol held or wanted, in order.
   */
  lemma PlanIs(c: PolicyConfig, target: TargetPortfolio, ctx: StrategyContext)
    ensures PlanFor(c, target, ctx) == Err(InvalidTarget) <==>
              target.currency != ctx.currency || target.stateHash != ctx.stateHash || target.asOf != ctx.asOf
              || ctx.portfolio.nav < 0.0
    ensures PlanFor(c, target, ctx) == Err(MissingPrice) <==>
              target.currency == ctx.currency && target.stateHash == ctx.stateHash && target.asOf == ctx.asOf
              && ctx.portfolio.nav >= 0.0
              && exists s :: s in ctx.portfolio.positions.Keys + target.weights.Keys && s !in ctx.referencePrices
    ensures PlanFor(c, target, ctx).Err? ==>
              PlanFor(c, target, ctx).error == InvalidTarget || PlanFor(c, target, ctx).error == MissingPrice
    ensures PlanFor(c, target, ctx).Ok? ==>
              var plan := PlanFor(c, target, ctx).value;
              && OneEach(plan.instructions, ctx.portfolio.positions.Keys + target.weights.Keys)
              && (plan.threshold == c.minimumNotional || plan.threshold == ctx.portfolio.nav * c.minimumFraction)
              && plan.threshold >= c.minimumNotional && plan.threshold >= ctx.portfolio.nav * c.minimumFraction
  {
    hide InstructionsFor, OneEach, Sorted, Threshold;
    if PlanFor(c, target, ctx).Ok? {
      EachOnce(c, target, ctx, Universe(ctx.portfolio.positions, target.weights));
      ThresholdIsBoth(c, ctx.portfolio.nav, Threshold(c, ctx.portfolio.nav));
    }
  }

  lemma EachOnce(c: PolicyConfig, target: TargetPortfolio, ctx: StrategyContext, symbols: set<Symbol>)
    requires symbols <= ctx.referencePrices.Keys
    ensures OneEach(InstructionsFor(c, target, ctx, Sorted(symbols)), symbols)
  {
    hide InstructionFor, LexLe;
    ListedOnce(c, target, ctx, Sorted(symbols));
  }

  lemma ListedOnce(c: PolicyConfig, target: TargetPortfolio, ctx: StrategyContext, symbols: seq<Symbol>)
    requires forall s :: s in symbols ==> s in ctx.referencePrices
    ensures var r := InstructionsFor(c, target, ctx, symbols);
            && (forall i :: 0 <= i < |r| ==> r[i].symbol == symbols[i])
            && forall s :: s in symbols <==> exists i :: 0 <= i < |r| && r[i].symbol == s
  {
    hide InstructionFor;
    var r := InstructionsFor(c, target, ctx, symbols);
    forall i | 0 <= i < |symbols|
      ensures r[i].symbol == symbols[i]
    {
      NamedInstruction(c, target, ctx, symbols[i]);
    }
    forall s | s in symbols
      ensures exists i :: 0 <= i < |r| && r[i].symbol == s
    {
      var i :| 0 <= i < |symbols| && symbols[i] == s;
      assert r[i].symbol == s;
    }
  }

  lemma NamedInstruction(c: PolicyConfig, target: TargetPortfolio, ctx: StrategyContext, s: Symbol)
    requires s in ctx.referencePrices
    ensures InstructionFor(c, target, ctx, s).symbol == s
  {
  }

  /**
    What an instruction says beside the decision: the direction of the change, its reason, and the weight it starts
    from.
   */
  lemma InstructionMeans(c: PolicyConfig, target: TargetPortfolio, ctx: StrategyContext, s: Symbol)
    requires ctx.Valid() && s in ctx.referencePrices
    ensures var i, delta := InstructionFor(c, target, ctx, s), Delta(target, ctx, s);
            && i.symbol == s && i.deltaNotional == delta && i.targetWeight == target.Weight(s)
            && (i.riskReducing <==> delta < 0.0)
            && (i.reason == NO_CHANGE <==> delta == 0.0)
            && (i.execute <==> i.reason == EXECUTE || i.reason == FORCED_EXIT)
            && (i.reason == FORCED_EXIT <==> FullExit(target, ctx, s) && c.forceFullExits)
            && (i.reason == EXECUTE ==> Abs(delta) >= c.minimumNotional
                                        && Abs(delta) >= ctx.portfolio.nav * c.minimumFraction)
            && (i.reason == BELOW_ECONOMIC_THRESHOLD ==>
                  Abs(delta) < c.minimumNotional || Abs(delta) < ctx.portfolio.nav * c.minimumFraction)
            && delta == ctx.portfolio.nav * target.Weight(s)
                        - QuantityOf(ctx.portfolio.positions, s) * ctx.referencePrices[s]
    ensures ctx.portfolio.nav > 0.0 ==>
              InstructionFor(c, target, ctx, s).currentWeight * ctx.portfolio.nav
              == QuantityOf(ctx.portfolio.positions, s) * ctx.referencePrices[s]
  {
    hide Delta, Threshold, FullExit;
    assert Delta(target, ctx, s) == ctx.portfolio.nav * target.Weight(s)
                                    - QuantityOf(ctx.portfolio.positions, s) * ctx.referencePrices[s] by {
      DeltaIs(target, ctx, s);
    }
    ThresholdIsBoth(c, ctx.portfolio.nav, Abs(Delta(target, ctx, s)));
    ExitFalls(target, ctx, s);
    ShareOfWhole(QuantityOf(ctx.portfolio.positions, s) * ctx.referencePrices[s], ctx.portfolio.nav);
  }

  lemma DeltaIs(target: TargetPortfolio, ctx: StrategyContext, s: Symbol)
    requires s in ctx.referencePrices
    ensures Delta(target, ctx, s) == ctx.portfolio.nav * target.Weight(s)
                                     - QuantityOf(ctx.portfolio.positions, s) * ctx.referencePrices[s]
  {
  }

  lemma ShareOfWhole(part: real, whole: real)
    ensures whole > 0.0 ==> part / whole * whole == part
  {
  }

  lemma ExitFalls(target: TargetPortfolio, ctx: StrategyContext, s: Symbol)
    requires ctx.Valid() && s in ctx.referencePrices
    ensures FullExit(target, ctx, s) ==> Delta(target, ctx, s) < 0.0
  {
    if FullExit(target, ctx, s) {
      PositiveProduct(QuantityOf(ctx.portfolio.positions, s), ctx.referencePrices[s]);
      assert ctx.portfolio.nav * target.Weight(s) == 0.0;
    }
  }

  /** A full exit concerns a held symbol, so it has a price and something to sell. */
  lemma ExitMovesMoney(target: TargetPortfolio, ctx: StrategyContext, s: Symbol)
    requires ctx.Valid() && Universe(ctx.portfolio.positions, target.weights) <= ctx.referencePrices.Keys
    ensures FullExit(target, ctx, s) ==>
              s in Universe(ctx.portfolio.positions, target.weights) && Delta(target, ctx, s) < 0.0
  {
    if FullExit(target, ctx, s) {
      ExitFalls(target, ctx, s);
    }
  }
}
