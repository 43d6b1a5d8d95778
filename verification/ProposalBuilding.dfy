/** From target weights to trade proposals (strategies/proposal_builder.py). */
module ProposalBuilding {
  import opened Wrappers
  import opened Folds
  import opened Domain
  import opened Contracts
  import opened Symbols
  import opened RebalancePolicy

  /** What is decided about one symbol, before it gets an identity. */
  datatype Draft = Draft(action: TradeAction, quantity: Option<real>, reduceFraction: Option<real>, notional: real)

  datatype Built = Built(proposals: seq<TradeProposal>, plan: Option<RebalancePlan>)

  // ----- Identities

  function Digits(n: nat): string {
    if n < 10 then ["0123456789"[n]] else Digits(n / 10) + ["0123456789"[n % 10]]
  }

  function ActionName(a: TradeAction): string {
    match a
    case BUY => "BUY"
    case SELL => "SELL"
    case HOLD => "HOLD"
    case ADD => "ADD"
    case REDUCE => "REDUCE"
    case CANCEL => "CANCEL"
    case EXIT => "EXIT"
  }

  function Identity(target: TargetPortfolio, s: Symbol, a: TradeAction, ordinal: nat): string {
    target.strategyId + "|" + target.strategyVersion + "|" + target.stateHash + "|" + s + "|" + ActionName(a) + "|"
      + Digits(ordinal)
  }

  // ----- Sorting

  function Priority(a: TradeAction): int {
    if a == EXIT then 0 else if a == REDUCE then 1 else 2
  }

  /** The sort key: reductions and exits free cash before anything is bought, then by symbol. */
  predicate Before(p: TradeProposal, q: TradeProposal) {
    Priority(p.action) < Priority(q.action) || (Priority(p.action) == Priority(q.action) && LexLe(p.symbol, q.symbol))
  }

  predicate InOrder(ps: seq<TradeProposal>) {
    forall i, j :: 0 <= i < j < |ps| ==> Before(ps[i], ps[j])
  }

  function Insert(p: TradeProposal, ps: seq<TradeProposal>): seq<TradeProposal> {
    if ps == [] || Before(p, ps[0]) then [p] + ps else [ps[0]] + Insert(p, ps[1..])
  }

  function Sort(ps: seq<TradeProposal>): seq<TradeProposal> {
    if ps == [] then [] else Insert(ps[0], Sort(ps[1..]))
  }

  lemma BeforeIsAnOrder(p: TradeProposal, q: TradeProposal, r: TradeProposal)
    ensures Before(p, q) || Before(q, p)
    ensures Before(p, q) && Before(q, r) ==> Before(p, r)
  {
    LexTotal(p.symbol, q.symbol);
    if Before(p, q) && Before(q, r) && LexLe(p.symbol, q.symbol) && LexLe(q.symbol, r.symbol) {
      LexTransitive(p.symbol, q.symbol, r.symbol);
    }
  }

  lemma {:induction false} InsertKeeps(p: TradeProposal, ps: seq<TradeProposal>)
    ensures multiset(Insert(p, ps)) == multiset{p} + multiset(ps)
  {
    hide Before;
    if ps != [] && !Before(p, ps[0]) {
      InsertKeeps(p, ps[1..]);
      assert ps == [ps[0]] + ps[1..];
    }
  }

  lemma {:induction false} InsertSorts(p: TradeProposal, ps: seq<TradeProposal>)
    requires InOrder(ps)
    ensures InOrder(Insert(p, ps))
    ensures forall q :: q in Insert(p, ps) ==> q == p || q in ps
  {
    hide Before;
    if ps == [] {
      assert Insert(p, ps) == [p];
    } else if Before(p, ps[0]) {
      forall k | 0 <= k < |ps|
        ensures Before(p, ps[k])
      {
        BeforeIsAnOrder(p, ps[0], ps[k]);
      }
    } else {
      BeforeIsAnOrder(p, ps[0], p);
      InsertSorts(p, ps[1..]);
      FirstStays(ps[0], Insert(p, ps[1..]));
    }
  }

  lemma FirstStays(p: TradeProposal, rest: seq<TradeProposal>)
    requires InOrder(rest) && forall q :: q in rest ==> Before(p, q)
    ensures InOrder([p] + rest)
  {
    hide Before;
  }

  lemma {:induction false} SortSorts(ps: seq<TradeProposal>)
    ensures InOrder(Sort(ps)) && multiset(Sort(ps)) == multiset(ps)
  {
    hide Before;
    if ps != [] {
      SortSorts(ps[1..]);
      InsertSorts(ps[0], Sort(ps[1..]));
      InsertKeeps(ps[0], Sort(ps[1..]));
      assert ps == [ps[0]] + ps[1..];
    }
  }

  // ----- The builder

  datatype ProposalBuilder = ProposalBuilder(
    minOrderNotional: real,
    estimatedFee: real,
    slippageRate: real,
    policy: Option<PolicyConfig>,
    digest: string -> string)
  {
    predicate Valid() {
      minOrderNotional >= 0.0 && estimatedFee >= 0.0 && 0.0 <= slippageRate < 1.0
        && (policy.Some? ==> policy.value.Valid())
    }

    function InitialBuyAffordable(cash: real): real {
      if cash - estimatedFee <= 0.0 || 1.0 + slippageRate == 0.0 then 0.0
         else (cash - estimatedFee) / (1.0 + slippageRate)
    }

    function DraftFor(target: TargetPortfolio, ctx: StrategyContext, s: Symbol): Option<Draft>
      requires s in ctx.referencePrices && ctx.referencePrices[s] > 0.0
    {
      var held := QuantityOf(ctx.portfolio.positions, s);
      var cap := if held == 0.0 && ctx.portfolio.positions == map[] then Some(InitialBuyAffordable(ctx.portfolio.cash))
                 else None;
      DraftOf(held, ctx.referencePrices[s], Delta(target, ctx, s), FullExit(target, ctx, s), cap)
    }

    /** From the shares held, the price, the money missing to the target, and a cap on a first purchase. */
    function DraftOf(held: real, price: real, delta: real, exit: bool, cap: Option<real>): Option<Draft>
      requires price > 0.0
    {
      if exit then Some(Draft(EXIT, None, None, held * price))
      else if Abs(delta) < minOrderNotional then None
      else if delta > 0.0 then
        var executable := if cap.Some? then Min(delta, cap.value) else delta;
        if executable < minOrderNotional then None
        else Some(Draft(if held == 0.0 then BUY else ADD, Some(executable / price), None, executable))
      else if held <= 0.0 then None
      else
        var quantity := Min(-delta / price, held);
        Some(Draft(REDUCE, None, Some(quantity / held), quantity * price))
    }

    function Dressed(target: TargetPortfolio, s: Symbol, price: real, timestamp: Time, d: Draft, ordinal: nat)
      : TradeProposal
    {
      var digest := digest(Identity(target, s, d.action, ordinal));
      TradeProposal(
        "strategy-" + (if |digest| <= 24 then digest else digest[..24]),
        "strategy-" + digest,
        s,
        d.action,
        d.quantity,
        if d.quantity.Some? then Some(d.quantity.value * price) else None,
        d.reduceFraction,
        price,
        timestamp as real,
        estimatedFee,
        d.notional * slippageRate,
        target.currency,
        None)
    }

    predicate Suppressed(plan: Option<RebalancePlan>, s: Symbol) {
      plan.Some? && plan.value.ForSymbol(s).Some? && !plan.value.ForSymbol(s).value.execute
    }

    /** The context's validators keep every price positive. */
    predicate Priced(ctx: StrategyContext, s: Symbol) {
      s in ctx.referencePrices && s in ctx.referenceTimes && ctx.referencePrices[s] > 0.0
    }

    /** One iteration: at most one proposal, numbered by how many there are already. */
    function Consider(target: TargetPortfolio, ctx: StrategyContext, plan: Option<RebalancePlan>,
                      ps: seq<TradeProposal>, s: Symbol)
      : Result<seq<TradeProposal>, Error>
    {
      if Suppressed(plan, s) then Ok(ps)
      else if !Priced(ctx, s) then Err(MissingPrice)
      else
        var d := DraftFor(target, ctx, s);
        Ok(if d.None? then ps
           else ps + [Dressed(target, s, ctx.referencePrices[s], ctx.referenceTimes[s], d.value, |ps|)])
    }

    function Collected(target: TargetPortfolio, ctx: StrategyContext, plan: Option<RebalancePlan>, symbols: seq<Symbol>)
      : Result<seq<TradeProposal>, Error>
    {
      if symbols == [] then Ok([])
      else
        var ps :- Collected(target, ctx, plan, symbols[..|symbols| - 1]);
        Consider(target, ctx, plan, ps, symbols[|symbols| - 1])
    }

    function Build(target: TargetPortfolio, ctx: StrategyContext): Result<Built, Error> {
      if !Matches(target, ctx) then Err(InvalidTarget)
      else
        var plan :- PlanOf(policy, target, ctx);
        var ps :- Collected(target, ctx, plan, Sorted(Universe(ctx.portfolio.positions, target.weights)));
        Ok(Built(Sort(ps), plan))
    }

    method Collect(target: TargetPortfolio, ctx: StrategyContext, plan: Option<RebalancePlan>, symbols: seq<Symbol>)
        returns (res: Result<seq<TradeProposal>, Error>)
      ensures res == Collected(target, ctx, plan, symbols)
    {
      hide Consider;
      var proposals := [];
      for i := 0 to |symbols|
        invariant Collected(target, ctx, plan, symbols[..i]) == Ok(proposals)
      {
        assert symbols[..i + 1][..i] == symbols[..i];
        var next := Consider(target, ctx, plan, proposals, symbols[i]);
        if next.Err? {
          CollectedFails(target, ctx, plan, symbols, i + 1);
          return next;
        }
        proposals := next.value;
      }
      assert symbols[..|symbols|] == symbols;
      return Ok(proposals);
    }

    lemma CollectedFails(target: TargetPortfolio, ctx: StrategyContext, plan: Option<RebalancePlan>,
                         symbols: seq<Symbol>, n: nat)
      requires n <= |symbols| && Collected(target, ctx, plan, symbols[..n]).Err?
      ensures Collected(target, ctx, plan, symbols) == Collected(target, ctx, plan, symbols[..n])
    {
      hide Consider;
      PrefixDecides((xs: seq<Symbol>) => Collected(target, ctx, plan, xs),
                    (v: Result<seq<TradeProposal>, Error>) => v.Err?,
                    symbols, n);
    }

    method BuildWithPlan(target: TargetPortfolio, ctx: StrategyContext) returns (res: Result<Built, Error>)
      ensures res == Build(target, ctx)
    {
      if !Matches(target, ctx) {
        return Err(InvalidTarget);
      }
      var plan := None;
      if policy.Some? {
        var planned :- Plan(policy.value, target, ctx);
        plan := Some(planned);
      }
      var proposals :- Collect(target, ctx, plan, Sorted(Universe(ctx.portfolio.positions, target.weights)));
      return Ok(Built(Sort(proposals), plan));
    }
  }
}
