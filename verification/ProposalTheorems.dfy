/** What a list of proposals promises, down to the orders the kernel will derive from it. */
module ProposalTheorems {
  import opened Wrappers
  import opened Domain
  import opened Contracts
  import opened Symbols
  import opened RebalancePolicy
  import opened ProposalBuilding
  import opened RiskEngine
  import opened ExecutionLedger
  import MapSum
  import opened Arithmetic

  // ----- Identities differ

  lemma {:induction false} DigitsHaveNoBar(n: nat)
    ensures '|' !in Digits(n) && |Digits(n)| > 0
  {
    if n >= 10 {
      DigitsHaveNoBar(n / 10);
    }
  }

  lemma LastDigit(n: nat)
    ensures |Digits(n)| > 0 && Digits(n)[|Digits(n)| - 1] == "0123456789"[n % 10]
    ensures Digits(n)[..|Digits(n)| - 1] == if n < 10 then [] else Digits(n / 10)
  {
  }

  lemma DigitCharacters(a: nat, b: nat)
    requires a < 10 && b < 10 && "0123456789"[a] == "0123456789"[b]
    ensures a == b
  {
  }

  lemma {:induction false} DigitsInjective(m: nat, n: nat)
    requires Digits(m) == Digits(n)
    ensures m == n
  {
    hide Digits;
    LastDigit(m);
    LastDigit(n);
    DigitCharacters(m % 10, n % 10);
    LastDigit(m / 10);
    LastDigit(n / 10);
    if m >= 10 && n >= 10 {
      DigitsInjective(m / 10, n / 10);
    }
  }

  lemma AfterTheBar(a: string, x: string, b: string, y: string)
    requires a + "|" + x == b + "|" + y && '|' !in x && '|' !in y
    ensures x == y
  {
    var s := a + "|" + x;
    assert s[|a|] == '|' && s[|b|] == '|';
    assert forall i :: |a| < i < |s| ==> s[i] == x[i - |a| - 1];
    assert forall i :: |b| < i < |s| ==> s[i] == y[i - |b| - 1];
    assert |a| == |b|;
    assert x == s[|a| + 1..] && y == s[|b| + 1..];
  }

  ghost predicate Injective(digest: string -> string) {
    forall a, b :: digest(a) == digest(b) ==> a == b
  }

  lemma KeysDiffer(b: ProposalBuilder, t: TargetPortfolio, s: Symbol, u: Symbol, price: real, price2: real, time: Time,
                   time2: Time,
                   d: Draft, e: Draft, m: nat, n: nat)
    requires Injective(b.digest) && m != n
    ensures b.Dressed(t, s, price, time, d, m).key != b.Dressed(t, u, price2, time2, e, n).key
  {
    var x, y := Identity(t, s, d.action, m), Identity(t, u, e.action, n);
    if b.digest(x) == b.digest(y) {
      DigitsHaveNoBar(m);
      DigitsHaveNoBar(n);
      var front := t.strategyId + "|" + t.strategyVersion + "|" + t.stateHash + "|";
      AfterTheBar(front + s + "|" + ActionName(d.action), Digits(m), front + u + "|" + ActionName(e.action), Digits(n));
      DigitsInjective(m, n);
    } else {
      assert ("strategy-" + b.digest(x))[9..] == b.digest(x) && ("strategy-" + b.digest(y))[9..] == b.digest(y);
    }
  }

  // ----- What the loop collects

  /** A proposal is the draft for its symbol, dressed with its number in the list. */
  predicate Numbered(b: ProposalBuilder, t: TargetPortfolio, c: StrategyContext, p: TradeProposal, n: nat) {
    && b.Priced(c, p.symbol)
    && b.DraftFor(t, c, p.symbol).Some?
    && p == b.Dressed(t, p.symbol, c.referencePrices[p.symbol], c.referenceTimes[p.symbol],
                      b.DraftFor(t, c, p.symbol).value, n)
  }

  predicate Has(ps: seq<TradeProposal>, s: Symbol) {
    exists i :: 0 <= i < |ps| && ps[i].symbol == s
  }

  predicate Wanted(b: ProposalBuilder, t: TargetPortfolio, c: StrategyContext, plan: Option<RebalancePlan>, s: Symbol) {
    !b.Suppressed(plan, s) && b.Priced(c, s) && b.DraftFor(t, c, s).Some?
  }

  ghost predicate Complete(b: ProposalBuilder, t: TargetPortfolio, c: StrategyContext, plan: Option<RebalancePlan>,
                           symbols: seq<Symbol>, ps: seq<TradeProposal>) {
    && (forall i :: 0 <= i < |ps| ==> Numbered(b, t, c, ps[i], i))
    && (forall i, j :: 0 <= i < j < |ps| ==> ps[i].symbol != ps[j].symbol)
    && (forall s :: Has(ps, s) <==> s in symbols && Wanted(b, t, c, plan, s))
  }

  lemma HasAppend(ps: seq<TradeProposal>, p: TradeProposal, s: Symbol)
    ensures Has(ps + [p], s) <==> Has(ps, s) || p.symbol == s
  {
    if i :| 0 <= i < |ps| && ps[i].symbol == s {
      assert (ps + [p])[i].symbol == s;
    }
    if p.symbol == s {
      assert (ps + [p])[|ps|].symbol == s;
    }
  }

  /** One iteration either adds nothing for an unwanted symbol, or the proposal for a wanted one. */
  lemma ConsiderAdds(b: ProposalBuilder, t: TargetPortfolio, c: StrategyContext, plan: Option<RebalancePlan>,
                     ps: seq<TradeProposal>, s: Symbol)
    requires b.Consider(t, c, plan, ps, s).Ok?
    ensures b.Suppressed(plan, s) || b.Priced(c, s)
    ensures var next := b.Consider(t, c, plan, ps, s).value;
            if !Wanted(b, t, c, plan, s) then next == ps
            else |next| == |ps| + 1 && next == ps + [next[|ps|]] && next[|ps|].symbol == s
                 && Numbered(b, t, c, next[|ps|], |ps|)
  {
    hide ProposalBuilder.DraftFor, ProposalBuilder.Suppressed;
  }

  lemma CompleteStep(b: ProposalBuilder, t: TargetPortfolio, c: StrategyContext, plan: Option<RebalancePlan>,
                     symbols: seq<Symbol>, ps: seq<TradeProposal>, s: Symbol, p: TradeProposal)
    requires Complete(b, t, c, plan, symbols, ps) && s !in symbols
    requires Wanted(b, t, c, plan, s) && p.symbol == s && Numbered(b, t, c, p, |ps|)
    ensures Complete(b, t, c, plan, symbols + [s], ps + [p])
  {
    hide Numbered, Wanted, Has;
    assert !Has(ps, s);
    forall i | 0 <= i < |ps|
      ensures ps[i].symbol != s
    {
      HasAt(ps, i);
    }
    forall x
      ensures Has(ps + [p], x) <==> x in symbols + [s] && Wanted(b, t, c, plan, x)
    {
      HasAppend(ps, p, x);
    }
  }

  lemma HasAt(ps: seq<TradeProposal>, i: nat)
    requires i < |ps|
    ensures Has(ps, ps[i].symbol)
  {
  }

  lemma UnwantedStep(b: ProposalBuilder, t: TargetPortfolio, c: StrategyContext, plan: Option<RebalancePlan>,
                     symbols: seq<Symbol>, ps: seq<TradeProposal>, s: Symbol)
    requires Complete(b, t, c, plan, symbols, ps) && !Wanted(b, t, c, plan, s)
    ensures Complete(b, t, c, plan, symbols + [s], ps)
  {
    hide Numbered, Wanted, Has;
  }

  lemma {:induction false} CollectedIsComplete(b: ProposalBuilder, t: TargetPortfolio, c: StrategyContext,
                                               plan: Option<RebalancePlan>,
                                                symbols: seq<Symbol>)
    requires forall i, j :: 0 <= i < j < |symbols| ==> symbols[i] != symbols[j]
    requires b.Collected(t, c, plan, symbols).Ok?
    ensures Complete(b, t, c, plan, symbols, b.Collected(t, c, plan, symbols).value)
    ensures forall s :: s in symbols ==> b.Suppressed(plan, s) || b.Priced(c, s)
  {
    hide Numbered, Wanted, ProposalBuilder.Consider, ProposalBuilder.Suppressed, ProposalBuilder.Priced;
    if symbols != [] {
      var front, s := symbols[..|symbols| - 1], symbols[|symbols| - 1];
      CollectedIsComplete(b, t, c, plan, front);
      var ps := b.Collected(t, c, plan, front).value;
      assert s !in front && symbols == front + [s];
      ConsiderAdds(b, t, c, plan, ps, s);
      if Wanted(b, t, c, plan, s) {
        CompleteStep(b, t, c, plan, front, ps, s, b.Collected(t, c, plan, symbols).value[|ps|]);
      } else {
        UnwantedStep(b, t, c, plan, front, ps, s);
      }
    }
  }

  // ----- What is handed over

  lemma {:induction false} CountsOnce<T>(xs: seq<T>, f: T -> string, x: T)
    requires forall i, j :: 0 <= i < j < |xs| ==> f(xs[i]) != f(xs[j])
    ensures multiset(xs)[x] <= 1
    ensures multiset(xs)[x] == 1 ==> x in xs
  {
    if xs != [] {
      CountsOnce(xs[1..], f, x);
      assert xs == [xs[0]] + xs[1..];
    }
  }

  lemma CountsTwice<T>(ys: seq<T>, i: nat, j: nat)
    requires i < j < |ys| && ys[i] == ys[j]
    ensures multiset(ys)[ys[i]] >= 2
  {
    assert ys == ys[..i] + [ys[i]] + ys[i + 1..j] + [ys[j]] + ys[j + 1..];
  }

  lemma DistinctPermuted<T>(xs: seq<T>, ys: seq<T>, f: T -> string)
    requires multiset(xs) == multiset(ys)
    requires forall i, j :: 0 <= i < j < |xs| ==> f(xs[i]) != f(xs[j])
    ensures forall i, j :: 0 <= i < j < |ys| ==> f(ys[i]) != f(ys[j])
  {
    forall i, j | 0 <= i < j < |ys|
      ensures f(ys[i]) != f(ys[j])
    {
      assert ys[i] in multiset(xs) && ys[j] in multiset(xs);
      if ys[i] == ys[j] {
        CountsTwice(ys, i, j);
        CountsOnce(xs, f, ys[i]);
        assert false;
      }
    }
  }

  lemma KeysDistinct(b: ProposalBuilder, t: TargetPortfolio, c: StrategyContext, ps: seq<TradeProposal>)
    requires Injective(b.digest) && forall i :: 0 <= i < |ps| ==> Numbered(b, t, c, ps[i], i)
    ensures forall i, j :: 0 <= i < j < |ps| ==> ps[i].key != ps[j].key
  {
    hide Injective;
    forall i, j | 0 <= i < j < |ps|
      ensures ps[i].key != ps[j].key
    {
      var s, u := ps[i].symbol, ps[j].symbol;
      KeysDiffer(b, t, s, u, c.referencePrices[s], c.referencePrices[u], c.referenceTimes[s], c.referenceTimes[u],
                 b.DraftFor(t, c, s).value, b.DraftFor(t, c, u).value, i, j);
    }
  }

  ghost predicate Offered(b: ProposalBuilder, t: TargetPortfolio, c: StrategyContext, p: TradeProposal) {
    exists n: nat :: Numbered(b, t, c, p, n)
  }

  /**
    The list: reductions before purchases, one proposal per symbol and per key, for exactly the symbols that are
    held or wanted, not held back by the plan, and whose draft is not empty.
   */
  lemma BuiltIsComplete(b: ProposalBuilder, t: TargetPortfolio, c: StrategyContext)
    requires Injective(b.digest) && b.Build(t, c).Ok?
    ensures var r := b.Build(t, c).value;
            && InOrder(r.proposals)
            && (forall i, j :: 0 <= i < j < |r.proposals| ==> r.proposals[i].symbol != r.proposals[j].symbol)
            && (forall i, j :: 0 <= i < j < |r.proposals| ==> r.proposals[i].key != r.proposals[j].key)
            && (forall s :: Has(r.proposals, s)
                            <==> s in Universe(c.portfolio.positions, t.weights) && Wanted(b, t, c, r.plan, s))
            && (forall p :: p in r.proposals ==> Offered(b, t, c, p))
  {
    hide Numbered, Wanted, Injective, Has, Sort, Before, Matches, PlanFor, ProposalBuilder.Collected;
    var symbols := Sorted(Universe(c.portfolio.positions, t.weights));
    var plan := PlanOf(b.policy, t, c).value;
    var ps := b.Collected(t, c, plan, symbols).value;
    CollectedIsComplete(b, t, c, plan, symbols);
    KeysDistinct(b, t, c, ps);
    SortSorts(ps);
    DistinctPermuted(ps, Sort(ps), (p: TradeProposal) => p.symbol);
    DistinctPermuted(ps, Sort(ps), (p: TradeProposal) => p.key);
    forall s
      ensures Has(Sort(ps), s) <==> Has(ps, s)
    {
      SameSymbols(ps, Sort(ps), s);
    }
    forall p | p in Sort(ps)
      ensures Offered(b, t, c, p)
    {
      assert p in multiset(ps);
      var i :| 0 <= i < |ps| && ps[i] == p;
      assert Numbered(b, t, c, p, i);
    }
  }

  lemma SameSymbols(ps: seq<TradeProposal>, qs: seq<TradeProposal>, s: Symbol)
    requires multiset(ps) == multiset(qs)
    ensures Has(ps, s) <==> Has(qs, s)
  {
    if i :| 0 <= i < |ps| && ps[i].symbol == s {
      assert ps[i] in multiset(qs);
    }
    if j :| 0 <= j < |qs| && qs[j].symbol == s {
      assert qs[j] in multiset(ps);
    }
  }

  /**
    With a policy, nothing is proposed that its plan does not execute, and nothing executed without a price is
    skipped.
   */
  lemma OnlyExecutable(b: ProposalBuilder, t: TargetPortfolio, c: StrategyContext)
    requires Injective(b.digest) && b.Build(t, c).Ok? && b.policy.Some?
    ensures forall p :: p in b.Build(t, c).value.proposals ==> Executes(b.Build(t, c).value.plan.value, p.symbol)
  {
    hide Numbered, Injective, Sort, InOrder, ProposalBuilder.DraftFor, ProposalBuilder.Collected;
    BuiltIsComplete(b, t, c);
    var r := b.Build(t, c).value;
    forall p | p in r.proposals
      ensures Executes(r.plan.value, p.symbol)
    {
      var i :| 0 <= i < |r.proposals| && r.proposals[i] == p;
      HasAt(r.proposals, i);
      PlanAnswers(b.policy.value, t, c, p.symbol);
    }
  }

  // ----- The orders derived from the proposals

  lemma ReduceArithmetic(held: real, price: real, current: real, target: real)
    requires held > 0.0 && price > 0.0 && current == held * price && 0.0 <= target <= current
    ensures var quantity := Min((current - target) / price, held);
            && 0.0 <= quantity / held <= 1.0
            && held * (quantity / held) == quantity
            && (held - quantity) * price == target
            && 0.0 <= quantity <= held
            && (quantity > 0.0 <==> target < current)
  {
    var quantity := (current - target) / price;
    assert quantity * price == current - target;
    AtMost(quantity, held, price);
    FactorNotNegative(quantity, price);
    Ratio(quantity, held);
    assert (held - quantity) * price == held * price - quantity * price;
  }

  lemma Ratio(quantity: real, held: real)
    requires 0.0 <= quantity <= held && held > 0.0
    ensures 0.0 <= quantity / held <= 1.0 && held * (quantity / held) == quantity
  {
    assert (quantity / held) * held == quantity;
    FactorNotNegative(quantity / held, held);
    FactorNotNegative(1.0 - quantity / held, held);
  }

  /** What a draft does to a position of `held` shares: where it ends, in money. */
  predicate Effect(d: Draft, held: real, price: real, target: real) {
    && d.notional >= 0.0
    && (d.action == EXIT || d.action == REDUCE || d.action == BUY || d.action == ADD)
    && (d.action == EXIT ==> held > 0.0 && target == 0.0 && d.quantity.None? && d.reduceFraction.None?)
    && (d.action == REDUCE ==> d.quantity.None? && ReducesTo(d.reduceFraction, held, price, target))
    && (d.action == BUY || d.action == ADD ==>
          d.reduceFraction.None? && BuysWithin(d.quantity, d.notional, held, price, target))
  }

  /** Selling the fraction leaves exactly the target; it sells nothing only if there is nothing to sell. */
  predicate ReducesTo(fraction: Option<real>, held: real, price: real, target: real) {
    && fraction.Some? && 0.0 <= fraction.value <= 1.0 && held > 0.0 && target <= held * price
    && (held - held * fraction.value) * price == target
    && (held * fraction.value > 0.0 <==> target < held * price)
  }

  /** Buying the quantity never exceeds the target. */
  predicate BuysWithin(quantity: Option<real>, notional: real, held: real, price: real, target: real) {
    && quantity.Some? && quantity.value >= 0.0 && held * price < target
    && quantity.value * price == notional && held * price + notional <= target
  }

  /** There is something to trade. */
  predicate Large(d: Draft, held: real, price: real, target: real) {
    && (d.action == REDUCE ==> target < held * price)
    && (d.action == BUY || d.action == ADD ==> d.notional > 0.0)
  }

  lemma ReduceDraft(b: ProposalBuilder, held: real, price: real, delta: real, target: real)
    requires held > 0.0 && price > 0.0 && target >= 0.0 && delta <= 0.0 && target == held * price + delta
    ensures var quantity := Min(-delta / price, held);
            quantity * price >= 0.0 && ReducesTo(Some(quantity / held), held, price, target)
  {
    ReduceArithmetic(held, price, held * price, target);
    var quantity := Min(-delta / price, held);
    ProductNotNegative(quantity, price);
  }

  lemma BuyDraft(quantity: real, notional: real, price: real)
    requires price > 0.0 && quantity == notional / price && notional >= 0.0
    ensures quantity >= 0.0 && quantity * price == notional
  {
    assert quantity * price == notional;
    FactorNotNegative(quantity, price);
  }

  lemma DraftEffect(b: ProposalBuilder, held: real, price: real, delta: real, exit: bool, cap: Option<real>,
                    target: real)
    requires b.Valid() && held >= 0.0 && price > 0.0 && target >= 0.0 && target == held * price + delta
    requires exit ==> held > 0.0 && target == 0.0
    requires b.DraftOf(held, price, delta, exit, cap).Some?
    ensures Effect(b.DraftOf(held, price, delta, exit, cap).value, held, price, target)
    ensures b.minOrderNotional > 0.0 ==> Large(b.DraftOf(held, price, delta, exit, cap).value, held, price, target)
    ensures b.DraftOf(held, price, delta, exit, cap).value.action == BUY ==>
              held == 0.0 && (cap.Some? ==> b.DraftOf(held, price, delta, exit, cap).value.notional <= cap.value)
  {
    hide ReducesTo;
    ProductNotNegative(held, price);
    if !exit {
      if delta > 0.0 {
        var executable := if cap.Some? then Min(delta, cap.value) else delta;
        BuyDraft(executable / price, executable, price);
      } else {
        ReduceDraft(b, held, price, delta, target);
      }
    }
  }

  function HeldOf(c: StrategyContext, s: Symbol): real {
    QuantityOf(c.portfolio.positions, s)
  }

  function TargetOf(t: TargetPortfolio, c: StrategyContext, s: Symbol): real {
    c.portfolio.nav * t.Weight(s)
  }

  /** The fields of a proposal, given the draft behind it. */
  predicate Shows(b: ProposalBuilder, p: TradeProposal, d: Draft) {
    && p.action == d.action && p.quantity == d.quantity && p.reduceFraction == d.reduceFraction
    && p.estimatedFee == b.estimatedFee && p.estimatedSlippage == d.notional * b.slippageRate
    && (p.notional.Some? <==> d.quantity.Some?)
    && (d.quantity.Some? ==> p.notional.value == d.quantity.value * p.referencePrice)
  }

  lemma NumberedShows(b: ProposalBuilder, t: TargetPortfolio, c: StrategyContext, p: TradeProposal, n: nat)
    requires Numbered(b, t, c, p, n)
    ensures p.referencePrice == c.referencePrices[p.symbol] && Shows(b, p, b.DraftFor(t, c, p.symbol).value)
  {
    hide ProposalBuilder.DraftFor, Identity;
  }

  /** The draft behind a proposal, and its effect. */
  lemma OfferedEffect(b: ProposalBuilder, t: TargetPortfolio, c: StrategyContext, p: TradeProposal) returns (d: Draft)
    requires b.Valid() && c.Valid() && t.Valid() && Offered(b, t, c, p)
    ensures p.symbol in c.referencePrices && p.referencePrice == c.referencePrices[p.symbol] > 0.0 && Shows(b, p, d)
    ensures Effect(d, HeldOf(c, p.symbol), p.referencePrice, TargetOf(t, c, p.symbol))
    ensures b.minOrderNotional > 0.0 ==> Large(d, HeldOf(c, p.symbol), p.referencePrice, TargetOf(t, c, p.symbol))
    ensures p.action == BUY ==> HeldOf(c, p.symbol) == 0.0
    ensures p.action == BUY && c.portfolio.positions == map[] ==> d.notional <= b.InitialBuyAffordable(c.portfolio.cash)
  {
    hide Effect, Large, ProposalBuilder.DraftOf, ProposalBuilder.InitialBuyAffordable, ProposalBuilder.Dressed;
    var s := p.symbol;
    d := b.DraftFor(t, c, s).value;
    var n: nat :| Numbered(b, t, c, p, n);
    NumberedShows(b, t, c, p, n);
    var held := HeldOf(c, s);
    var cap := if held == 0.0 && c.portfolio.positions == map[] then Some(b.InitialBuyAffordable(c.portfolio.cash))
               else None;
    ProductNotNegative(c.portfolio.nav, t.Weight(s));
    DraftEffect(b, held, c.referencePrices[s], Delta(t, c, s), FullExit(t, c, s), cap, TargetOf(t, c, s));
  }

  predicate ExitOrder(o: Result<Option<OrderIntent>, Error>, held: real) {
    o.Ok? && o.value.Some? && o.value.value.side == SellSide && o.value.value.quantity == held
  }

  predicate ReduceOrder(o: Result<Option<OrderIntent>, Error>, held: real, price: real, target: real) {
    if target < held * price
    then o.Ok? && o.value.Some? && o.value.value.side == SellSide
         && o.value.value.quantity <= held && (held - o.value.value.quantity) * price == target
    else o == Err(ValidationError)
  }

  predicate BuyOrder(o: Result<Option<OrderIntent>, Error>, notional: real, held: real, price: real, target: real) {
    if notional > 0.0
    then o.Ok? && o.value.Some? && o.value.value.side == BuySide
         && o.value.value.notional == notional && held * price + o.value.value.notional <= target
    else o == Err(ValidationError)
  }

  lemma ExitBecomesOrder(p: TradeProposal, held: real, id: string)
    requires p.action == EXIT && p.referencePrice > 0.0 && held > 0.0
    ensures ExitOrder(OrderFor(p, held, id), held)
  {
    PositiveProduct(held, p.referencePrice);
  }

  lemma ReduceBecomesOrder(p: TradeProposal, held: real, id: string, target: real)
    requires p.action == REDUCE && p.referencePrice > 0.0 && ReducesTo(p.reduceFraction, held, p.referencePrice, target)
    ensures ReduceOrder(OrderFor(p, held, id), held, p.referencePrice, target)
  {
    var quantity := held * p.reduceFraction.value;
    if quantity > 0.0 {
      PositiveProduct(quantity, p.referencePrice);
    }
    ProductNotNegative(held, 1.0 - p.reduceFraction.value);
    assert held - quantity == held * (1.0 - p.reduceFraction.value);
  }

  lemma BuyBecomesOrder(p: TradeProposal, held: real, id: string, notional: real, target: real)
    requires (p.action == BUY || p.action == ADD) && p.referencePrice > 0.0
    requires BuysWithin(p.quantity, notional, held, p.referencePrice, target) && notional >= 0.0
    ensures BuyOrder(OrderFor(p, held, id), notional, held, p.referencePrice, target)
  {
  }

  /**
    Down to the order: an EXIT sells everything, a REDUCE leaves exactly the target, a BUY or ADD stays within it.
    The only orders that cannot be constructed are those for nothing at all.
   */
  lemma ProposalBecomesOrder(b: ProposalBuilder, t: TargetPortfolio, c: StrategyContext, p: TradeProposal, id: string)
    requires b.Valid() && c.Valid() && t.Valid() && Offered(b, t, c, p)
    ensures p.Valid()
    ensures p.action == EXIT || p.action == REDUCE || p.action == BUY || p.action == ADD
    ensures var held, price, target := HeldOf(c, p.symbol), p.referencePrice, TargetOf(t, c, p.symbol);
            var o := OrderFor(p, held, id);
            && (p.action == EXIT ==> target == 0.0 && ExitOrder(o, held))
            && (p.action == REDUCE ==> ReduceOrder(o, held, price, target))
            && (p.action == BUY || p.action == ADD ==>
                  p.notional.Some? && BuyOrder(o, p.notional.value, held, price, target))
  {
    hide ReduceOrder, BuyOrder, ExitOrder, Effect, ProposalBuilder.DraftFor, ProposalBuilder.Dressed;
    var d := OfferedEffect(b, t, c, p);
    ShownBecomesOrder(b, p, d, HeldOf(c, p.symbol), id, TargetOf(t, c, p.symbol));
  }

  lemma ShownBecomesOrder(b: ProposalBuilder, p: TradeProposal, d: Draft, held: real, id: string, target: real)
    requires b.Valid() && p.referencePrice > 0.0 && Shows(b, p, d) && Effect(d, held, p.referencePrice, target)
    ensures p.Valid()
    ensures p.action == EXIT || p.action == REDUCE || p.action == BUY || p.action == ADD
    ensures var price, o := p.referencePrice, OrderFor(p, held, id);
            && (p.action == EXIT ==> target == 0.0 && ExitOrder(o, held))
            && (p.action == REDUCE ==> ReduceOrder(o, held, price, target))
            && (p.action == BUY || p.action == ADD ==>
                  p.notional.Some? && BuyOrder(o, p.notional.value, held, price, target))
  {
    hide ReduceOrder, BuyOrder, OrderFor;
    ProductNotNegative(d.notional, b.slippageRate);
    if p.action == EXIT {
      ExitBecomesOrder(p, held, id);
    } else if p.action == REDUCE {
      ReduceBecomesOrder(p, held, id, target);
    } else {
      assert p.notional.value == d.notional;
      BuyBecomesOrder(p, held, id, d.notional, target);
    }
  }

  lemma AffordableWithCosts(b: ProposalBuilder, cash: real, notional: real)
    requires b.Valid() && 0.0 < notional <= b.InitialBuyAffordable(cash)
    ensures notional + (b.estimatedFee + notional * b.slippageRate) <= cash
  {
    var rate := 1.0 + b.slippageRate;
    var most := (cash - b.estimatedFee) / rate;
    assert most * rate == cash - b.estimatedFee;
    ProductNotNegative(most - notional, rate);
    assert (most - notional) * rate == most * rate - notional * rate;
  }

  /** The first purchase into an empty portfolio, with nothing reserved, is never refused for want of cash. */
  lemma FirstPurchaseIsFunded(b: ProposalBuilder, t: TargetPortfolio, c: StrategyContext, p: TradeProposal, id: string,
                              settings: Settings,
                              mode: ExperimentMode, killSwitch: bool, known: set<Key>, now: real)
    requires b.Valid() && c.Valid() && t.Valid() && Offered(b, t, c, p)
    requires c.portfolio.positions == map[] && p.action == BUY && OrderFor(p, 0.0, id).Ok?
    ensures Evaluate(settings, p, OrderFor(p, 0.0, id).value, Spendable(c.portfolio.cash, 0.0), 0.0, mode, killSwitch,
                     known, now).reason
            != INSUFFICIENT_CASH
  {
    hide Effect, ReduceOrder, OrderFor, ProposalBuilder.InitialBuyAffordable, ProposalBuilder.DraftFor,
      ProposalBuilder.Dressed;
    var d := OfferedEffect(b, t, c, p);
    FundedNotional(b, t, c, p, id, d);
    AffordableWithCosts(b, c.portfolio.cash, d.notional);
  }

  lemma NothingReserved(s: Maps)
    requires forall k :: !OpenBuy(s, k)
    ensures Reserved(s) == Ok(0.0)
  {
    hide Reservation, OpenBuy;
    assert Reservations(s) == map[];
    MapSum.Empty<Key>();
  }

  /**
    The kernel's own decision on a first purchase: with no purchase open and a portfolio rebuilt from its reports
    that is the empty one the builder saw, the proposal is not refused for want of cash.
   */
  lemma FirstDecisionIsFunded(b: ProposalBuilder, t: TargetPortfolio, c: StrategyContext, p: TradeProposal,
                              settings: Settings, s: Maps, mode: ExperimentMode, env: Env)
    requires b.Valid() && c.Valid() && t.Valid() && Offered(b, t, c, p)
    requires c.portfolio.positions == map[] && p.action == BUY
    requires forall k :: !OpenBuy(s, k)
    requires Authorized(settings, s.reports).Ok?
    requires Authorized(settings, s.reports).value.cash == c.portfolio.cash
             && Authorized(settings, s.reports).value.positions == map[]
    ensures var verdict := Decide(settings, WithEstimate(s, p), mode, p, env);
            && (verdict.Ok? <==> OrderFor(p, 0.0, env.intentId).Ok?)
            && (verdict.Ok? ==> verdict.value.decision.reason != INSUFFICIENT_CASH)
  {
    hide Evaluate, OrderFor, Reserved, Authorized, Offered;
    forall k ensures !OpenBuy(WithEstimate(s, p), k) {
      assert OpenBuy(WithEstimate(s, p), k) == OpenBuy(s, k);
    }
    NothingReserved(WithEstimate(s, p));
    if OrderFor(p, 0.0, env.intentId).Ok? {
      FirstPurchaseIsFunded(b, t, c, p, env.intentId, settings, mode, env.killSwitch, s.known, env.now);
    }
  }

  lemma FundedNotional(b: ProposalBuilder, t: TargetPortfolio, c: StrategyContext, p: TradeProposal, id: string,
                       d: Draft)
    requires p.action == BUY && p.referencePrice > 0.0 && OrderFor(p, 0.0, id).Ok? && p.quantity == d.quantity
             && p.action == d.action
    requires Effect(d, 0.0, p.referencePrice, TargetOf(t, c, p.symbol))
    ensures OrderFor(p, 0.0, id).value.Some? && OrderFor(p, 0.0, id).value.value.notional == d.notional > 0.0
    ensures OrderFor(p, 0.0, id).value.value.side == BuySide && d.quantity.value * p.referencePrice == d.notional
  {
    BuyBecomesOrder(p, 0.0, id, d.notional, TargetOf(t, c, p.symbol));
  }

  // ----- Orders for nothing

  /** A builder with a minimum order size proposes no order that cannot be constructed. */
  lemma MinimumMeansOrders(b: ProposalBuilder, t: TargetPortfolio, c: StrategyContext, p: TradeProposal, id: string)
    requires b.Valid() && c.Valid() && t.Valid() && Offered(b, t, c, p) && b.minOrderNotional > 0.0
    ensures OrderFor(p, HeldOf(c, p.symbol), id).Ok? && OrderFor(p, HeldOf(c, p.symbol), id).value.Some?
  {
    hide OrderFor, Effect, Large, ProposalBuilder.DraftFor, ProposalBuilder.Dressed;
    var d := OfferedEffect(b, t, c, p);
    LargeMeansOrder(b, p, d, HeldOf(c, p.symbol), id, TargetOf(t, c, p.symbol));
  }

  lemma LargeMeansOrder(b: ProposalBuilder, p: TradeProposal, d: Draft, held: real, id: string, target: real)
    requires b.Valid() && p.referencePrice > 0.0 && Shows(b, p, d)
    requires Effect(d, held, p.referencePrice, target) && Large(d, held, p.referencePrice, target)
    ensures OrderFor(p, held, id).Ok? && OrderFor(p, held, id).value.Some?
  {
    hide OrderFor;
    ShownBecomesOrder(b, p, d, held, id, target);
  }
}
