/**
  What the kernel reads off its books: the price of a symbol, the worth of the portfolio,
  how much of an order is filled,
  what it still reserves, and the order a proposal asks for (execution/kernel.py:92-191).
 */
module Books {
  import opened Wrappers
  import opened Domain
  import opened RiskEngine
  import opened ExecutionLedger
  import opened Reconciler
  import opened Fills
  import opened Arithmetic
  import MapSum

  // ----- Prices

  /** The report at `n` is the last one of the symbol at a positive price. */
  predicate LastPriced(reports: seq<ExecutionReport>, s: Symbol, n: int) {
    && 0 <= n < |reports| && reports[n].symbol == s && reports[n].fillPrice > 0.0
    && forall m :: n < m < |reports| && reports[m].symbol == s ==> reports[m].fillPrice <= 0.0
  }

  predicate NeverPriced(reports: seq<ExecutionReport>, s: Symbol) {
    forall m :: 0 <= m < |reports| && reports[m].symbol == s ==> reports[m].fillPrice <= 0.0
  }

  lemma {:induction false} PriceIsLast(reports: seq<ExecutionReport>, s: Symbol)
    ensures if s in PositiveMarks(reports)
            then exists n :: LastPriced(reports, s, n) && PositiveMarks(reports)[s] == reports[n].fillPrice
            else NeverPriced(reports, s)
  {
    if reports != [] {
      var front, r := reports[..|reports| - 1], reports[|reports| - 1];
      PriceIsLast(front, s);
      if r.symbol == s && r.fillPrice > 0.0 {
        assert LastPriced(reports, s, |front|);
      } else if s in PositiveMarks(front) {
        var n :| LastPriced(front, s, n) && PositiveMarks(front)[s] == front[n].fillPrice;
        assert LastPriced(reports, s, n);
      }
    }
  }

  /** The price of a symbol: its last positive one, and one for TEST while nothing has a price at all. */
  ghost predicate HasPrice(reports: seq<ExecutionReport>, s: Symbol, price: real) {
    || (exists n :: LastPriced(reports, s, n) && price == reports[n].fillPrice)
    || (s == "TEST" && price == 1.0 && forall x: Symbol :: NeverPriced(reports, x))
  }

  lemma MarkIsLastPrice(reports: seq<ExecutionReport>, s: Symbol, price: real)
    ensures HasPrice(reports, s, price) <==> s in Marks(reports) && Marks(reports)[s] == price
  {
    hide PositiveMarks, LastPriced, NeverPriced;
    PriceIsLast(reports, s);
    OneLastPrice(reports, s);
    forall x: Symbol
      ensures x in PositiveMarks(reports) <==> !NeverPriced(reports, x)
    {
      PriceIsLast(reports, x);
      OneLastPrice(reports, x);
    }
    assert PositiveMarks(reports) == map[] <==> forall x: Symbol :: x !in PositiveMarks(reports);
  }

  lemma OneLastPrice(reports: seq<ExecutionReport>, s: Symbol)
    ensures forall m, n :: LastPriced(reports, s, m) && LastPriced(reports, s, n) ==> m == n
    ensures forall n :: LastPriced(reports, s, n) ==> !NeverPriced(reports, s)
  {
  }

  /** The position is worth its shares at the price of its symbol. */
  ghost predicate IsWorth(reports: seq<ExecutionReport>, s: Symbol, quantity: real, value: real) {
    exists price :: HasPrice(reports, s, price) && value == quantity * price
  }

  /**
    The portfolio a kernel works with: the replayed cash and positions, and the cash with every position at its price
    as its value.
   */
  lemma PortfolioIsWorth(settings: Settings, reports: seq<ExecutionReport>, values: map<Symbol, real>)
    requires Authorized(settings, reports).Ok?
    requires values.Keys == Authorized(settings, reports).value.positions.Keys
    requires forall s :: s in values ==>
               IsWorth(reports, s, Authorized(settings, reports).value.positions[s].quantity, values[s])
    ensures var portfolio, b := Authorized(settings, reports).value,
                                Replay(settings.startingCash, reports, settings.currency);
            && b.Ok? && portfolio.cash == b.value.cash >= 0.0 && portfolio.positions == b.value.positions
            && portfolio.nav == portfolio.cash + MapSum.Sum(values) >= 0.0
  {
    hide Replay, MapSum.Sum, Marks, HasPrice;
    var portfolio := Authorized(settings, reports).value;
    forall s | s in values
      ensures s in Marks(reports) && values[s] == portfolio.positions[s].quantity * Marks(reports)[s]
    {
      var price :| HasPrice(reports, s, price) && values[s] == portfolio.positions[s].quantity * price;
      MarkIsLastPrice(reports, s, price);
    }
    WorthIsSum(portfolio.positions, Marks(reports), values);
  }

  lemma WorthIsSum(positions: map<Symbol, Position>, marks: map<Symbol, real>, values: map<Symbol, real>)
    requires values.Keys == positions.Keys <= marks.Keys
    requires forall s :: s in values ==> values[s] == positions[s].quantity * marks[s]
    ensures MarketValue(positions, marks) == MapSum.Sum(values)
  {
    hide MapSum.Sum;
    var marked := map s | s in positions :: positions[s].quantity * marks[s];
    assert marked.Keys == values.Keys;
    assert forall s :: s in marked ==> marked[s] == values[s];
    assert marked == values;
  }

  // ----- Reservations

  /** What counts as filled is the largest cumulative fill reported of the key. */
  lemma {:induction false} FilledIsLargest(reports: seq<ExecutionReport>, key: Key)
    ensures forall r :: r in reports && r.key == key && r.IsFill() ==> r.fillQuantity <= Filled(reports, key)
    ensures (exists r :: r in reports && r.key == key && r.IsFill() && r.fillQuantity == Filled(reports, key))
            || (Filled(reports, key) == 0.0 && forall r :: r in reports && r.key == key ==> !r.IsFill())
  {
    if reports != [] {
      var front, r := reports[..|reports| - 1], reports[|reports| - 1];
      FilledIsLargest(front, key);
      LargestFillIsReported(front, key);
      assert reports == front + [r];
      LargestFillAppend(front, r, key);
      if exists q :: q in front && q.key == key && q.IsFill() && q.fillQuantity == Filled(front, key) {
        var q :| q in front && q.key == key && q.IsFill() && q.fillQuantity == Filled(front, key);
        assert q in reports;
      }
      assert r in reports;
    }
  }

  /** An order of which nothing is filled reserves its notional and its whole estimate. */
  lemma UnfilledReserves(s: Maps, key: Key)
    requires key in s.intents && s.intents[key].WellFormed() && key in s.estimates
    requires forall r :: r in s.reports && r.key == key ==> !r.IsFill()
    ensures Reservation(s, key) == s.intents[key].notional + s.estimates[key]
  {
    hide Filled;
    FilledIsLargest(s.reports, key);
  }

  /** Every further share that is filled frees its price, the last one the estimate as well. */
  lemma FillReleases(s: Maps, t: Maps, key: Key)
    requires key in s.intents && t.intents == s.intents && t.estimates == s.estimates && key in s.estimates
    requires Filled(s.reports, key) <= Filled(t.reports, key) <= s.intents[key].quantity
    requires Filled(s.reports, key) < s.intents[key].quantity
    ensures var i, more := s.intents[key], Filled(t.reports, key) - Filled(s.reports, key);
            Reservation(s, key) - Reservation(t, key)
            == more * i.referencePrice + if Filled(t.reports, key) == i.quantity then s.estimates[key] else 0.0
  {
    hide Filled;
    var i, more := s.intents[key], Filled(t.reports, key) - Filled(s.reports, key);
    var left := i.quantity - Filled(t.reports, key);
    Distribute(i.referencePrice, left, more);
  }

  /** What is available is what the reservations leave, and nothing where they leave nothing. */
  lemma AvailableIsTheRest(cash: real, reserved: real)
    ensures reserved <= cash ==> Spendable(cash, reserved) + reserved == cash
    ensures reserved > cash ==> Spendable(cash, reserved) == 0.0
  {
  }

  // ----- The order a proposal asks for

  /** Shares after an order of this side. */
  function Afterwards(held: real, i: OrderIntent): real {
    if i.side == BuySide then held + i.quantity else held - i.quantity
  }

  /** The shares a position should have afterwards, where the proposal says. */
  predicate AsksFor(p: TradeProposal, held: real, after: real) {
    match p.action
    case BUY => p.quantity.Some? && after - held == p.quantity.value
    case ADD => p.quantity.Some? && after - held == p.quantity.value
    case SELL => p.quantity.Some? && held - after == p.quantity.value
    case REDUCE => p.reduceFraction.Some? && after == held * (1.0 - p.reduceFraction.value)
    case EXIT => after == 0.0
    case HOLD => after == held
    case CANCEL => after == held
  }

  /**
    The order leads to the shares the proposal asks for; there is none to hold or cancel, for a purchase without a
    quantity and for a reduction without a fraction; and there is an error exactly if it would be for nothing.
   */
  lemma OrderIsAskedFor(p: TradeProposal, held: real, id: string)
    requires p.Valid() && held >= 0.0
    ensures OrderFor(p, held, id).Ok? && OrderFor(p, held, id).value.Some? ==>
              var i := OrderFor(p, held, id).value.value;
              AsksFor(p, held, Afterwards(held, i)) && i.proposalId == p.proposalId
    ensures OrderFor(p, held, id) == Ok(None) <==>
              || p.action == HOLD || p.action == CANCEL
              || ((p.action == BUY || p.action == ADD) && p.quantity.None?)
              || (p.action == REDUCE && p.reduceFraction.None?)
    ensures OrderFor(p, held, id).Err? <==>
              OrderFor(p, held, id) != Ok(None) && (AsksFor(p, held, held) || (p.action == SELL && p.quantity.None?))
    ensures OrderFor(p, held, id).Err? ==> OrderFor(p, held, id) == Err(ValidationError)
  {
    if p.action == REDUCE && p.reduceFraction.Some? {
      var f := p.reduceFraction.value;
      assert held * (1.0 - f) == held - held * f;
      ProductNotNegative(held, f);
      Positive(held * f, p.referencePrice);
    } else if p.action == EXIT {
      Positive(held, p.referencePrice);
    } else if p.quantity.Some? {
      Positive(p.quantity.value, p.referencePrice);
    }
  }

  lemma Positive(quantity: real, price: real)
    requires quantity >= 0.0 && price > 0.0
    ensures quantity > 0.0 ==> quantity * price > 0.0
  {
    if quantity > 0.0 {
      PositiveProduct(quantity, price);
    }
  }
}
