/**
  The share side of solvency.  The kernel reserves no shares for open sales, so what covers them is stated here: the
  shares held of every symbol are at least what its open sales may still take.
 */
module ShareCover {
  import opened Wrappers
  import opened Domain
  import opened RiskEngine
  import opened ExecutionLedger
  import opened LedgerTheorems
  import opened Reconciler
  import opened Telescoping
  import opened Fills
  import MapSum

  predicate OpenSell(s: Maps, key: Key) {
    key in s.intents && s.intents[key].side == SellSide && !IsTerminal(s.Status(s.intents[key].intentId))
  }

  /** The shares an order may still take. */
  function Owed(s: Maps, key: Key): real
    requires key in s.intents
  {
    Max(s.intents[key].quantity - Filled(s.reports, key), 0.0)
  }

  ghost function OwedShares(s: Maps, symbol: Symbol): map<Key, real> {
    map k | k in s.intents && OpenSell(s, k) && s.intents[k].symbol == symbol :: Owed(s, k)
  }

  ghost predicate SymbolCovered(s: Maps, b: Book, symbol: Symbol) {
    MapSum.Sum(OwedShares(s, symbol)) <= QuantityOf(b.positions, symbol)
  }

  ghost predicate SharesCovered(s: Maps, b: Book) {
    forall symbol :: SymbolCovered(s, b, symbol)
  }

  /** A sale fills at most what was ordered, and nothing once it is full or terminal. */
  predicate FairSale(s: Maps, b: Book, r: ExecutionReport)
    requires r.key in s.intents
  {
    if OpenSell(s, r.key) && Filled(s.reports, r.key) < s.intents[r.key].quantity
    then r.fillQuantity <= s.intents[r.key].quantity
    else QuantityIncrement(b, r) == 0.0
  }

  /** The shares are there for a further sale of a symbol. */
  ghost predicate SaleFits(s: Maps, b: Book, i: OrderIntent) {
    i.side == SellSide ==> i.quantity + MapSum.Sum(OwedShares(s, i.symbol)) <= QuantityOf(b.positions, i.symbol)
  }

  lemma OwedNotNegative(s: Maps, symbol: Symbol)
    ensures MapSum.Sum(OwedShares(s, symbol)) >= 0.0
    ensures forall k :: k in OwedShares(s, symbol) ==>
              0.0 <= OwedShares(s, symbol)[k] <= MapSum.Sum(OwedShares(s, symbol))
  {
    hide MapSum.Sum, LargestFill;
    MapSum.NonNegative(OwedShares(s, symbol));
  }

  /** Covered sales never run short: replaying a fair fill cannot fail for want of shares. */
  lemma FairSaleIsHeld(s: Maps, b: Book, r: ExecutionReport)
    requires SharesCovered(s, b) && FillsLinked(b, s.reports) && OneOrderPerKey(s, r)
    requires r.IsFill() && r.key in s.intents && r.side == SellSide == s.intents[r.key].side
    requires r.symbol == s.intents[r.key].symbol && FairSale(s, b, r)
    ensures QuantityIncrement(b, r) > 0.0 ==>
              r.symbol in b.positions && QuantityIncrement(b, r) <= b.positions[r.symbol].quantity
  {
    hide MapSum.Sum, LargestFill;
    PreviousFill(b, s, r);
    OwedNotNegative(s, r.symbol);
    assert SymbolCovered(s, b, r.symbol);
    if QuantityIncrement(b, r) > 0.0 {
      assert r.key in OwedShares(s, r.symbol);
    }
  }

  /** A report that is no fill owes nothing to anybody. */
  lemma SameOwed(s: Maps, t: Maps, b: Book, b': Book)
    requires t.intents == s.intents && t.machines == s.machines && b'.positions == b.positions
    requires forall k :: k in s.intents ==> Filled(t.reports, k) == Filled(s.reports, k)
    ensures SharesCovered(t, b') <==> SharesCovered(s, b)
  {
    hide MapSum.Sum, LargestFill, Filled;
    forall symbol
      ensures SymbolCovered(t, b', symbol) <==> SymbolCovered(s, b, symbol)
    {
      assert OwedShares(t, symbol) == OwedShares(s, symbol);
    }
  }

  /** A fill takes from the shares no more than from what its own order is owed. */
  lemma CoveredAfterFill(s: Maps, b: Book, b': Book, r: ExecutionReport)
    requires SharesCovered(s, b) && FillsLinked(b, s.reports) && OneOrderPerKey(s, r)
    requires r.IsFill() && r.key in s.intents && r.side == s.intents[r.key].side && r.symbol == s.intents[r.key].symbol
    requires QuantityIncrement(b, r) >= 0.0 && (r.side == SellSide ==> FairSale(s, b, r))
    requires forall x :: QuantityOf(b'.positions, x) == QuantityOf(b.positions, x) +
               (if x != r.symbol then 0.0
                else if r.side == BuySide then QuantityIncrement(b, r) else -QuantityIncrement(b, r))
    ensures SharesCovered(s.(reports := s.reports + [r]), b')
  {
    hide MapSum.Sum, LargestFill, Filled;
    var t := s.(reports := s.reports + [r]);
    forall symbol
      ensures SymbolCovered(t, b', symbol)
    {
      assert SymbolCovered(s, b, symbol);
      OwedAfterFill(s, b, r, symbol);
    }
  }

  lemma OwedAfterFill(s: Maps, b: Book, r: ExecutionReport, symbol: Symbol)
    requires FillsLinked(b, s.reports) && OneOrderPerKey(s, r)
    requires r.IsFill() && r.key in s.intents && r.side == s.intents[r.key].side && r.symbol == s.intents[r.key].symbol
    requires QuantityIncrement(b, r) >= 0.0 && (r.side == SellSide ==> FairSale(s, b, r))
    ensures MapSum.Sum(OwedShares(s.(reports := s.reports + [r]), symbol))
            <= MapSum.Sum(OwedShares(s, symbol))
               - if r.side == SellSide && r.symbol == symbol then QuantityIncrement(b, r) else 0.0
  {
    hide MapSum.Sum, LargestFill;
    var t := s.(reports := s.reports + [r]);
    var c, d := OwedShares(s, symbol), OwedShares(t, symbol);
    forall k | k in s.intents
      ensures k != r.key ==> Filled(t.reports, k) == Filled(s.reports, k)
      ensures k == r.key ==> Filled(t.reports, k) == Filled(s.reports, k) + QuantityIncrement(b, r) == r.fillQuantity
    {
      PreviousFill(b, s, r);
      FilledAfter(b, s, r, k);
    }
    forall k | k in c && k != r.key
      ensures k in d && d[k] == c[k]
    {
    }
    assert c.Keys == d.Keys;
    MapSum.ChangedAt(c, d, r.key);
  }

  /** A new sale is covered together with the open ones if and only if the shares are there for all of them. */
  lemma CoveredAfterIntent(s: Maps, b: Book, i: OrderIntent)
    requires SharesCovered(s, b) && i.WellFormed() && i.key !in s.intents && i.intentId !in s.machines
    requires forall r :: r in s.reports ==> r.key != i.key
    ensures SharesCovered(Opened(s, i), b) <==> SaleFits(s, b, i)
  {
    hide MapSum.Sum, LargestFill;
    NoReportsNoFill(s.reports, i.key);
    var t := Opened(s, i);
    forall symbol
      ensures SymbolCovered(t, b, symbol) <==> (symbol == i.symbol ==> SaleFits(s, b, i))
    {
      assert SymbolCovered(s, b, symbol);
      OwedAfterIntent(s, i, symbol);
    }
    if SharesCovered(t, b) {
      assert SymbolCovered(t, b, i.symbol);
    }
  }

  lemma OwedAfterIntent(s: Maps, i: OrderIntent, symbol: Symbol)
    requires i.WellFormed() && i.key !in s.intents && i.intentId !in s.machines && Filled(s.reports, i.key) == 0.0
    ensures MapSum.Sum(OwedShares(Opened(s, i), symbol))
            == MapSum.Sum(OwedShares(s, symbol)) + if i.side == SellSide && i.symbol == symbol then i.quantity else 0.0
  {
    hide MapSum.Sum, LargestFill, Filled;
    var t := Opened(s, i);
    var c, d := OwedShares(s, symbol), OwedShares(t, symbol);
    forall k | k in c
      ensures k in d && d[k] == c[k]
    {
    }
    assert c.Keys - {i.key} == d.Keys - {i.key};
    MapSum.ChangedAt(c, d, i.key);
  }

  /** The risk engine's position test covers a sale while no other sale of its symbol is open. */
  lemma LoneSaleFits(s: Maps, b: Book, i: OrderIntent)
    requires i.side == SellSide ==> i.quantity <= QuantityOf(b.positions, i.symbol)
    requires forall k :: k in s.intents && OpenSell(s, k) ==> s.intents[k].symbol != i.symbol
    ensures SaleFits(s, b, i)
  {
    assert OwedShares(s, i.symbol) == map[];
  }

  /** An order that moves, to the end or not, is owed no more than before. */
  lemma CoveredAfterMove(s: Maps, b: Book, o: string, to: OrderStatus)
    requires SharesCovered(s, b) && IdsDistinct(s) && to in Allowed(s.Status(o))
    ensures SharesCovered(s.(machines := s.machines[o := to]), b)
  {
    hide MapSum.Sum, LargestFill, Filled;
    var t := s.(machines := s.machines[o := to]);
    forall symbol
      ensures SymbolCovered(t, b, symbol)
    {
      assert SymbolCovered(s, b, symbol);
      OwedAfterMove(s, o, to, symbol);
    }
  }

  lemma OwedAfterMove(s: Maps, o: string, to: OrderStatus, symbol: Symbol)
    requires IdsDistinct(s) && to in Allowed(s.Status(o))
    ensures MapSum.Sum(OwedShares(s.(machines := s.machines[o := to]), symbol)) <= MapSum.Sum(OwedShares(s, symbol))
  {
    hide MapSum.Sum, LargestFill, Filled, OpenSell;
    var t := s.(machines := s.machines[o := to]);
    var c, d := OwedShares(s, symbol), OwedShares(t, symbol);
    forall k | k in s.intents
      ensures OpenSell(t, k) ==> OpenSell(s, k)
      ensures s.intents[k].intentId != o ==> OpenSell(t, k) == OpenSell(s, k)
    {
      OpenAfterMove(s, o, to, k);
    }
    forall k | k in d
      ensures k in c && d[k] == c[k]
    {
    }
    OwedNotNegative(s, symbol);
    if k :| k in c && k !in d {
      assert forall j :: j in c && j != k ==> j in d;
      MapSum.ChangedAt(c, d, k);
    } else {
      assert d == c;
    }
  }

  lemma OpenAfterMove(s: Maps, o: string, to: OrderStatus, k: Key)
    requires k in s.intents && to in Allowed(s.Status(o))
    ensures OpenSell(s.(machines := s.machines[o := to]), k) ==> OpenSell(s, k)
    ensures s.intents[k].intentId != o ==> OpenSell(s.(machines := s.machines[o := to]), k) == OpenSell(s, k)
  {
  }

  // ----- What the kernel does not see

  /** What a decision sees of the orders: the open purchases, with their estimates, and whether its own key is known. */
  ghost predicate SamePurchases(s: Maps, t: Maps) {
    && t.reports == s.reports
    && forall k :: (OpenBuy(t, k) <==> OpenBuy(s, k))
                   && (OpenBuy(s, k) ==> t.intents[k] == s.intents[k]
                                         && MapSum.Get(t.estimates, k) == MapSum.Get(s.estimates, k))
  }

  lemma DecisionsSeePurchases(settings: Settings, s: Maps, t: Maps, mode: ExperimentMode, p: TradeProposal, env: Env)
    requires SamePurchases(s, t) && (p.key in t.known <==> p.key in s.known)
    ensures Reserved(t) == Reserved(s)
    ensures Decide(settings, t, mode, p, env) == Decide(settings, s, mode, p, env)
  {
    hide MapSum.Sum, LargestFill, Filled, Authorized, OpenBuy;
    DeriveReadsReports(settings, s, t, p, env.intentId);
    SameReservations(s, t);
    SameVerdict(settings, p, mode, env, s.known, t.known);
  }

  /** Of the known keys a decision reads only whether its own is among them. */
  lemma SameVerdict(settings: Settings, p: TradeProposal, mode: ExperimentMode, env: Env, known: set<Key>,
                    more: set<Key>)
    requires p.key in known <==> p.key in more
    ensures forall intent: Option<OrderIntent>, cash: real, held: real ::
              Evaluate(settings, p, intent, cash, held, mode, env.killSwitch, more, env.now)
              == Evaluate(settings, p, intent, cash, held, mode, env.killSwitch, known, env.now)
  {
  }

  lemma SameReservations(s: Maps, t: Maps)
    requires SamePurchases(s, t)
    ensures Reserved(t) == Reserved(s)
  {
    hide MapSum.Sum, LargestFill, Filled, OpenBuy;
    forall k | OpenBuy(s, k)
      ensures k in s.intents && k in t.intents && Reservation(t, k) == Reservation(s, k)
    {
      OpenBuyIsIntent(s, k);
      OpenBuyIsIntent(t, k);
    }
    forall k | OpenBuy(t, k)
      ensures k in t.intents
    {
      OpenBuyIsIntent(t, k);
    }
    assert Reservations(t) == Reservations(s);
    assert Overfilled(t) == Overfilled(s);
  }

  lemma OpenBuyIsIntent(s: Maps, k: Key)
    ensures OpenBuy(s, k) ==> k in s.intents
  {
  }

  /** The dictionaries after a sale has been proposed, approved, opened and moved: all that the kernel changes. */
  function AfterSale(s: Maps, p: TradeProposal, i: OrderIntent, status: OrderStatus): Maps {
    var t := Opened(WithEstimate(s, p).(known := s.known + {p.key}), i);
    t.(machines := t.machines[i.intentId := status])
  }

  /** Open sales reserve nothing: no decision on another key depends on them, nor on their estimates or machines. */
  lemma OpenSalesAreInvisible(settings: Settings, s: Maps, sale: TradeProposal, i: OrderIntent, status: OrderStatus,
                              mode: ExperimentMode, p: TradeProposal, env: Env)
    requires i.side == SellSide && i.key == sale.key && sale.key !in s.intents && !IsIntentId(s, i.intentId)
    requires p.key != sale.key
    ensures Decide(settings, AfterSale(s, sale, i, status), mode, p, env) == Decide(settings, s, mode, p, env)
  {
    hide Decide, Reserved;
    var t := AfterSale(s, sale, i, status);
    forall k
      ensures OpenBuy(t, k) <==> OpenBuy(s, k)
      ensures OpenBuy(s, k) ==>
                t.intents[k] == s.intents[k] && MapSum.Get(t.estimates, k) == MapSum.Get(s.estimates, k)
    {
    }
    DecisionsSeePurchases(settings, s, t, mode, p, env);
  }

  /** The full fill of a sale under a new broker order. */
  predicate NewSale(b: Book, r: ExecutionReport, currency: string) {
    && r.reportId !in b.seen && r.currency == currency && r.IsFill() && r.side == SellSide
    && r.brokerOrderId !in b.quantity && r.brokerOrderId !in b.gross && r.brokerOrderId !in b.fee
    && r.fillQuantity > 0.0 && r.Gross() >= 0.0 && r.fee >= 0.0
  }

  /**
    So two sales, each within the position, are both approved, and both can be filled only if the shares last for
    both.
   */
  lemma TwoSales(b: Book, first: ExecutionReport, second: ExecutionReport, currency: string)
    requires LongOnly(b.positions) && NewSale(b, first, currency) && NewSale(b, second, currency)
    requires first.symbol == second.symbol && first.reportId != second.reportId
             && first.brokerOrderId != second.brokerOrderId
    requires first.fillQuantity <= QuantityOf(b.positions, first.symbol)
    requires second.fillQuantity <= QuantityOf(b.positions, first.symbol)
    ensures Step(b, first, currency).Ok? && Step(b, second, currency).Ok?
    ensures var after := Step(Step(b, first, currency).value, second, currency);
            if first.fillQuantity + second.fillQuantity <= QuantityOf(b.positions, first.symbol) then after.Ok?
            else after == Err(ShortPosition)
  {
    hide ExecutionReport.Gross;
    StepFill(b, first, currency);
  }
}
