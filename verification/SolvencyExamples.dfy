/** The assumptions of solvency are met: ledgers the kernel can write that satisfy all of them. */
module SolvencyExamples {
  import opened Wrappers
  import opened Domain
  import opened RiskEngine
  import opened ExecutionLedger
  import opened Reconciler
  import opened Fills
  import opened Solvency
  import opened ShareRuns
  import opened Arithmetic
  import MapSum

  /** A purchase the risk engine approves on an empty ledger. */
  predicate PlainPurchase(settings: Settings, p: TradeProposal) {
    && p.Valid() && p.action == BUY && p.symbol in settings.permittedSymbols && p.currency == settings.currency
    && p.quantity.Some? && p.quantity.value > 0.0 && p.notional.None?
    && p.quantity.value * p.referencePrice <= settings.maxOrderNotional
    && p.quantity.value * p.referencePrice + p.EstimatedCost() <= settings.startingCash
    && settings.maxStaleSeconds >= 0.0
  }

  function OrderOf(p: TradeProposal, id: string): OrderIntent
    requires p.quantity.Some?
  {
    OrderIntent(id, p.key, p.proposalId, p.symbol, BuySide, p.quantity.value, p.referencePrice,
                p.quantity.value * p.referencePrice, p.currency)
  }

  function Purchase(p: TradeProposal, id: string): seq<Event>
    requires p.quantity.Some?
  {
    [ProposalCreated(p), RiskDecided(RiskDecision(true, APPROVED), Some(p.key)), IntentCreated(OrderOf(p, id))]
  }

  function Proposed(p: TradeProposal): Maps {
    WithEstimate(EMPTY, p)
  }

  function Decided(p: TradeProposal): Maps {
    Proposed(p).(known := {p.key})
  }

  lemma OrderIs(settings: Settings, p: TradeProposal, held: real, id: string)
    requires PlainPurchase(settings, p)
    ensures OrderFor(p, held, id) == Ok(Some(OrderOf(p, id))) && OrderOf(p, id).WellFormed()
  {
    var q := p.quantity.value;
    assert q * p.referencePrice > 0.0;
    assert CreateIntent(id, p, BuySide, q).Ok?;
    assert CreateIntent(id, p, BuySide, q).value == OrderOf(p, id);
  }

  lemma EmptyBooks(settings: Settings)
    requires settings.startingCash >= 0.0
    ensures Authorized(settings, []).Ok?
    ensures Authorized(settings, []).value.cash == settings.startingCash
            && Authorized(settings, []).value.positions == map[]
  {
    hide MarketValue;
    BooksAreReadable(settings, []);
  }

  lemma Approved(settings: Settings, p: TradeProposal, id: string)
    requires PlainPurchase(settings, p)
    ensures Decidable(settings, Proposed(p), NORMAL, p, RiskDecision(true, APPROVED))
    ensures Derive(settings, Decided(p), p, id) == Ok(Some(OrderOf(p, id)))
  {
    hide OrderFor, MapSum.Sum, Authorized;
    assert p.quantity.value * p.referencePrice > 0.0;
    EmptyBooks(settings);
    OrderIs(settings, p, 0.0, id);
    MapSum.Empty<Key>();
    assert Reservations(Proposed(p)) == map[];
    var env := Env(p.referenceTime, false, id);
    assert Decide(settings, Proposed(p), NORMAL, p, env)
           == Ok(Verdict(RiskDecision(true, APPROVED), Some(OrderOf(p, id))));
  }

  /** Three events that leave a purchase waiting, on any account that can pay for it. */
  lemma PurchaseWaits(settings: Settings, p: TradeProposal, id: string)
    requires PlainPurchase(settings, p)
    ensures Legal(settings, Purchase(p, id)) && Fair(settings, Purchase(p, id)) && settings.startingCash >= 0.0
    ensures SharesFair(settings, Purchase(p, id))
    ensures Hydrate(Purchase(p, id)) == Ok(Opened(Decided(p), OrderOf(p, id)))
    ensures Waiting(Opened(Decided(p), OrderOf(p, id)), p.key)
  {
    hide Decidable, Derive, OrderFor, Authorized, LegalAt, PlainPurchase;
    PaysForIt(settings, p);
    assert {} + {p.key} == {p.key};
    var events := Purchase(p, id);
    Approved(settings, p, id);
    OrderIs(settings, p, 0.0, id);
    assert events[..0] == [] && events[..1] == [events[0]] && events[..2] == events[..1] + [events[1]];
    assert events[..3] == events && events == events[..2] + [events[2]];
    Extend(settings, [], events[0]);
    assert [] + [events[0]] == events[..1];
    Extend(settings, events[..1], events[1]);
    assert Hydrate(events[..2]) == Ok(Decided(p));
    Extend(settings, events[..2], events[2]);
    forall n: nat | n < |events|
      ensures FairAt(settings, events, n) && SharesFairAt(settings, events, n)
    {
    }
  }

  lemma PaysForIt(settings: Settings, p: TradeProposal)
    requires PlainPurchase(settings, p)
    ensures settings.startingCash >= 0.0 && p.Valid() && p.quantity.Some? && p.quantity.value > 0.0
    ensures p.currency == settings.currency && p.referencePrice > 0.0 && p.EstimatedCost() >= 0.0
    ensures p.quantity.value * p.referencePrice <= settings.startingCash
  {
    assert p.quantity.value * p.referencePrice > 0.0;
  }

  /** One such ledger, in numbers: re-using its key with a large estimate breaks the cover. */
  lemma OneWaitingPurchase() returns (settings: Settings, events: seq<Event>, key: Key)
    ensures Legal(settings, events) && Fair(settings, events) && settings.startingCash >= 0.0
    ensures Hydrate(events).Ok? && Waiting(Hydrate(events).value, key)
    ensures SharesFair(settings, events)
    ensures Replay(settings.startingCash, Hydrate(events).value.reports, settings.currency).Ok?
  {
    hide Legal, Fair, SharesFair, Waiting;
    settings := Settings("USD", 50.0, 60.0, 25.0, {"SPY"});
    var p := TradeProposal("p", "k", "SPY", BUY, Some(2.0), None, None, 10.0, 0.0, 0.5, 0.5, "USD", None);
    PurchaseWaits(settings, p, "o");
    events, key := Purchase(p, "o"), "k";
  }

  // ----- The purchase is filled

  /** Filled completely, without a fee, at some price. */
  function FillAt(p: TradeProposal, order: OrderId, price: real): ExecutionReport
    requires p.quantity.Some?
  {
    ExecutionReport("r", order, p.key, p.symbol, BuySide, FILLED, p.quantity.value, price, 0.0, 0.0, p.currency)
  }

  function Filling(p: TradeProposal, id: string, order: OrderId, price: real): seq<Event>
    requires p.quantity.Some?
  {
    Purchase(p, id) + [BrokerReport(FillAt(p, order, price))]
  }

  function FilledState(p: TradeProposal, id: string, order: OrderId, price: real): Maps
    requires p.quantity.Some?
  {
    Recorded(Opened(Decided(p), OrderOf(p, id)), FillAt(p, order, price))
  }

  /** At no more than the reference price that is legal and fair. */
  lemma PurchaseIsFilled(settings: Settings, p: TradeProposal, id: string, order: OrderId, price: real)
    requires PlainPurchase(settings, p) && 0.0 <= price <= p.referencePrice
    ensures var events := Filling(p, id, order, price);
            && Legal(settings, events) && Fair(settings, events) && SharesFair(settings, events)
            && Hydrate(events) == Ok(FilledState(p, id, order, price))
            && Hydrate(events).value.reports == [FillAt(p, order, price)]
  {
    hide PlainPurchase, Legal, Fair, SharesFair, Hydrate, OrderOf, Waiting, FairReport;
    PaysForIt(settings, p);
    PurchaseWaits(settings, p, id);
    var before, e := Purchase(p, id), BrokerReport(FillAt(p, order, price));
    var s := Opened(Decided(p), OrderOf(p, id));
    Extend(settings, before, e);
    FillIsFair(settings, p, id, order, price);
    FairlyExtended(settings, before, s, e);
    SharesFairlyExtended(settings, before, s, e);
  }

  lemma FillIsFair(settings: Settings, p: TradeProposal, id: string, order: OrderId, price: real)
    requires PlainPurchase(settings, p) && 0.0 <= price <= p.referencePrice
    ensures var s, e := Opened(Decided(p), OrderOf(p, id)), BrokerReport(FillAt(p, order, price));
            FairNext(settings, s, e) && SharesFairNext(settings, s, e)
  {
    hide PlainPurchase, ExecutionReport.Gross;
    PaysForIt(settings, p);
    var s, r, q := Opened(Decided(p), OrderOf(p, id)), FillAt(p, order, price), p.quantity.value;
    var b := Opening(settings.startingCash);
    assert Filled(s.reports, p.key) == 0.0 && Overspent(settings, OrderOf(p, id), []) == 0.0;
    FillCosts(p, order, price);
    assert QuantityIncrement(b, r) == q && CostIncrement(b, r) == r.Gross();
    assert Waiting(s, p.key) && FairPurchase(settings, s, b, r);
  }

  lemma FillCosts(p: TradeProposal, order: OrderId, price: real)
    requires p.quantity.Some? && p.quantity.value > 0.0 && 0.0 <= price <= p.referencePrice
    ensures 0.0 <= FillAt(p, order, price).Gross() <= p.quantity.value * p.referencePrice
  {
    Scale(p.quantity.value, price, p.referencePrice);
    ProductNotNegative(p.quantity.value, price);
  }

  /** The books after it: the shares are held and paid for. */
  lemma FillReplays(settings: Settings, p: TradeProposal, order: OrderId, price: real)
    requires PlainPurchase(settings, p) && 0.0 <= price <= p.referencePrice
    ensures var b := Replay(settings.startingCash, [FillAt(p, order, price)], settings.currency);
            && b.Ok? && b.value.cash >= 0.0 && b.value.positions.Keys == {p.symbol}
            && QuantityOf(b.value.positions, p.symbol) == p.quantity.value
  {
    hide Bought, PlainPurchase;
    PaysForIt(settings, p);
    var r, q := FillAt(p, order, price), p.quantity.value;
    ReplayAppend(settings.startingCash, [], r, settings.currency);
    assert [] + [r] == [r];
    FillCosts(p, order, price);
    BoughtFromNothing(p.symbol, q, r.Gross());
  }

  lemma BoughtFromNothing(s: Symbol, quantity: real, gross: real)
    requires quantity > 0.0
    ensures var positions := Bought(map[], s, quantity, gross);
            positions.Keys == {s} && QuantityOf(positions, s) == quantity
  {
  }

  lemma MarksOfFill(p: TradeProposal, order: OrderId, price: real)
    requires p.quantity.Some?
    ensures Marks([FillAt(p, order, price)]) == if price > 0.0 then map[p.symbol := price] else map["TEST" := 1.0]
  {
    var r := FillAt(p, order, price);
    assert [r][..0] == [];
    assert PositiveMarks([]) == map[];
    assert PositiveMarks([r]) == if price > 0.0 then map[p.symbol := price] else map[];
    assert price > 0.0 ==> p.symbol in PositiveMarks([r]);
  }

  /** Filled at a positive price, the books can be read and hold the shares. */
  lemma FilledIsHeld(settings: Settings, p: TradeProposal, order: OrderId, price: real)
    requires PlainPurchase(settings, p) && 0.0 < price <= p.referencePrice
    ensures var a := Authorized(settings, [FillAt(p, order, price)]);
            a.Ok? && QuantityOf(a.value.positions, p.symbol) == p.quantity.value
  {
    hide PlainPurchase, Replay, Marks, MarketValue;
    PaysForIt(settings, p);
    FillReplays(settings, p, order, price);
    MarksOfFill(p, order, price);
    BooksAreReadable(settings, [FillAt(p, order, price)]);
  }

  /** Filled for nothing, the ledger is as fair, but its symbol never gets a price to be marked at. */
  lemma FreeFillHasNoMark(settings: Settings, p: TradeProposal, id: string, order: OrderId)
    requires PlainPurchase(settings, p)
    ensures var events := Filling(p, id, order, 0.0);
            && Legal(settings, events) && Fair(settings, events) && Hydrate(events).Ok?
            && Hydrate(events).value.reports == [FillAt(p, order, 0.0)]
    ensures p.symbol != "TEST" ==> Authorized(settings, [FillAt(p, order, 0.0)]) == Err(MissingPrice)
  {
    hide PlainPurchase, Legal, Fair, Hydrate, Authorized, Replay, Marks;
    PaysForIt(settings, p);
    PurchaseIsFilled(settings, p, id, order, 0.0);
    FillReplays(settings, p, order, 0.0);
    MarksOfFill(p, order, 0.0);
    BooksAreReadable(settings, [FillAt(p, order, 0.0)]);
  }
}
