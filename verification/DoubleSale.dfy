/**
  Two sales of the same shares.  The kernel reserves nothing for an open sale, so a position can be sold out twice:
  both proposals are approved, both orders are opened, and if the broker fills both, the ledger can be replayed no more.
 */
module DoubleSale {
  import opened Wrappers
  import opened Domain
  import opened RiskEngine
  import opened ExecutionLedger
  import opened LedgerTheorems
  import opened Reconciler
  import opened Telescoping
  import opened Fills
  import opened Solvency
  import opened ShareCover
  import opened SolvencyExamples
  import opened Arithmetic
  import MapSum

  /** A valid EXIT of a position of `q` shares that no rule about symbols, currencies or sizes refuses. */
  predicate PlainExit(settings: Settings, p: TradeProposal, q: real) {
    && p.Valid() && p.action == EXIT && p.symbol in settings.permittedSymbols && p.currency == settings.currency
    && (p.quantity.Some? && p.notional.Some? ==> p.quantity.value * p.referencePrice == p.notional.value)
    && q > 0.0 && q * p.referencePrice <= settings.maxOrderNotional && settings.maxStaleSeconds >= 0.0
  }

  /** The books can be read and reserved, and hold `q` shares. */
  ghost predicate Holds(settings: Settings, s: Maps, symbol: Symbol, q: real) {
    && Authorized(settings, s.reports).Ok? && Reserved(s).Ok?
    && QuantityOf(Authorized(settings, s.reports).value.positions, symbol) == q
  }

  /** The key and the order identifier are new. */
  ghost predicate New(s: Maps, key: Key, id: string) {
    key !in s.known && id !in s.machines && !IsIntentId(s, id)
  }

  function SaleOf(p: TradeProposal, q: real, id: string): OrderIntent {
    OrderIntent(id, p.key, p.proposalId, p.symbol, SellSide, q, p.referencePrice, q * p.referencePrice, p.currency)
  }

  function SaleEvents(p: TradeProposal, q: real, id: string): seq<Event> {
    [ProposalCreated(p), RiskDecided(RiskDecision(true, APPROVED), Some(p.key)), IntentCreated(SaleOf(p, q, id))]
  }

  function Judging(s: Maps, p: TradeProposal): Maps {
    WithEstimate(s, p).(known := s.known + {p.key})
  }

  function AfterExit(s: Maps, p: TradeProposal, q: real, id: string): Maps {
    Opened(Judging(s, p), SaleOf(p, q, id))
  }

  lemma ExitOrderIs(settings: Settings, p: TradeProposal, q: real, id: string)
    requires PlainExit(settings, p, q)
    ensures OrderFor(p, q, id) == Ok(Some(SaleOf(p, q, id))) && SaleOf(p, q, id).WellFormed()
  {
    PositiveProduct(q, p.referencePrice);
    assert CreateIntent(id, p, SellSide, q).Ok?;
    assert CreateIntent(id, p, SellSide, q).value == SaleOf(p, q, id);
  }

  /** A new key has no order, so its estimate is nobody's. */
  lemma SamePurchasesJudging(s: Maps, p: TradeProposal)
    requires p.key !in s.intents
    ensures SamePurchases(s, WithEstimate(s, p)) && SamePurchases(s, Judging(s, p))
  {
  }

  /** The position is sold out, as far as the risk engine can see. */
  lemma ExitIsApproved(settings: Settings, s: Maps, mode: ExperimentMode, p: TradeProposal, q: real, id: string)
    requires PlainExit(settings, p, q) && Holds(settings, s, p.symbol, q) && p.key !in s.known && p.key !in s.intents
    ensures Decidable(settings, WithEstimate(s, p), mode, p, RiskDecision(true, APPROVED))
    ensures Derive(settings, Judging(s, p), p, id) == Ok(Some(SaleOf(p, q, id)))
  {
    hide OrderFor, MapSum.Sum, Authorized, Reserved, SamePurchases;
    ExitOrderIs(settings, p, q, id);
    SamePurchasesJudging(s, p);
    var env := Env(p.referenceTime, false, id);
    DecisionsSeePurchases(settings, s, WithEstimate(s, p), mode, p, env);
    assert Decide(settings, WithEstimate(s, p), mode, p, env)
           == Ok(Verdict(RiskDecision(true, APPROVED), Some(SaleOf(p, q, id))));
  }

  /** On any legal ledger that can be read, three more events open a sale of the whole position. */
  lemma ExitOpens(settings: Settings, events: seq<Event>, s: Maps, p: TradeProposal, q: real, id: string)
    requires Legal(settings, events) && Hydrate(events) == Ok(s)
    requires PlainExit(settings, p, q) && Holds(settings, s, p.symbol, q) && New(s, p.key, id)
    ensures Legal(settings, events + SaleEvents(p, q, id))
    ensures Hydrate(events + SaleEvents(p, q, id)) == Ok(AfterExit(s, p, q, id))
    ensures Fair(settings, events) ==> Fair(settings, events + SaleEvents(p, q, id))
  {
    hide Legal, Decidable, Derive, Holds, PlainExit, Fair, Hydrate;
    LegalStructured(settings, events);
    ValidExit(settings, p, q);
    var mode := RestoredMode(events);
    ExitIsApproved(settings, s, mode, p, q, id);
    var e1, e2, e3 := ProposalCreated(p), RiskDecided(RiskDecision(true, APPROVED), Some(p.key)),
      IntentCreated(SaleOf(p, q, id));
    Extend(settings, events, e1);
    var one := events + [e1];
    Extend(settings, one, e2);
    var two := one + [e2];
    Extend(settings, two, e3);
    assert events + SaleEvents(p, q, id) == two + [e3];
    if Fair(settings, events) {
      NewKeyIsFair(settings, s, p);
      FairlyExtended(settings, events, s, e1);
      FairlyExtended(settings, one, WithEstimate(s, p), e2);
      FairlyExtended(settings, two, Judging(s, p), e3);
    }
  }

  lemma ValidExit(settings: Settings, p: TradeProposal, q: real)
    requires PlainExit(settings, p, q)
    ensures p.Valid() && q > 0.0
  {
  }

  lemma NewKeyIsFair(settings: Settings, s: Maps, p: TradeProposal)
    requires p.key !in s.intents
    ensures FairNext(settings, s, ProposalCreated(p))
  {
    hide Replay, Slack;
  }

  /** Opening a sale changes neither what is held nor what can be reserved. */
  lemma StillHeld(settings: Settings, s: Maps, p: TradeProposal, q: real, id: string)
    requires Structured(s) && Holds(settings, s, p.symbol, q) && p.key !in s.known
    ensures Holds(settings, AfterExit(s, p, q, id), p.symbol, q) && AfterExit(s, p, q, id).reports == s.reports
  {
    hide Authorized, Reserved;
    SamePurchasesJudging(s, p);
    SameReservations(s, Judging(s, p));
    SamePurchasesOpened(Judging(s, p), SaleOf(p, q, id));
    SameReservations(Judging(s, p), AfterExit(s, p, q, id));
  }

  lemma StillNew(s: Maps, p: TradeProposal, q: real, id: string, key: Key, other: string)
    requires New(s, key, other) && key != p.key && other != id
    ensures New(AfterExit(s, p, q, id), key, other)
  {
  }

  /** The open sales of the symbol are owed the whole position on top. */
  lemma OwedOnTop(settings: Settings, s: Maps, p: TradeProposal, q: real, id: string)
    requires Structured(s) && PlainExit(settings, p, q) && New(s, p.key, id)
    ensures MapSum.Sum(OwedShares(AfterExit(s, p, q, id), p.symbol)) == MapSum.Sum(OwedShares(s, p.symbol)) + q
  {
    hide MapSum.Sum, LargestFill, OwedShares, PlainExit, OrderIntent.WellFormed;
    ExitOrderIs(settings, p, q, id);
    NoReportsNoFill(s.reports, p.key);
    OwedAfterIntent(Judging(s, p), SaleOf(p, q, id), p.symbol);
    OwedWhileJudging(s, p);
  }

  lemma OwedWhileJudging(s: Maps, p: TradeProposal)
    ensures OwedShares(Judging(s, p), p.symbol) == OwedShares(s, p.symbol)
  {
    hide LargestFill;
  }

  lemma SamePurchasesOpened(s: Maps, i: OrderIntent)
    requires i.side == SellSide && i.key !in s.intents
    ensures SamePurchases(s, Opened(s, i))
  {
  }

  // ----- Two of them

  /**
    On any legal ledger that can be read and holds shares, the same shares are sold twice: six more legal events, no
    new report, and the open sales are owed twice what is held.
   */
  lemma SoldTwice(settings: Settings, events: seq<Event>, s: Maps, p: TradeProposal, p2: TradeProposal, q: real,
                  id: string, id2: string)
    requires Legal(settings, events) && Hydrate(events) == Ok(s) && Holds(settings, s, p.symbol, q)
    requires PlainExit(settings, p, q) && PlainExit(settings, p2, q) && p2.symbol == p.symbol
    requires New(s, p.key, id) && New(s, p2.key, id2) && p2.key != p.key && id2 != id
    ensures var more := events + SaleEvents(p, q, id) + SaleEvents(p2, q, id2);
            var t := AfterExit(AfterExit(s, p, q, id), p2, q, id2);
            && Legal(settings, more) && Hydrate(more) == Ok(t) && t.reports == s.reports
            && (Fair(settings, events) ==> Fair(settings, more))
            && MapSum.Sum(OwedShares(t, p.symbol)) >= q + q
            && Replay(settings.startingCash, t.reports, settings.currency).Ok?
            && !SharesCovered(t, Replay(settings.startingCash, t.reports, settings.currency).value)
  {
    hide Legal, Hydrate, Holds, PlainExit, New, Fair, MapSum.Sum, OwedShares, Replay, Structured, AfterExit;
    var t1 := AfterExit(s, p, q, id);
    LegalStructured(settings, events);
    ExitOpens(settings, events, s, p, q, id);
    KeyIsNew(s, p.key, id);
    StillHeld(settings, s, p, q, id);
    StillNew(s, p, q, id, p2.key, id2);
    LegalStructured(settings, events + SaleEvents(p, q, id));
    ExitOpens(settings, events + SaleEvents(p, q, id), t1, p2, q, id2);
    KeyIsNew(t1, p2.key, id2);
    StillHeld(settings, t1, p2, q, id2);
    OwedOnTop(settings, s, p, q, id);
    OwedOnTop(settings, t1, p2, q, id2);
    OwedNotNegative(s, p.symbol);
    var t := AfterExit(t1, p2, q, id2);
    HeldIs(settings, t, p.symbol, q);
    ValidExit(settings, p, q);
    SharesFallShort(t, Replay(settings.startingCash, t.reports, settings.currency).value, p.symbol);
  }

  lemma SharesFallShort(s: Maps, b: Book, symbol: Symbol)
    requires MapSum.Sum(OwedShares(s, symbol)) > QuantityOf(b.positions, symbol)
    ensures !SharesCovered(s, b)
  {
    hide MapSum.Sum, OwedShares;
    assert !SymbolCovered(s, b, symbol);
  }

  lemma KeyIsNew(s: Maps, key: Key, id: string)
    requires New(s, key, id)
    ensures key !in s.known
  {
  }

  /** What the kernel reads as held is what is replayed. */
  lemma HeldIs(settings: Settings, s: Maps, symbol: Symbol, q: real)
    requires Holds(settings, s, symbol, q)
    ensures var b := Replay(settings.startingCash, s.reports, settings.currency);
            b.Ok? && QuantityOf(b.value.positions, symbol) == q
  {
    hide Replay, Reserved;
  }

  // ----- And if both are filled

  function FullFill(p: TradeProposal, q: real, reportId: string, order: OrderId): ExecutionReport {
    ExecutionReport(reportId, order, p.key, p.symbol, SellSide, FILLED, q, p.referencePrice, 0.0, 0.0, p.currency)
  }

  /** No report has this identifier or names this broker order. */
  ghost predicate NewReport(s: Maps, reportId: string, order: OrderId) {
    && reportId !in s.reportIds && order !in s.brokerOrderKey
    && forall r :: r in s.reports ==> r.brokerOrderId != order
  }

  lemma NewSaleIs(settings: Settings, s: Maps, b: Book, p: TradeProposal, q: real, reportId: string, order: OrderId)
    requires Structured(s) && Replay(settings.startingCash, s.reports, settings.currency) == Ok(b)
    requires PlainExit(settings, p, q) && NewReport(s, reportId, order)
    ensures NewSale(b, FullFill(p, q, reportId, order), settings.currency)
  {
    hide Replay;
    ReplayApplied(settings.startingCash, s.reports, settings.currency);
    LastFillIsReported(s.reports);
    SeenIds(s, b);
    PositiveProduct(q, p.referencePrice);
  }

  /** The two reports, each legal and fair where it comes. */
  lemma FillIsRecorded(settings: Settings, events: seq<Event>, s: Maps, p: TradeProposal, q: real, reportId: string,
                       order: OrderId)
    requires Legal(settings, events) && Hydrate(events) == Ok(s) && PlainExit(settings, p, q)
    requires p.key in s.known && NewReport(s, reportId, order)
    ensures var r := FullFill(p, q, reportId, order);
            && Legal(settings, events + [BrokerReport(r)]) && Hydrate(events + [BrokerReport(r)]) == Ok(Recorded(s, r))
  {
    hide Legal, Hydrate;
    Extend(settings, events, BrokerReport(FullFill(p, q, reportId, order)));
  }

  lemma FillIsFair(settings: Settings, s: Maps, p: TradeProposal, q: real, reportId: string, order: OrderId)
    requires Structured(s) && PlainExit(settings, p, q) && NewReport(s, reportId, order)
    requires p.key in s.intents && s.intents[p.key].side == SellSide
    requires forall r :: r in s.reports ==> r.key != p.key
    ensures FairNext(settings, s, BrokerReport(FullFill(p, q, reportId, order)))
  {
    hide Replay, Structured;
    var b := Replay(settings.startingCash, s.reports, settings.currency);
    if b.Ok? {
      NewSaleIs(settings, s, b.value, p, q, reportId, order);
    }
  }

  lemma NewReportStays(s: Maps, p: TradeProposal, q: real, reportId: string, order: OrderId, other: string,
                       next: OrderId)
    requires NewReport(s, other, next) && other != reportId && next != order
    ensures NewReport(Recorded(s, FullFill(p, q, reportId, order)), other, next)
  {
  }

  lemma NewReportAfterExit(s: Maps, p: TradeProposal, q: real, id: string, reportId: string, order: OrderId)
    requires NewReport(s, reportId, order)
    ensures NewReport(AfterExit(s, p, q, id), reportId, order)
  {
  }

  /** The first fill is replayed, the second one finds the shares gone. */
  lemma SecondFillFails(settings: Settings, s: Maps, p: TradeProposal, p2: TradeProposal, q: real,
                        reportId: string, order: OrderId, reportId2: string, order2: OrderId)
    requires Structured(s) && Replay(settings.startingCash, s.reports, settings.currency).Ok?
    requires QuantityOf(Replay(settings.startingCash, s.reports, settings.currency).value.positions, p.symbol) == q
    requires PlainExit(settings, p, q) && PlainExit(settings, p2, q) && p2.symbol == p.symbol
    requires NewReport(s, reportId, order) && NewReport(s, reportId2, order2) && reportId2 != reportId
             && order2 != order
    ensures Replay(settings.startingCash,
                   s.reports + [FullFill(p, q, reportId, order)] + [FullFill(p2, q, reportId2, order2)],
                   settings.currency) == Err(ShortPosition)
  {
    hide Replay, Step, NewSale, Structured, PlainExit, NewReport;
    var b := Replay(settings.startingCash, s.reports, settings.currency).value;
    var first, second := FullFill(p, q, reportId, order), FullFill(p2, q, reportId2, order2);
    NewSaleIs(settings, s, b, p, q, reportId, order);
    NewSaleIs(settings, s, b, p2, q, reportId2, order2);
    ValidExit(settings, p, q);
    TwoSales(b, first, second, settings.currency);
    ReplayAppend(settings.startingCash, s.reports, first, settings.currency);
    ReplayAppend(settings.startingCash, s.reports + [first], second, settings.currency);
  }

  /**
    From any legal ledger that can be read and holds shares, by legal events that are fair if the ledger was: a
    ledger that cannot be replayed.
   */
  lemma FilledTwice(settings: Settings, events: seq<Event>, s: Maps, p: TradeProposal, p2: TradeProposal, q: real,
                    id: string, id2: string, reportId: string, order: OrderId, reportId2: string, order2: OrderId)
    requires Legal(settings, events) && Hydrate(events) == Ok(s) && Holds(settings, s, p.symbol, q)
    requires PlainExit(settings, p, q) && PlainExit(settings, p2, q) && p2.symbol == p.symbol
    requires New(s, p.key, id) && New(s, p2.key, id2) && p2.key != p.key && id2 != id
    requires NewReport(s, reportId, order) && NewReport(s, reportId2, order2) && reportId2 != reportId
             && order2 != order
    ensures var more := events + SaleEvents(p, q, id) + SaleEvents(p2, q, id2)
                        + [BrokerReport(FullFill(p, q, reportId, order))]
                        + [BrokerReport(FullFill(p2, q, reportId2, order2))];
            && Legal(settings, more) && Hydrate(more).Ok? && (Fair(settings, events) ==> Fair(settings, more))
            && Replay(settings.startingCash, Hydrate(more).value.reports, settings.currency) == Err(ShortPosition)
  {
    hide Legal, Hydrate, Fair, Replay, Structured, PlainExit, Holds, FairNext, SharesCovered, OwedShares, MapSum.Sum;
    SoldTwice(settings, events, s, p, p2, q, id, id2);
    var two := events + SaleEvents(p, q, id) + SaleEvents(p2, q, id2);
    var t := AfterExit(AfterExit(s, p, q, id), p2, q, id2);
    var first, second := FullFill(p, q, reportId, order), FullFill(p2, q, reportId2, order2);
    LegalStructured(settings, events);
    LegalStructured(settings, two);
    FillIsRecorded(settings, two, t, p, q, reportId, order);
    var three, u := two + [BrokerReport(first)], Recorded(t, first);
    LegalStructured(settings, three);
    FillIsRecorded(settings, three, u, p2, q, reportId2, order2);
    HeldIs(settings, s, p.symbol, q);
    SecondFillFails(settings, s, p, p2, q, reportId, order, reportId2, order2);
    if Fair(settings, events) {
      NoReportsForNewKeys(s, p, p2, id, id2);
      FillIsFair(settings, t, p, q, reportId, order);
      FairlyExtended(settings, two, t, BrokerReport(first));
      FillIsFair(settings, u, p2, q, reportId2, order2);
      FairlyExtended(settings, three, u, BrokerReport(second));
    }
  }

  lemma NoReportsForNewKeys(s: Maps, p: TradeProposal, p2: TradeProposal, id: string, id2: string)
    requires Structured(s) && New(s, p.key, id) && New(s, p2.key, id2)
    ensures forall r :: r in s.reports ==> r.key != p.key && r.key != p2.key
  {
  }

  // ----- One, in numbers

  /** A purchase of two shares, two exits of both, and a ledger whose replay is short: legal and fair throughout. */
  lemma OneDoubleSale() returns (settings: Settings, events: seq<Event>)
    ensures Legal(settings, events) && Fair(settings, events) && settings.startingCash >= 0.0 && Hydrate(events).Ok?
    ensures Replay(settings.startingCash, Hydrate(events).value.reports, settings.currency) == Err(ShortPosition)
  {
    hide Legal, Fair, Hydrate, Replay, Authorized, Reserved, SharesCovered;
    settings := Settings("USD", 50.0, 60.0, 25.0, {"SPY"});
    var buy := TradeProposal("p", "k", "SPY", BUY, Some(2.0), None, None, 10.0, 0.0, 0.5, 0.5, "USD", None);
    var exit := TradeProposal("p1", "k1", "SPY", EXIT, None, None, None, 10.0, 0.0, 0.0, 0.0, "USD", None);
    var again := exit.(proposalId := "p2", key := "k2");
    PurchaseIsFilled(settings, buy, "o", "b", 10.0);
    FilledIsHeld(settings, buy, "b", 10.0);
    NothingReserved(buy, "o", "b", 10.0);
    FilledTwice(settings, Filling(buy, "o", "b", 10.0), FilledState(buy, "o", "b", 10.0), exit, again, 2.0,
                "o1", "o2", "r1", "b1", "r2", "b2");
    events := Filling(buy, "o", "b", 10.0) + SaleEvents(exit, 2.0, "o1") + SaleEvents(again, 2.0, "o2")
              + [BrokerReport(FullFill(exit, 2.0, "r1", "b1"))] + [BrokerReport(FullFill(again, 2.0, "r2", "b2"))];
  }

  lemma NothingReserved(p: TradeProposal, id: string, order: OrderId, price: real)
    requires p.quantity.Some?
    ensures Reserved(FilledState(p, id, order, price)).Ok?
  {
    hide MapSum.Sum, Reservation, OpenBuy;
    var s := FilledState(p, id, order, price);
    assert s.reports == [] + [FillAt(p, order, price)];
    LargestFillAppend([], FillAt(p, order, price), p.key);
    assert Filled(s.reports, p.key) == p.quantity.value;
  }
}
