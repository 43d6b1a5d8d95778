/**
  What the kernel's answers mean, in terms of the orders themselves: which status an order gets, what it still reserves,
  and whether it is still looked up after a restart.
 */
module KernelAnswers {
  import opened Wrappers
  import opened Domain
  import opened RiskEngine
  import opened ExecutionLedger
  import opened LedgerTheorems
  import opened KernelSteps
  import opened Fills
  import opened PendingOrders
  import MapSum

  // ----- What may be submitted

  /** An approved order meets every rule, on the books at that moment. */
  lemma ApprovedMayReach(settings: Settings, s: Maps, mode: ExperimentMode, p: TradeProposal, env: Env, v: Verdict)
    requires Decide(settings, s, mode, p, env) == Ok(v) && v.decision.approved && p.action != HOLD && p.action != CANCEL
    ensures v.intent.Some? && v.intent.value.key == p.key && v.intent.value.intentId == env.intentId
    ensures Derive(settings, s, p, env.intentId) == Ok(v.intent)
    ensures MayReachBroker(settings, s, mode, p, env, v.intent.value)
  {
    hide Authorized, Reserved, Evaluate;
    DeriveFacts(settings, s, p, env.intentId);
    NotionalIsPositive(v.intent.value);
  }

  lemma NotionalIsPositive(i: OrderIntent)
    requires i.WellFormed()
    ensures i.notional > 0.0
  {
  }

  lemma OrderWithId(p: TradeProposal, held: real, a: string, b: string)
    requires OrderFor(p, held, a).Ok? && OrderFor(p, held, a).value.Some?
    ensures OrderFor(p, held, b).Ok? && OrderFor(p, held, b).value.Some?
    ensures OrderFor(p, held, b).value.value == OrderFor(p, held, a).value.value.(intentId := b)
  {
  }

  ghost predicate MetTheRules(settings: Settings, s: Maps, mode: ExperimentMode, p: TradeProposal, i: OrderIntent) {
    exists env: Env :: MayReachBroker(settings, s, mode, p, env, i)
  }

  /** Every order in a legal ledger met every rule when it was approved. */
  lemma OpenedMetTheRules(settings: Settings, events: seq<Event>, n: nat)
    requires Legal(settings, events) && n < |events| && events[n].IntentCreated?
    ensures n >= 2 && events[n - 2].ProposalCreated? && Hydrate(events[..n - 1]).Ok?
    ensures MetTheRules(settings, Hydrate(events[..n - 1]).value, RestoredMode(events[..n - 1]),
                        events[n - 2].proposal, events[n].intent)
  {
    hide Legal, Hydrate, Authorized, Reserved, OrderFor, Evaluate, MayReachBroker;
    IntentFollowsApproval(settings, events, n);
    DecisionFollowsProposal(settings, events, n - 1);
    HydrateStep(settings, events, n - 1);
    var s0, s := Hydrate(events[..n - 1]).value, Hydrate(events[..n]).value;
    var p, i, mode := events[n - 2].proposal, events[n].intent, RestoredMode(events[..n - 1]);
    assert s.reports == s0.reports;
    DeriveReadsReports(settings, s0, s, p, i.intentId);
    DerivedTrades(settings, s0, p, i.intentId);
    var env: Env :| Decide(settings, s0, mode, p, env).Ok?
                    && Decide(settings, s0, mode, p, env).value.decision == events[n - 1].decision;
    var v := Decide(settings, s0, mode, p, env).value;
    ApprovedMayReach(settings, s0, mode, p, env, v);
    OrderWithId(p, QuantityOf(Authorized(settings, s0.reports).value.positions, p.symbol), env.intentId, i.intentId);
    SameRules(settings, s0, mode, p, env, v.intent.value, i);
  }

  lemma DerivedTrades(settings: Settings, s: Maps, p: TradeProposal, id: string)
    requires Derive(settings, s, p, id).Ok? && Derive(settings, s, p, id).value.Some?
    ensures p.action != HOLD && p.action != CANCEL
  {
  }

  lemma SameRules(settings: Settings, s: Maps, mode: ExperimentMode, p: TradeProposal, env: Env, i: OrderIntent,
                  j: OrderIntent)
    requires MayReachBroker(settings, s, mode, p, env, i) && j == i.(intentId := j.intentId)
    ensures MayReachBroker(settings, s, mode, p, env, j)
  {
  }

  // ----- Which status a report leads to

  /** The statuses a broker may report of an order; the three others are the kernel's own. */
  const BROKER_STATUSES := {ACKNOWLEDGED, PARTIALLY_FILLED, FILLED, CANCEL_PENDING, CANCELLED, UNKNOWN, REJECTED}

  /** The order gets the reported status where the life cycle allows it, UNKNOWN where no broker status is reported. */
  predicate Follows(before: OrderStatus, reported: OrderStatus, after: OrderStatus) {
    if reported in BROKER_STATUSES then after == if reported in Allowed(before) then reported else before
    else after == if UNKNOWN in Allowed(before) then UNKNOWN else before
  }

  /** The life cycle allows what is reported. */
  predicate Fits(before: OrderStatus, reported: OrderStatus) {
    if reported in BROKER_STATUSES then reported == before || reported in Allowed(before)
    else before == UNKNOWN || UNKNOWN in Allowed(before)
  }

  ghost predicate SameStatusElsewhere(s: Maps, t: Maps, o: string) {
    forall x :: x != o ==> t.Status(x) == s.Status(x)
  }

  /** A new report is listed last and its key is known; a repeated one changes nothing. */
  predicate Recounts(s: Maps, t: Maps, r: ExecutionReport) {
    && t.intents == s.intents && t.intentIds == s.intentIds && t.estimates == s.estimates
    && t.reports == (if r.reportId in s.reportIds then s.reports else s.reports + [r])
    && t.reportIds == s.reportIds + {r.reportId}
    && (r.reportId !in s.reportIds ==> t.known == s.known + {r.key})
    && (r.reportId !in s.reportIds && r.key in s.intents ==>
          t.brokerOrderKey == s.brokerOrderKey[r.brokerOrderId := r.key])
    && (r.reportId in s.reportIds || r.key !in s.intents ==> t.brokerOrderKey == s.brokerOrderKey)
    && (r.reportId in s.reportIds ==> t.known == s.known)
  }

  /** A report of no order leaves every order alone. */
  lemma ReportRecounts(s: Maps, r: ExecutionReport)
    ensures Recounts(s, AfterReport(s, r), r) && AfterReport(s, r).machines == s.machines
  {
  }

  lemma MoveFollows(s: Maps, o: string, reported: OrderStatus)
    ensures var t := AfterMove(s, o, Normalise(reported));
            && t == s.(machines := t.machines)
            && Follows(s.Status(o), reported, t.Status(o)) && SameStatusElsewhere(s, t, o)
    ensures CanMove(s, o, Normalise(reported)) <==> Fits(s.Status(o), reported)
  {
    hide Normalise, Allowed, AfterMove, CanMove;
    NormaliseIs(reported);
    MoveGoes(s, o, Normalise(reported));
  }

  lemma MoveGoes(s: Maps, o: string, to: OrderStatus)
    ensures var t := AfterMove(s, o, to);
            && t == s.(machines := t.machines) && SameStatusElsewhere(s, t, o)
            && t.Status(o) == if to in Allowed(s.Status(o)) then to else s.Status(o)
    ensures CanMove(s, o, to) <==> s.Status(o) == to || to in Allowed(s.Status(o))
  {
    hide Allowed;
  }

  lemma NormaliseIs(reported: OrderStatus)
    ensures Normalise(reported) == if reported in BROKER_STATUSES then reported else UNKNOWN
  {
  }

  lemma RecountsMoved(s: Maps, u: Maps, t: Maps, r: ExecutionReport)
    requires Recounts(s, u, r) && t == u.(machines := t.machines)
    ensures Recounts(s, t, r)
  {
  }

  lemma ReportMoves(s: Maps, r: ExecutionReport, o: string)
    ensures var t := AfterMove(AfterReport(s, r), o, Normalise(r.status));
            && Recounts(s, t, r) && Follows(s.Status(o), r.status, t.Status(o)) && SameStatusElsewhere(s, t, o)
    ensures CanMove(s, o, Normalise(r.status)) <==> Fits(s.Status(o), r.status)
  {
    hide Recounts, AfterMove, Follows, Fits;
    ReportRecounts(s, r);
    SameStatuses(s, AfterReport(s, r));
    MoveFollows(s, o, r.status);
    MoveFollows(AfterReport(s, r), o, r.status);
    RecountsMoved(s, AfterReport(s, r), AfterMove(AfterReport(s, r), o, Normalise(r.status)), r);
  }

  lemma SameStatuses(s: Maps, t: Maps)
    requires t.machines == s.machines
    ensures forall o: string :: t.Status(o) == s.Status(o)
  {
  }

  // ----- Orders that are over

  /** Neither an open purchase nor an order to be looked up after a restart. */
  ghost predicate Over(events: seq<Event>, s: Maps, key: Key) {
    !OpenBuy(s, key) && key !in Pending(events)
  }

  /** A key is over exactly when its order has a terminal status. */
  lemma OverIsTerminal(settings: Settings, events: seq<Event>, s: Maps, key: Key)
    requires Legal(settings, events) && Hydrate(events) == Ok(s) && key in s.intents
    ensures key !in Pending(events) <==> IsTerminal(s.Status(s.intents[key].intentId))
    ensures IsTerminal(s.Status(s.intents[key].intentId)) ==> Over(events, s, key)
  {
    hide Pending, Legal, Hydrate;
    PendingIsNonTerminal(settings, events, key);
  }

  // ----- What a cancellation releases

  /** The broker order is linked to the order of this key. */
  predicate LinkedTo(s: Maps, order: OrderId, key: Key) {
    order in s.brokerOrderKey && s.brokerOrderKey[order] == key && key in s.intents
  }

  /** The order is cancelled, no other is touched, and exactly what it reserved is free again. */
  ghost predicate Released(s: Maps, t: Maps, key: Key)
    requires key in s.intents
  {
    && t.Status(s.intents[key].intentId) == CANCELLED && SameStatusElsewhere(s, t, s.intents[key].intentId)
    && !OpenBuy(t, key)
    && (Reserved(s).Ok? ==>
          Reserved(t) == Ok(Reserved(s).value - if OpenBuy(s, key) then Reservation(s, key) else 0.0))
  }

  lemma SameFills(reports: seq<ExecutionReport>, r: ExecutionReport, key: Key)
    requires !r.IsFill()
    ensures Filled(reports + [r], key) == Filled(reports, key)
  {
    LargestFillAppend(reports, r, key);
  }

  lemma OtherStays(s: Maps, t: Maps, key: Key, k: Key)
    requires IdsDistinct(s) && key in s.intents && k in s.intents && k != key && t.intents == s.intents
    requires t.estimates == s.estimates && SameStatusElsewhere(s, t, s.intents[key].intentId)
    requires Filled(t.reports, k) == Filled(s.reports, k)
    ensures OpenBuy(t, k) == OpenBuy(s, k) && Reservation(t, k) == Reservation(s, k)
  {
    hide Filled;
  }

  lemma EndedIsClosed(t: Maps, key: Key)
    requires key in t.intents && IsTerminal(t.Status(t.intents[key].intentId))
    ensures !OpenBuy(t, key)
  {
  }

  /** Ending one order frees what it reserved, and nothing else. */
  lemma EndReleases(s: Maps, t: Maps, key: Key)
    requires IdsDistinct(s) && key in s.intents && t.intents == s.intents && t.estimates == s.estimates
    requires t.Status(s.intents[key].intentId) == CANCELLED && SameStatusElsewhere(s, t, s.intents[key].intentId)
    requires forall k :: k in s.intents ==> Filled(t.reports, k) == Filled(s.reports, k)
    ensures Released(s, t, key)
  {
    hide MapSum.Sum, LargestFill, Filled, OpenBuy, Reservation;
    var c, d := Reservations(s), Reservations(t);
    forall k | k in s.intents && k != key
      ensures OpenBuy(t, k) == OpenBuy(s, k) && Reservation(t, k) == Reservation(s, k)
    {
      OtherStays(s, t, key, k);
    }
    EndedIsClosed(t, key);
    assert d == c - {key};
    MapSum.Removed(c, key);
    if Overfilled(t) {
      var k :| k in t.intents && OpenBuy(t, k) && Filled(t.reports, k) > t.intents[k].quantity;
      assert OpenBuy(s, k);
    }
  }

  lemma CancellationReleases(s: Maps, p: TradeProposal, order: BrokerOrder, key: Key)
    requires Structured(s) && order.status == CANCELLED && LinkedTo(s, order.brokerOrderId, key)
    requires Fits(s.Status(s.intents[key].intentId), CANCELLED)
    ensures CancellationFits(s, order) && Released(s, AfterCancel(s, p, Ok(order)), key)
  {
    hide LargestFill, Released, Structured;
    CancelledIs(s, p, order, key);
    var t := AfterCancel(s, p, Ok(order));
    forall k | k in s.intents
      ensures Filled(t.reports, k) == Filled(s.reports, k)
    {
      SameFills(s.reports, CancelReport(p, order), k);
    }
    StructuredIds(s);
    EndReleases(s, t, key);
  }

  lemma StructuredIds(s: Maps)
    requires Structured(s)
    ensures IdsDistinct(s) && IntentsFit(s)
  {
  }

  lemma CancelledIs(s: Maps, p: TradeProposal, order: BrokerOrder, key: Key)
    requires Structured(s) && order.status == CANCELLED && LinkedTo(s, order.brokerOrderId, key)
    requires Fits(s.Status(s.intents[key].intentId), CANCELLED)
    ensures CancellationFits(s, order) && !CancelReport(p, order).IsFill()
    ensures var t, o := AfterCancel(s, p, Ok(order)), s.intents[key].intentId;
            && t.intents == s.intents && t.estimates == s.estimates
            && t.Status(o) == CANCELLED && SameStatusElsewhere(s, t, o)
            && (t.reports == s.reports || t.reports == s.reports + [CancelReport(p, order)])
  {
    hide AfterMove, AfterReport, Recounts, Follows, Fits, BROKER_STATUSES;
    var o := s.intents[key].intentId;
    assert Normalise(CANCELLED) == CANCELLED;
    MoveFollows(s, o, CANCELLED);
    CancelledFollows(s.Status(o), AfterMove(s, o, CANCELLED).Status(o));
    ReportRecounts(AfterMove(s, o, CANCELLED), CancelReport(p, order));
    RecountsReports(AfterMove(s, o, CANCELLED), AfterCancel(s, p, Ok(order)), CancelReport(p, order));
  }

  lemma CancelledFollows(before: OrderStatus, after: OrderStatus)
    requires Follows(before, CANCELLED, after) && Fits(before, CANCELLED)
    ensures after == CANCELLED
  {
  }

  lemma RecountsReports(s: Maps, t: Maps, r: ExecutionReport)
    requires Recounts(s, t, r)
    ensures t.intents == s.intents && t.estimates == s.estimates
    ensures t.reports == s.reports || t.reports == s.reports + [r]
  {
  }

  /** A linked order that the broker has cancelled and the life cycle does not let go: it is over by other means. */
  ghost predicate Contested(s: Maps, order: BrokerOrder) {
    order.status == CANCELLED
    && exists key :: LinkedTo(s, order.brokerOrderId, key) && !Fits(s.Status(s.intents[key].intentId), CANCELLED)
  }

  lemma ContestedIs(s: Maps, order: BrokerOrder)
    requires Structured(s)
    ensures CancellationFits(s, order) <==> !Contested(s, order)
  {
    hide Allowed;
    assert Normalise(CANCELLED) == CANCELLED;
    if order.brokerOrderId in s.brokerOrderKey {
      assert LinkedTo(s, order.brokerOrderId, s.brokerOrderKey[order.brokerOrderId]);
    }
  }

  /** The report of a cancellation: of the cancelling proposal's own key, without any fill. */
  predicate TellsOfCancel(p: TradeProposal, order: BrokerOrder, r: ExecutionReport) {
    && r.key == p.key && r.currency == p.currency && r.fillPrice == p.referencePrice
    && r.brokerOrderId == order.brokerOrderId && r.symbol == order.symbol && r.side == order.side
    && (r.status == CANCELLED <==> order.status == CANCELLED) && (r.status == CANCELLED || r.status == UNKNOWN)
    && r.fillQuantity == 0.0 && r.fee == 0.0 && r.slippage == 0.0
  }

  lemma CancelTells(p: TradeProposal, order: BrokerOrder)
    ensures TellsOfCancel(p, order, CancelReport(p, order)) && !CancelReport(p, order).IsFill()
  {
  }

  /** Every order is left alone, unless the broker has cancelled it. */
  lemma CancelElsewhere(s: Maps, p: TradeProposal, order: BrokerOrder)
    requires Structured(s)
    requires order.status != CANCELLED || forall key :: !LinkedTo(s, order.brokerOrderId, key)
    ensures CancellationFits(s, order) && AfterCancel(s, p, Ok(order)).machines == s.machines
  {
    hide AfterReport;
    ReportRecounts(s, CancelReport(p, order));
    if order.brokerOrderId in s.brokerOrderKey {
      assert LinkedTo(s, order.brokerOrderId, s.brokerOrderKey[order.brokerOrderId]);
    }
  }

  /** What becomes of the orders when the broker's answer to a cancellation is not contested. */
  ghost predicate CancelsOrders(events: seq<Event>, s: Maps, t: Maps, order: BrokerOrder) {
    && t.intents == s.intents
    && (order.status == CANCELLED ==>
          forall key :: LinkedTo(s, order.brokerOrderId, key) ==> Released(s, t, key) && Over(events, t, key))
    && (order.status != CANCELLED || (forall key :: !LinkedTo(s, order.brokerOrderId, key)) ==>
          t.machines == s.machines)
  }

  lemma CancelledOrders(settings: Settings, events: seq<Event>, s: Maps, t: Maps, p: TradeProposal,
                        order: BrokerOrder)
    requires Structured(s) && !Contested(s, order) && t == AfterCancel(s, p, Ok(order))
    requires Legal(settings, events) && Hydrate(events) == Ok(t)
    ensures CancelsOrders(events, s, t, order)
  {
    hide Legal, Hydrate, Structured, AfterCancel, Released, Fits, Over, CancellationFits;
    CancelKeepsIntents(s, p, order);
    if order.status == CANCELLED {
      forall key | LinkedTo(s, order.brokerOrderId, key)
        ensures Released(s, t, key) && Over(events, t, key)
      {
        CancellationReleases(s, p, order, key);
        ReleasedStatus(s, t, key);
        OverIsTerminal(settings, events, t, key);
      }
    }
    if order.status != CANCELLED || forall key :: !LinkedTo(s, order.brokerOrderId, key) {
      CancelElsewhere(s, p, order);
    }
  }

  lemma ReleasedStatus(s: Maps, t: Maps, key: Key)
    requires key in s.intents && Released(s, t, key)
    ensures t.Status(s.intents[key].intentId) == CANCELLED
  {
  }

  lemma CancelKeepsIntents(s: Maps, p: TradeProposal, order: BrokerOrder)
    ensures AfterCancel(s, p, Ok(order)).intents == s.intents
  {
    hide Allowed;
  }

  /**
    What the broker's answer to a cancellation leads to.  A contested one raises and changes no dictionary; any other
    is reported and reconciled.  The mode is left alone exactly if the broker cancelled and the life cycle agrees.
   */
  ghost predicate CancelAnswered(settings: Settings, events: seq<Event>, s: Maps, t: Maps, mode: ExperimentMode,
                                 after: ExperimentMode, p: TradeProposal, decision: RiskDecision, order: BrokerOrder,
                                 outcome: Outcome) {
    && after == (if mode == DEAD || (order.status == CANCELLED && !Contested(s, order)) then mode else SAFE)
    && if Contested(s, order) then outcome == Raised(InvalidTransition) && t == s
       else
         && CancelsOrders(events, s, t, order)
         && match outcome
            case Answered(d, report) =>
              && d == decision && report.Some? && TellsOfCancel(p, order, report.value)
              && (report.value.reportId !in s.reportIds ==> t.reports == s.reports + [report.value])
              && exists portfolio :: EndsReconciled(settings, events, t, portfolio)
            case Raised(e) => Authorized(settings, t.reports) == Err(e) || Reserved(t) == Err(e)
  }

  lemma CancelIsAnswered(settings: Settings, events: seq<Event>, s: Maps, t: Maps, mode: ExperimentMode,
                         after: ExperimentMode, p: TradeProposal, decision: RiskDecision, order: BrokerOrder,
                         portfolio: PortfolioState)
    requires Structured(s) && !Contested(s, order) && t == AfterCancel(s, p, Ok(order))
    requires Legal(settings, events) && Hydrate(events) == Ok(t)
    requires after == if mode == DEAD || order.status == CANCELLED then mode else SAFE
    requires EndsReconciled(settings, events, t, portfolio)
    ensures CancelAnswered(settings, events, s, t, mode, after, p, decision, order,
                           Answered(decision, Some(CancelReport(p, order))))
  {
    hide Legal, Hydrate, Structured, Contested, EndsReconciled, CancelsOrders, AfterReport, AfterCancellation,
      Authorized, Reserved, TellsOfCancel, CancelReport;
    ContestedIs(s, order);
    CancelTells(p, order);
    CancelledOrders(settings, events, s, t, p, order);
    ReportRecounts(AfterCancellation(s, order), CancelReport(p, order));
    CancellationReports(s, order);
  }

  lemma CancelIsNotReconciled(settings: Settings, events: seq<Event>, s: Maps, t: Maps, mode: ExperimentMode,
                              after: ExperimentMode, p: TradeProposal, decision: RiskDecision, order: BrokerOrder,
                              error: Error)
    requires Structured(s) && !Contested(s, order) && t == AfterCancel(s, p, Ok(order))
    requires Legal(settings, events) && Hydrate(events) == Ok(t)
    requires after == if mode == DEAD || order.status == CANCELLED then mode else SAFE
    requires Authorized(settings, t.reports) == Err(error) || Reserved(t) == Err(error)
    ensures CancelAnswered(settings, events, s, t, mode, after, p, decision, order, Raised(error))
  {
    hide Legal, Hydrate, Structured, Contested, CancelsOrders, AfterCancel, Authorized, Reserved;
    CancelledOrders(settings, events, s, t, p, order);
  }

  lemma CancellationReports(s: Maps, order: BrokerOrder)
    ensures AfterCancellation(s, order).reports == s.reports && AfterCancellation(s, order).reportIds == s.reportIds
  {
    hide Allowed;
  }

  // ----- What a later report does

  /** What the kernel does with a report it does not refuse. */
  ghost predicate Takes(s: Maps, t: Maps, r: ExecutionReport) {
    && Recounts(s, t, r)
    && if r.key !in s.intents then t.machines == s.machines
       else
         var o := s.intents[r.key].intentId;
         Follows(s.Status(o), r.status, t.Status(o)) && SameStatusElsewhere(s, t, o)
  }

  /** The report says of an order what the life cycle does not allow. */
  predicate Disagrees(s: Maps, r: ExecutionReport) {
    r.key in s.intents && !Fits(s.Status(s.intents[r.key].intentId), r.status)
  }

  lemma ReconcileTakes(s: Maps, r: ExecutionReport)
    requires IntentsFit(s)
    ensures Takes(s, AfterReconcile(s, r), r) && (ReconcileFits(s, r) <==> !Disagrees(s, r))
  {
    hide Recounts, Follows, Fits, AfterMove, AfterReport, Normalise, CanMove;
    ReportRecounts(s, r);
    if r.key in s.intents {
      ReportMoves(s, r, s.intents[r.key].intentId);
    }
  }

  /** A report that ends an order ends it for the reservations and for the restart as well. */
  lemma ReportEnds(settings: Settings, events: seq<Event>, s: Maps, t: Maps, r: ExecutionReport)
    requires Legal(settings, events) && Hydrate(events) == Ok(t) && Takes(s, t, r)
    requires r.key in s.intents && !Disagrees(s, r)
    ensures IsTerminal(r.status) ==> Over(events, t, r.key)
    ensures r.status in BROKER_STATUSES && !IsTerminal(r.status) ==> r.key in Pending(events)
  {
    hide Legal, Hydrate, Pending, Allowed, Over;
    OverIsTerminal(settings, events, t, r.key);
  }

  // ----- What the ledger ends with

  /** The last events are the replayed portfolio and a snapshot of what is reserved and what is left. */
  ghost predicate EndsReconciled(settings: Settings, events: seq<Event>, t: Maps, portfolio: PortfolioState) {
    var n := |events|;
    && Authorized(settings, t.reports) == Ok(portfolio) && Reserved(t).Ok?
    && n >= 2 && events[n - 2] == ReconciliationResult(portfolio)
    && events[n - 1].NavSnapshot? && events[n - 1].nav == portfolio.nav && events[n - 1].cash == portfolio.cash
    && events[n - 1].reserved == Reserved(t).value
    && events[n - 1].available
       == if portfolio.cash >= Reserved(t).value then portfolio.cash - Reserved(t).value else 0.0
  }

  /** An unknown order, another currency, or a broker order that belonged to another key. */
  predicate Refuses(settings: Settings, s: Maps, r: ExecutionReport) {
    || r.key !in s.known || r.currency != settings.currency
    || (r.brokerOrderId in s.brokerOrderKey && s.brokerOrderKey[r.brokerOrderId] != r.key)
  }

  /** The books are reconciled, or cannot be; an order that is reported over is over. */
  ghost predicate Settles(settings: Settings, events: seq<Event>, t: Maps, r: ExecutionReport,
                          res: Result<PortfolioState, Error>) {
    && (r.key in t.intents && IsTerminal(r.status) ==> Over(events, t, r.key))
    && (res.Ok? ==> EndsReconciled(settings, events, t, res.value))
    && (res.Err? ==> Authorized(settings, t.reports) == Err(res.error) || Reserved(t) == Err(res.error))
  }

  // ----- What an answer to a submission does

  /** A submitted order gets whichever status the broker answers, UNKNOWN for none of its own. */
  ghost predicate Answers(s: Maps, t: Maps, o: string, r: ExecutionReport) {
    && Recounts(s, t, r) && SameStatusElsewhere(s, t, o)
    && t.Status(o) == if r.status in BROKER_STATUSES then r.status else UNKNOWN
  }

  lemma SubmissionAnswers(s: Maps, o: string, r: ExecutionReport)
    requires s.Status(o) == SUBMITTING
    ensures Answers(s, AfterSubmission(s, o, Ok(r)), o, r)
  {
    hide Recounts, AfterMove, AfterReport, Normalise;
    ReportMoves(s, r, o);
  }

  /** The report is handed back once the books are reconciled; with an unknown order they are left as they are. */
  ghost predicate AnsweredWith(settings: Settings, events: seq<Event>, t: Maps, decision: RiskDecision,
                               r: ExecutionReport, outcome: Outcome) {
    && (forall key :: key in t.intents && IsTerminal(t.Status(t.intents[key].intentId)) ==> Over(events, t, key))
    && match outcome
       case Answered(d, report) =>
         && d == decision && report == Some(r)
         && (r.status != UNKNOWN ==> exists portfolio :: EndsReconciled(settings, events, t, portfolio))
       case Raised(e) =>
         r.status != UNKNOWN && (Authorized(settings, t.reports) == Err(e) || Reserved(t) == Err(e))
  }

  /** From `n` on the ledger holds only the report and the transition of an order: no books are reconciled. */
  ghost predicate Tracks(events: seq<Event>, n: nat) {
    forall i :: n <= i < |events| ==> events[i].BrokerReport? || events[i].StateTransition?
  }

  /** Whatever has a terminal status is over. */
  lemma AllOver(settings: Settings, events: seq<Event>, t: Maps)
    requires Legal(settings, events) && Hydrate(events) == Ok(t)
    ensures forall key :: key in t.intents && IsTerminal(t.Status(t.intents[key].intentId)) ==> Over(events, t, key)
  {
    hide Legal, Hydrate, Over;
    forall key | key in t.intents && IsTerminal(t.Status(t.intents[key].intentId))
      ensures Over(events, t, key)
    {
      OverIsTerminal(settings, events, t, key);
    }
  }

  // ----- What a proposal leads to

  predicate Trades(p: TradeProposal) {
    p.action != HOLD && p.action != CANCEL
  }

  /** From the verdict to the hand-over: approved orders are submitted, approved cancellations requested. */
  predicate HandsOver(p: TradeProposal, v: Verdict, stage: Stage) {
    if v.decision.approved && Trades(p) then v.intent.Some? && stage == ToSubmit(v.decision, v.intent.value)
    else if v.decision.approved && p.action == CANCEL then stage == ToCancel(v.decision)
    else stage == Finished(Answered(v.decision, None))
  }

  /** The dictionaries once an order has been submitted: known, opened, and waiting for the broker. */
  predicate Submitted(s: Maps, t: Maps, p: TradeProposal, i: OrderIntent) {
    && t.known == s.known + {p.key} && t.estimates == s.estimates[p.key := p.estimatedFee + p.estimatedSlippage]
    && t.intents == s.intents[p.key := i] && t.intentIds == s.intentIds[p.key := i.intentId]
    && t.machines == s.machines[i.intentId := SUBMITTING]
    && t.reports == s.reports && t.reportIds == s.reportIds && t.brokerOrderKey == s.brokerOrderKey
  }

  /** Without an order only the estimate changes, and the key becomes known if there is an approval. */
  predicate Considered(s: Maps, t: Maps, p: TradeProposal, approved: bool) {
    t == s.(estimates := s.estimates[p.key := p.estimatedFee + p.estimatedSlippage],
            known := if approved then s.known + {p.key} else s.known)
  }

  lemma JudgedIs(s: Maps, p: TradeProposal, v: Verdict)
    requires v.decision.approved && Trades(p) ==> v.intent.Some? && v.intent.value.key == p.key
    ensures HandsOver(p, v, VerdictStage(p, v))
    ensures var t := Settled(WithEstimate(s, p), p, v);
            if v.decision.approved && Trades(p) then Submitted(s, t, p, v.intent.value)
            else Considered(s, t, p, v.decision.approved)
  {
  }

  /** The ledger tells of the proposal, the verdict, and of an order up to its submission. */
  ghost predicate Tells(before: seq<Event>, after: seq<Event>, p: TradeProposal, v: Verdict) {
    var n := |before|;
    && before < after && after[n] == ProposalCreated(p)
    && n + 1 < |after| && after[n + 1] == RiskDecided(v.decision, Some(p.key))
    && if v.decision.approved && Trades(p) then
         && |after| == n + 7 && v.intent.Some? && after[n + 2] == IntentCreated(v.intent.value)
         && after[n + 6] == SubmissionAttempt(v.intent.value.intentId)
       else |after| == n + 2
  }

  lemma VerdictTells(before: seq<Event>, p: TradeProposal, v: Verdict)
    requires v.decision.approved && Trades(p) ==> v.intent.Some?
    ensures Tells(before, before + [ProposalCreated(p)] + VerdictEvents(p, v), p, v)
  {
    var after := before + [ProposalCreated(p)] + VerdictEvents(p, v);
    assert after[..|before|] == before;
  }

  /**
    What handling a proposal leads to.  Refused, or to hold: nothing but the verdict.  An order: it met every rule, was
    submitted once, and has the status the broker answered.  A cancellation: whatever the broker answered to it.
   */
  ghost predicate Handled(settings: Settings, events: seq<Event>, s: Maps, t: Maps, mode: ExperimentMode,
                          after: ExperimentMode, p: TradeProposal, env: Env, v: Verdict,
                          submitted: Result<ExecutionReport, Error>, cancelled: Result<BrokerOrder, Error>,
                          outcome: Outcome) {
    if v.decision.approved && Trades(p) then
      && after == mode && v.intent.Some? && MayReachBroker(settings, WithEstimate(s, p), mode, p, env, v.intent.value)
      && exists u :: Submitted(s, u, p, v.intent.value)
                     && if submitted.Err? then t == u && outcome == Raised(BrokerRaised)
                        else Answers(u, t, v.intent.value.intentId, submitted.value)
                             && AnsweredWith(settings, events, t, v.decision, submitted.value, outcome)
    else if v.decision.approved && p.action == CANCEL then
      exists u :: Considered(s, u, p, true)
                  && if cancelled.Err? then t == u && after == mode && outcome == Raised(BrokerRaised)
                     else CancelAnswered(settings, events, u, t, mode, after, p, v.decision, cancelled.value, outcome)
    else
      after == mode && Considered(s, t, p, v.decision.approved) && outcome == Answered(v.decision, None)
  }
}
