/**
  The append-only ledger as a sequence of events: what a kernel rebuilds from it (`Hydrate`),
  and which event may follow which history (`Legal`).  `Legal` is closed under prefixes, so a crash
  between any two events leaves a legal ledger; every whole-run theorem is about legal ledgers.
 */
module ExecutionLedger {
  import opened Wrappers
  import opened Domain
  import opened RiskEngine
  import Reconciler
  import MapSum

  datatype Event =
    | ProposalCreated(proposal: TradeProposal)
    | RiskDecided(decision: RiskDecision, key: Option<Key>)
    | IntentCreated(intent: OrderIntent)
    | StateTransition(orderId: string, from: OrderStatus, to: OrderStatus)
    | SubmissionAttempt(intentId: string)
    | BrokerReport(report: ExecutionReport)
    | CancellationRequested(proposalId: string, cancelOrderId: OrderId)
    | BrokerCancelled(order: BrokerOrder)
    | ReconciliationResult(portfolio: PortfolioState)
    | NavSnapshot(nav: real, cash: real, reserved: real, available: real)
    | ControlModeChanged(previous: ExperimentMode, next: ExperimentMode)
    | Other(eventType: string)

  /** The order state machine's constant table (execution/state_machine.py:5-50). */
  function Allowed(from: OrderStatus): set<OrderStatus> {
    match from
    case CREATED => {VALIDATED, REJECTED}
    case VALIDATED => {SUBMITTING, REJECTED}
    case SUBMITTING => {ACKNOWLEDGED, PARTIALLY_FILLED, FILLED, CANCEL_PENDING, CANCELLED, UNKNOWN, REJECTED}
    case ACKNOWLEDGED => {PARTIALLY_FILLED, FILLED, CANCEL_PENDING, CANCELLED, UNKNOWN, REJECTED}
    case PARTIALLY_FILLED => {PARTIALLY_FILLED, FILLED, CANCEL_PENDING, CANCELLED, UNKNOWN, REJECTED}
    case CANCEL_PENDING => {PARTIALLY_FILLED, FILLED, CANCELLED, UNKNOWN}
    case UNKNOWN => {ACKNOWLEDGED, PARTIALLY_FILLED, FILLED, CANCEL_PENDING, CANCELLED, REJECTED}
    case FILLED => {}
    case REJECTED => {}
    case CANCELLED => {}
  }

  /**
    The kernel's dictionaries as one value.  `machines` lists only the orders that have left CREATED:
    a missing order machine counts as CREATED.
   */
  datatype Maps = Maps(
    known: set<Key>,
    reports: seq<ExecutionReport>,
    reportIds: set<string>,
    machines: map<string, OrderStatus>,
    intents: map<Key, OrderIntent>,
    intentIds: map<Key, string>,
    estimates: map<Key, real>,
    brokerOrderKey: map<OrderId, Key>)
  {
    function Status(orderId: string): OrderStatus {
      if orderId in machines then machines[orderId] else CREATED
    }
  }

  const EMPTY := Maps({}, [], {}, map[], map[], map[], map[], map[])

  function Recorded(s: Maps, r: ExecutionReport): Maps {
    var again := r.reportId in s.reportIds;
    s.(reports := if again then s.reports else s.reports + [r],
       reportIds := s.reportIds + {r.reportId},
       known := s.known + {r.key},
       brokerOrderKey := if r.key in s.intents then s.brokerOrderKey[r.brokerOrderId := r.key] else s.brokerOrderKey)
  }

  function Opened(s: Maps, i: OrderIntent): Maps {
    s.(intents := s.intents[i.key := i], intentIds := s.intentIds[i.key := i.intentId])
  }

  /** The estimate is overwritten before anything is decided (execution/kernel.py:198-200). */
  function WithEstimate(s: Maps, p: TradeProposal): Maps {
    s.(estimates := s.estimates[p.key := p.EstimatedCost()])
  }


  function Apply(s: Maps, e: Event): Result<Maps, Error> {
    match e
    case ProposalCreated(p) => Ok(WithEstimate(s, p))
    case RiskDecided(d, key) => Ok(if d.approved && key.Some? then s.(known := s.known + {key.value}) else s)
    case IntentCreated(i) => Ok(Opened(s, i))
    case BrokerReport(r) => Ok(Recorded(s, r))
    case StateTransition(o, _, to) =>
      if s.Status(o) == to then Ok(s)
      else if to in Allowed(s.Status(o)) then Ok(s.(machines := s.machines[o := to]))
      else Err(InvalidTransition)
    case _ => Ok(s)
  }

  /** Rebuilding the dictionaries from a ledger (execution/kernel.py:59-90). */
  function Hydrate(events: seq<Event>): Result<Maps, Error> {
    if events == [] then Ok(EMPTY)
    else
      var s :- Hydrate(events[..|events| - 1]);
      Apply(s, events[|events| - 1])
  }

  /** The mode a restarted process starts in (control/persistence.py:12-21). */
  function RestoredMode(events: seq<Event>): ExperimentMode {
    if events == [] then NORMAL
    else
      var e := events[|events| - 1];
      if e.ControlModeChanged? then e.next else RestoredMode(events[..|events| - 1])
  }

  // ----- What the kernel computes from its dictionaries

  function PositiveMarks(reports: seq<ExecutionReport>): map<Symbol, real> {
    if reports == [] then map[]
    else
      var r := reports[|reports| - 1];
      var m := PositiveMarks(reports[..|reports| - 1]);
      if r.fillPrice > 0.0 then m[r.symbol := r.fillPrice] else m
  }

  function Marks(reports: seq<ExecutionReport>): map<Symbol, real> {
    var m := PositiveMarks(reports);
    if m == map[] then map["TEST" := 1.0] else m
  }

  ghost function Authorized(settings: Settings, reports: seq<ExecutionReport>): Result<PortfolioState, Error> {
    Reconciler.ReplayState(settings.startingCash, reports, Marks(reports), settings.currency)
  }

  /** The largest cumulative fill reported for a key, if any fill was reported. */
  function LargestFill(reports: seq<ExecutionReport>, key: Key): Option<real> {
    if reports == [] then None
    else
      var r := reports[|reports| - 1];
      var before := LargestFill(reports[..|reports| - 1], key);
      if r.key != key || !r.IsFill() then before
      else if before.Some? && before.value >= r.fillQuantity then before
      else Some(r.fillQuantity)
  }

  function Filled(reports: seq<ExecutionReport>, key: Key): real {
    var f := LargestFill(reports, key);
    if f.Some? then f.value else 0.0
  }

  predicate OpenBuy(s: Maps, key: Key) {
    key in s.intents && s.intents[key].side == BuySide && !IsTerminal(s.Status(s.intents[key].intentId))
  }

  /** What one open purchase reserves: the full estimate as long as anything remains to be filled. */
  function Reservation(s: Maps, key: Key): real
    requires key in s.intents
  {
    var i := s.intents[key];
    var remaining := i.quantity - Filled(s.reports, key);
    if remaining <= 0.0 then 0.0 else remaining * i.referencePrice + MapSum.Get(s.estimates, key)
  }

  ghost function Reservations(s: Maps): map<Key, real> {
    map k | k in s.intents && OpenBuy(s, k) :: Reservation(s, k)
  }

  predicate Overfilled(s: Maps) {
    exists k :: k in s.intents && OpenBuy(s, k) && Filled(s.reports, k) > s.intents[k].quantity
  }

  ghost function Reserved(s: Maps): Result<real, Error> {
    if Overfilled(s) then Err(FillExceedsOrder) else Ok(MapSum.Sum(Reservations(s)))
  }

  function Spendable(cash: real, reserved: real): real {
    Max(cash - reserved, 0.0)
  }

  /** What a decision depends on beside the ledger: the clock, the kill switch and a new identifier. */
  datatype Env = Env(now: real, killSwitch: bool, intentId: string)

  /** The order a proposal asks for, given the shares currently held (execution/kernel.py:154-191). */
  function OrderFor(p: TradeProposal, held: real, intentId: string): (r: Result<Option<OrderIntent>, Error>)
    ensures r.Ok? && r.value.Some? ==>
              var i := r.value.value;
              && p.action != HOLD && p.action != CANCEL
              && i.WellFormed() && i.key == p.key && i.intentId == intentId && i.symbol == p.symbol
              && i.referencePrice == p.referencePrice && i.currency == p.currency
              && i.side == (if IsOpening(p.action) then BuySide else SellSide)
  {
    if p.action == HOLD || p.action == CANCEL then Ok(None)
    else if IsOpening(p.action) then
      if p.quantity.None? then Ok(None)
      else
        var i :- CreateIntent(intentId, p, BuySide, p.quantity.value);
        Ok(Some(i))
    else if p.action == REDUCE && p.reduceFraction.None? then Ok(None)
    else
      var quantity := if p.action == REDUCE then held * p.reduceFraction.value
                      else if p.action == EXIT then held
                      else if p.quantity.Some? then p.quantity.value else 0.0;
      var i :- CreateIntent(intentId, p, SellSide, quantity);
      Ok(Some(i))
  }

  ghost function Derive(settings: Settings, s: Maps, p: TradeProposal, intentId: string)
    : Result<Option<OrderIntent>, Error>
  {
    if p.action == HOLD || p.action == CANCEL then Ok(None)
    else
      var portfolio :- Authorized(settings, s.reports);
      OrderFor(p, QuantityOf(portfolio.positions, p.symbol), intentId)
  }

  datatype Verdict = Verdict(decision: RiskDecision, intent: Option<OrderIntent>)

  /** The state here is the one after the proposal has been recorded. */
  ghost function Decide(settings: Settings, s: Maps, mode: ExperimentMode, p: TradeProposal, env: Env)
    : Result<Verdict, Error>
  {
    var intent :- Derive(settings, s, p, env.intentId);
    var portfolio :- Authorized(settings, s.reports);
    var reserved :- Reserved(s);
    Ok(Verdict(Evaluate(settings, p, intent, Spendable(portfolio.cash, reserved),
                        QuantityOf(portfolio.positions, p.symbol), mode,
                        env.killSwitch, s.known, env.now), intent))
  }

  // ----- Which event may follow which history

  ghost predicate Decidable(settings: Settings, s: Maps, mode: ExperimentMode, p: TradeProposal, d: RiskDecision) {
    exists env: Env :: Decide(settings, s, mode, p, env).Ok? && Decide(settings, s, mode, p, env).value.decision == d
  }

  predicate IsIntentId(s: Maps, orderId: string) {
    exists k :: k in s.intents && s.intents[k].intentId == orderId
  }

  predicate LegalTransition(events: seq<Event>, s: Maps, o: string, from: OrderStatus, to: OrderStatus) {
    && s.Status(o) == from
    && IsIntentId(s, o)
    && match to
       case CREATED => from == CREATED && |events| > 0 && events[|events| - 1].IntentCreated?
                       && events[|events| - 1].intent.intentId == o
       case VALIDATED => from == CREATED && |events| > 0 && events[|events| - 1] == StateTransition(o, CREATED, CREATED)
       case SUBMITTING => from == VALIDATED && |events| > 0
                          && events[|events| - 1] == StateTransition(o, CREATED, VALIDATED)
       case _ => from != to && to in Allowed(from)
  }

  ghost predicate MayDecide(settings: Settings, events: seq<Event>, s: Maps, d: RiskDecision, key: Option<Key>) {
    && |events| > 0 && events[|events| - 1].ProposalCreated?
    && key == Some(events[|events| - 1].proposal.key)
    && Decidable(settings, s, RestoredMode(events), events[|events| - 1].proposal, d)
  }

  ghost predicate MayOpen(settings: Settings, events: seq<Event>, s: Maps, i: OrderIntent) {
    var n := |events|;
    && n > 1 && events[n - 1] == RiskDecided(RiskDecision(true, APPROVED), Some(i.key))
    && events[n - 2].ProposalCreated?
    && Derive(settings, s, events[n - 2].proposal, i.intentId) == Ok(Some(i))
    && i.intentId !in s.machines && !IsIntentId(s, i.intentId)
  }

  predicate MaySubmit(events: seq<Event>, o: string) {
    |events| > 0 && events[|events| - 1] == StateTransition(o, VALIDATED, SUBMITTING)
  }

  predicate SameIdentity(s: Maps, r: ExecutionReport) {
    r.brokerOrderId in s.brokerOrderKey ==> s.brokerOrderKey[r.brokerOrderId] == r.key
  }

  /** The answer to a submission is taken as it comes; any other report is about a known key and keeps its identity. */
  predicate MayRecord(settings: Settings, events: seq<Event>, s: Maps, r: ExecutionReport) {
    && r.reportId !in s.reportIds
    && ((|events| > 0 && events[|events| - 1].SubmissionAttempt?)
        || (r.key in s.known && r.currency == settings.currency && (r.IsFill() ==> SameIdentity(s, r))))
  }

  ghost predicate MaySnapshot(settings: Settings, events: seq<Event>, s: Maps, nav: real, cash: real, reserved: real,
                              available: real) {
    var n := |events|;
    && n > 0 && events[n - 1].ReconciliationResult?
    && events[n - 1].portfolio.nav == nav && events[n - 1].portfolio.cash == cash
    && Reserved(s) == Ok(reserved) && available == Spendable(cash, reserved)
  }

  ghost predicate LegalNext(settings: Settings, events: seq<Event>, s: Maps, e: Event) {
    match e
    case ProposalCreated(p) => p.Valid()
    case RiskDecided(d, key) => MayDecide(settings, events, s, d, key)
    case IntentCreated(i) => MayOpen(settings, events, s, i)
    case StateTransition(o, from, to) => LegalTransition(events, s, o, from, to)
    case SubmissionAttempt(o) => MaySubmit(events, o)
    case BrokerReport(r) => MayRecord(settings, events, s, r)
    case CancellationRequested(_, _) => |events| > 0 && events[|events| - 1].RiskDecided?
                                        && events[|events| - 1].decision.approved
    case BrokerCancelled(_) => |events| > 0 && events[|events| - 1].CancellationRequested?
    case ReconciliationResult(portfolio) => Authorized(settings, s.reports) == Ok(portfolio)
    case NavSnapshot(nav, cash, reserved, available) => MaySnapshot(settings, events, s, nav, cash, reserved, available)
    case ControlModeChanged(previous, next) => previous == RestoredMode(events) && previous != next && previous != DEAD
    case Other(_) => true
  }

  ghost predicate LegalAt(settings: Settings, events: seq<Event>, n: nat)
    requires n < |events|
  {
    Hydrate(events[..n]).Ok? && LegalNext(settings, events[..n], Hydrate(events[..n]).value, events[n])
  }

  /** Every event was legal when it was written. */
  ghost predicate Legal(settings: Settings, events: seq<Event>) {
    forall n: nat :: n < |events| ==> LegalAt(settings, events, n)
  }

  // ----- Appending and prefixes

  lemma LegalNextApplies(settings: Settings, events: seq<Event>, s: Maps, e: Event)
    requires LegalNext(settings, events, s, e)
    ensures Apply(s, e).Ok?
  {
  }

  lemma HydrateAppend(events: seq<Event>, e: Event)
    requires Hydrate(events).Ok?
    ensures Hydrate(events + [e]) == Apply(Hydrate(events).value, e)
    ensures RestoredMode(events + [e]) == if e.ControlModeChanged? then e.next else RestoredMode(events)
  {
    assert (events + [e])[..|events|] == events;
  }

  lemma Extend(settings: Settings, events: seq<Event>, e: Event)
    requires Legal(settings, events) && Hydrate(events).Ok?
    requires LegalNext(settings, events, Hydrate(events).value, e)
    ensures Legal(settings, events + [e])
    ensures Apply(Hydrate(events).value, e).Ok? && Hydrate(events + [e]) == Apply(Hydrate(events).value, e)
    ensures RestoredMode(events + [e]) == if e.ControlModeChanged? then e.next else RestoredMode(events)
  {
    HydrateAppend(events, e);
    LegalNextApplies(settings, events, Hydrate(events).value, e);
    var longer := events + [e];
    forall n: nat | n < |longer|
      ensures LegalAt(settings, longer, n)
    {
      if n < |events| {
        assert LegalAt(settings, events, n);
        assert longer[..n] == events[..n];
      } else {
        assert longer[..n] == events;
      }
    }
  }

  /** A crash at any event boundary leaves a legal ledger, and every legal ledger can be rebuilt. */
  lemma {:induction false} LegalPrefix(settings: Settings, events: seq<Event>, n: nat)
    requires Legal(settings, events) && n <= |events|
    ensures Legal(settings, events[..n]) && Hydrate(events[..n]).Ok?
    decreases n
  {
    forall m: nat | m < n
      ensures LegalAt(settings, events[..n], m)
    {
      assert LegalAt(settings, events, m);
      assert events[..n][..m] == events[..m];
    }
    if n > 0 {
      LegalPrefix(settings, events, n - 1);
      assert LegalAt(settings, events, n - 1);
      assert events[..n] == events[..n - 1] + [events[n - 1]];
      Extend(settings, events[..n - 1], events[n - 1]);
    }
  }

  lemma LegalHydrates(settings: Settings, events: seq<Event>)
    requires Legal(settings, events)
    ensures Hydrate(events).Ok?
  {
    LegalPrefix(settings, events, |events|);
    assert events[..|events|] == events;
  }

  /** Hydration one event at a time. */
  lemma HydrateStep(settings: Settings, events: seq<Event>, n: nat)
    requires Legal(settings, events) && n < |events|
    ensures Hydrate(events[..n]).Ok? && Hydrate(events[..n + 1]).Ok?
    ensures Hydrate(events[..n + 1]) == Apply(Hydrate(events[..n]).value, events[n])
  {
    LegalPrefix(settings, events, n);
    LegalPrefix(settings, events, n + 1);
    assert events[..n + 1] == events[..n] + [events[n]];
    HydrateAppend(events[..n], events[n]);
  }
}
