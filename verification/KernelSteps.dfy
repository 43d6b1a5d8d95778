/**
  What each step of the kernel writes to the ledger, and the dictionaries after it (execution/kernel.py:193-381).  A
  broker's answer is a parameter; a raised exception is an outcome that keeps the events already written.
 */
module KernelSteps {
  import opened Wrappers
  import opened Domain
  import opened RiskEngine
  import opened ExecutionLedger
  import opened Control

  datatype Outcome =
    | Raised(error: Error)
    | Answered(decision: RiskDecision, report: Option<ExecutionReport>)

  /** Where handling a proposal hands over to the broker. */
  datatype Stage =
    | Finished(outcome: Outcome)
    | ToSubmit(decision: RiskDecision, intent: OrderIntent)
    | ToCancel(decision: RiskDecision)

  function Normalise(status: OrderStatus): OrderStatus {
    if status == CREATED || status == VALIDATED || status == SUBMITTING then UNKNOWN else status
  }

  // ----- What each step writes to the ledger

  function ReportEvents(s: Maps, r: ExecutionReport): seq<Event> {
    if r.reportId in s.reportIds then [] else [BrokerReport(r)]
  }

  function AfterReport(s: Maps, r: ExecutionReport): Maps {
    if r.reportId in s.reportIds then s else Recorded(s, r)
  }

  predicate CanMove(s: Maps, o: string, to: OrderStatus) {
    s.Status(o) == to || to in Allowed(s.Status(o))
  }

  function MoveEvents(s: Maps, o: string, to: OrderStatus): seq<Event> {
    if s.Status(o) == to || !CanMove(s, o, to) then [] else [StateTransition(o, s.Status(o), to)]
  }

  function AfterMove(s: Maps, o: string, to: OrderStatus): Maps {
    if s.Status(o) == to || !CanMove(s, o, to) then s else s.(machines := s.machines[o := to])
  }

  ghost function ReconciliationEvents(settings: Settings, s: Maps): seq<Event> {
    match Authorized(settings, s.reports)
    case Err(_) => []
    case Ok(portfolio) =>
      [ReconciliationResult(portfolio)] +
      match Reserved(s)
      case Err(_) => []
      case Ok(reserved) => [NavSnapshot(portfolio.nav, portfolio.cash, reserved, Spendable(portfolio.cash, reserved))]
  }

  ghost function Reconciliation(settings: Settings, s: Maps): Result<PortfolioState, Error> {
    var portfolio :- Authorized(settings, s.reports);
    var _ :- Reserved(s);
    Ok(portfolio)
  }

  function Left(machines: map<string, OrderStatus>): map<string, OrderStatus> {
    map o | o in machines && machines[o] != CREATED :: machines[o]
  }

  lemma LeftUpdated(machines: map<string, OrderStatus>, o: string, to: OrderStatus)
    ensures to != CREATED ==> Left(machines[o := to]) == Left(machines)[o := to]
    ensures to == CREATED && o !in machines ==> Left(machines[o := to]) == Left(machines)
    ensures o !in machines ==> machines[o := CREATED][o := to] == machines[o := to]
  {
  }

  function Submitting(s: Maps, i: OrderIntent): Maps {
    var s := Opened(s, i);
    s.(machines := s.machines[i.intentId := SUBMITTING])
  }

  function OpeningEvents(i: OrderIntent): seq<Event> {
    [IntentCreated(i), StateTransition(i.intentId, CREATED, CREATED), StateTransition(i.intentId, CREATED, VALIDATED),
     StateTransition(i.intentId, VALIDATED, SUBMITTING), SubmissionAttempt(i.intentId)]
  }

  /**
    What may reach the broker: the order of a new key, of a permitted symbol, at a price that is not stale and within
    the limit; no purchase under a restriction or beyond the cash that is not reserved, no sale beyond the position.
   */
  ghost predicate MayReachBroker(settings: Settings, s: Maps, mode: ExperimentMode, p: TradeProposal, env: Env,
                                 i: OrderIntent) {
    && i.key == p.key && i.symbol == p.symbol && i.referencePrice == p.referencePrice && i.WellFormed()
    && i.key !in s.known && i.symbol in settings.permittedSymbols && i.currency == settings.currency
    && env.now - p.referenceTime <= settings.maxStaleSeconds
    && i.notional <= settings.maxOrderNotional
    && (p.quantity.Some? && p.notional.Some? ==> p.quantity.value * p.referencePrice == p.notional.value)
    && (env.killSwitch || mode == SAFE || mode == DEAD ==> i.side == SellSide)
    && Authorized(settings, s.reports).Ok?
    && var portfolio := Authorized(settings, s.reports).value;
       && (i.side == SellSide ==> i.quantity <= QuantityOf(portfolio.positions, i.symbol))
       && (i.side == BuySide ==>
             Reserved(s).Ok? && i.notional + p.EstimatedCost() + Reserved(s).value <= portfolio.cash)
  }

  /** The state in which the broker is called. */
  ghost predicate HandedOver(settings: Settings, s: Maps, events: seq<Event>, p: TradeProposal, stage: Stage) {
    match stage
    case Finished(_) => true
    case ToSubmit(_, i) =>
      && IsIntentId(s, i.intentId) && s.Status(i.intentId) == SUBMITTING && i.key in s.known
      && |events| > 0 && events[|events| - 1] == SubmissionAttempt(i.intentId)
    case ToCancel(_) =>
      && p.cancelOrderId.Some? && p.key in s.known && p.currency == settings.currency
      && |events| > 0 && events[|events| - 1].RiskDecided? && events[|events| - 1].decision.approved
  }

  predicate Orders(p: TradeProposal, v: Verdict) {
    v.decision.approved && p.action != HOLD && p.action != CANCEL && v.intent.Some?
  }

  function VerdictEvents(p: TradeProposal, v: Verdict): seq<Event> {
    [RiskDecided(v.decision, Some(p.key))] + if Orders(p, v) then OpeningEvents(v.intent.value) else []
  }

  function VerdictStage(p: TradeProposal, v: Verdict): Stage {
    if Orders(p, v) then ToSubmit(v.decision, v.intent.value)
    else if v.decision.approved && p.action == CANCEL then ToCancel(v.decision)
    else Finished(Answered(v.decision, None))
  }

  /** The dictionaries once the verdict has been carried out. */
  function Settled(s: Maps, p: TradeProposal, v: Verdict): Maps {
    var s := if v.decision.approved then s.(known := s.known + {p.key}) else s;
    if Orders(p, v) then Submitting(s, v.intent.value) else s
  }

  function JudgedEvents(p: TradeProposal, judged: Result<Verdict, Error>): seq<Event> {
    if judged.Err? then [] else VerdictEvents(p, judged.value)
  }

  function JudgedStage(p: TradeProposal, judged: Result<Verdict, Error>): Stage {
    if judged.Err? then Finished(Raised(judged.error)) else VerdictStage(p, judged.value)
  }

  function Judged(s: Maps, p: TradeProposal, judged: Result<Verdict, Error>): Maps {
    if judged.Err? then s else Settled(s, p, judged.value)
  }

  // ----- What the handling of a broker's answer writes

  ghost function SubmissionEvents(settings: Settings, s: Maps, o: string,
                                  reply: Result<ExecutionReport, Error>): seq<Event> {
    if reply.Err? then []
    else
      var r := reply.value;
      ReportEvents(s, r) + MoveEvents(s, o, Normalise(r.status)) +
      if r.status == UNKNOWN then [] else ReconciliationEvents(settings, AfterSubmission(s, o, reply))
  }

  function AfterSubmission(s: Maps, o: string, reply: Result<ExecutionReport, Error>): Maps {
    if reply.Err? then s else AfterMove(AfterReport(s, reply.value), o, Normalise(reply.value.status))
  }

  ghost function SubmissionOutcome(settings: Settings, s: Maps, o: string, decision: RiskDecision,
                                   reply: Result<ExecutionReport, Error>): Outcome
  {
    if reply.Err? then Raised(BrokerRaised)
    else
      var reconciled := Reconciliation(settings, AfterSubmission(s, o, reply));
      if reply.value.status != UNKNOWN && reconciled.Err? then Raised(reconciled.error)
      else Answered(decision, Some(reply.value))
  }

  function CancelReport(p: TradeProposal, order: BrokerOrder): ExecutionReport {
    ExecutionReport("cancel-" + order.brokerOrderId + "-" + p.key, order.brokerOrderId, p.key, order.symbol, order.side,
                    if order.status == CANCELLED then CANCELLED else UNKNOWN, 0.0, p.referencePrice, 0.0, 0.0,
                    p.currency)
  }

  /** The order a broker cancellation is about, if the kernel opened it. */
  function CancelTarget(s: Maps, order: BrokerOrder): Option<string> {
    if order.status == CANCELLED && order.brokerOrderId in s.brokerOrderKey
       && s.brokerOrderKey[order.brokerOrderId] in s.intentIds
    then Some(s.intentIds[s.brokerOrderKey[order.brokerOrderId]]) else None
  }

  predicate CancellationFits(s: Maps, order: BrokerOrder) {
    CancelTarget(s, order).Some? ==> CanMove(s, CancelTarget(s, order).value, CANCELLED)
  }

  function CancellationEvents(s: Maps, mode: ExperimentMode, order: BrokerOrder): seq<Event> {
    if order.status != CANCELLED || !CancellationFits(s, order) then ModeEvents(mode, SAFE)
    else if CancelTarget(s, order).Some? then MoveEvents(s, CancelTarget(s, order).value, CANCELLED) else []
  }

  function AfterCancellation(s: Maps, order: BrokerOrder): Maps {
    if CancelTarget(s, order).Some? then AfterMove(s, CancelTarget(s, order).value, CANCELLED) else s
  }

  ghost function CancelledEvents(settings: Settings, s: Maps, mode: ExperimentMode, p: TradeProposal,
                                 order: BrokerOrder): seq<Event> {
    [BrokerCancelled(order)] + CancellationEvents(s, mode, order) +
    if !CancellationFits(s, order) then []
    else ReportEvents(AfterCancellation(s, order), CancelReport(p, order)) +
         ReconciliationEvents(settings, AfterCancel(s, p, Ok(order)))
  }

  ghost function CancelEvents(settings: Settings, s: Maps, mode: ExperimentMode, p: TradeProposal,
                              reply: Result<BrokerOrder, Error>)
    : seq<Event>
    requires p.cancelOrderId.Some?
  {
    [CancellationRequested(p.proposalId, p.cancelOrderId.value)] +
    if reply.Err? then [] else CancelledEvents(settings, s, mode, p, reply.value)
  }

  function AfterCancel(s: Maps, p: TradeProposal, reply: Result<BrokerOrder, Error>): Maps {
    if reply.Err? || !CancellationFits(s, reply.value) then s
    else AfterReport(AfterCancellation(s, reply.value), CancelReport(p, reply.value))
  }

  ghost function CancelOutcome(settings: Settings, s: Maps, p: TradeProposal, decision: RiskDecision,
                               reply: Result<BrokerOrder, Error>): Outcome
  {
    if reply.Err? then Raised(BrokerRaised)
    else if !CancellationFits(s, reply.value) then Raised(InvalidTransition)
    else
      var reconciled := Reconciliation(settings, AfterCancel(s, p, reply));
      if reconciled.Err? then Raised(reconciled.error) else Answered(decision, Some(CancelReport(p, reply.value)))
  }

  /** What handling writes after the verdict; the state is the one after the verdict. */
  ghost function TailEvents(settings: Settings, s: Maps, mode: ExperimentMode, p: TradeProposal, stage: Stage,
                            submitted: Result<ExecutionReport, Error>,
                            cancelled: Result<BrokerOrder, Error>): seq<Event>
  {
    match stage
    case Finished(_) => []
    case ToSubmit(_, intent) => SubmissionEvents(settings, s, intent.intentId, submitted)
    case ToCancel(_) => if p.cancelOrderId.Some? then CancelEvents(settings, s, mode, p, cancelled) else []
  }

  ghost function TailOutcome(settings: Settings, s: Maps, p: TradeProposal, stage: Stage,
                             submitted: Result<ExecutionReport, Error>, cancelled: Result<BrokerOrder, Error>): Outcome
  {
    match stage
    case Finished(o) => o
    case ToSubmit(decision, intent) => SubmissionOutcome(settings, s, intent.intentId, decision, submitted)
    case ToCancel(decision) => CancelOutcome(settings, s, p, decision, cancelled)
  }

  function Refusal(settings: Settings, s: Maps, r: ExecutionReport): Option<Error> {
    if r.key !in s.known then Some(UnknownLogicalOrder)
    else if r.currency != settings.currency then Some(CurrencyMismatch)
    else if !SameIdentity(s, r) then Some(BrokerIdentityChanged)
    else None
  }

  predicate ReconcileFits(s: Maps, r: ExecutionReport) {
    r.key in s.intentIds ==> CanMove(s, s.intentIds[r.key], Normalise(r.status))
  }

  function AfterReconcile(s: Maps, r: ExecutionReport): Maps {
    if r.key in s.intentIds then AfterMove(AfterReport(s, r), s.intentIds[r.key], Normalise(r.status))
       else AfterReport(s, r)
  }

  ghost function ReconcileEvents(settings: Settings, s: Maps, mode: ExperimentMode, r: ExecutionReport): seq<Event> {
    if Refusal(settings, s, r).Some? then ModeEvents(mode, SAFE)
    else if r.key in s.intentIds then OrderReconcileEvents(settings, s, mode, r)
    else ReportEvents(s, r) + ReconciliationEvents(settings, AfterReconcile(s, r))
  }

  ghost function OrderReconcileEvents(settings: Settings, s: Maps, mode: ExperimentMode, r: ExecutionReport): seq<Event>
    requires r.key in s.intentIds
  {
    ReportEvents(s, r) + MoveEvents(s, s.intentIds[r.key], Normalise(r.status)) +
    if ReconcileFits(s, r) then ReconciliationEvents(settings, AfterReconcile(s, r)) else ModeEvents(mode, SAFE)
  }

  ghost function ReconcileOutcome(settings: Settings, s: Maps, r: ExecutionReport): Result<PortfolioState, Error> {
    if Refusal(settings, s, r).Some? then Err(Refusal(settings, s, r).value)
    else if !ReconcileFits(s, r) then Err(InvalidTransition)
    else Reconciliation(settings, AfterReconcile(s, r))
  }

  lemma Regroup<T>(a: seq<T>, b: seq<T>, c: seq<T>, d: seq<T>)
    ensures a + b + c + d == a + (b + c + d)
  {
  }
}
