/**
  Two independent sets of books.  Driven through the kernel, the simulated broker's positions stay equal to
  the positions replayed from the ledger, and the difference of the two cash figures never changes.
 */
module Lockstep {
  import opened Wrappers
  import opened Domain
  import opened RiskEngine
  import opened ExecutionLedger
  import opened LedgerTheorems
  import opened Control
  import opened KernelSteps
  import opened Kernel
  import opened SimulatedBrokers
  import opened Reconciler
  import opened Telescoping

  /** The broker's half of the pair. */
  datatype Books = Books(
    cash: real,
    positions: map<Symbol, Position>,
    keys: set<Key>,
    orderIds: set<OrderId>)

  ghost function BooksOf(broker: SimulatedBroker): Books
    reads broker
  {
    Books(broker.cash, broker.positions, broker.ordersByKey.Keys, broker.brokerOrders.Keys)
  }

  /** `gap` is the broker's cash minus the replayed cash. */
  ghost predicate InStep(settings: Settings, s: Maps, books: Books, gap: real) {
    var b := Replay(settings.startingCash, s.reports, settings.currency);
    && b.Ok?
    && books.positions == b.value.positions
    && books.cash == b.value.cash + gap
    && books.keys <= s.known
    && b.value.quantity.Keys <= books.orderIds
    && Structured(s)
  }

  ghost predicate SaneRates(broker: SimulatedBroker) {
    0.0 <= broker.slippageRate < 1.0 && 0.0 <= broker.feeRate
  }

  lemma NewReportId(settings: Settings, s: Maps, reportId: string)
    requires Structured(s) && reportId !in s.reportIds
             && Replay(settings.startingCash, s.reports, settings.currency).Ok?
    ensures reportId !in Replay(settings.startingCash, s.reports, settings.currency).value.seen
  {
    ReplayApplied(settings.startingCash, s.reports, settings.currency);
  }

  lemma FillFigures(broker: SimulatedBroker, i: OrderIntent)
    requires SaneRates(broker) && i.WellFormed()
    ensures broker.FillPrice(i) > 0.0 && i.quantity * broker.FillPrice(i) > 0.0 && broker.Fee(i) >= 0.0
  {
    var factor := if i.side == SellSide then 1.0 - broker.slippageRate else 1.0 + broker.slippageRate;
    assert i.referencePrice * factor > 0.0;
    assert broker.FillPrice(i) * i.quantity > 0.0;
    assert broker.FillPrice(i) * i.quantity * broker.feeRate >= 0.0;
  }

  /** Replaying a complete fill of a new order does to the replayed books what the broker did to its own. */
  lemma FillKeepsStep(broker: SimulatedBroker, b: Book, i: OrderIntent, orderId: OrderId, reportId: string,
                      cash: real, positions: map<Symbol, Position>, cash': real, positions': map<Symbol, Position>)
    requires SaneRates(broker) && i.WellFormed() && LongOnly(b.positions) && positions == b.positions
    requires reportId !in b.seen && orderId !in b.quantity && b.quantity.Keys == b.gross.Keys == b.fee.Keys
    requires broker.Booked(i, cash, positions, cash', positions')
    requires i.side == SellSide ==> i.quantity <= QuantityOf(b.positions, i.symbol)
    ensures var after := Step(b, broker.FilledReport(i, orderId, reportId), broker.currency);
            && after.Ok? && after.value.positions == positions'
            && cash' - after.value.cash == cash - b.cash
            && after.value.quantity.Keys == b.quantity.Keys + {orderId}
  {
    FillFigures(broker, i);
    var notional := broker.FillPrice(i) * i.quantity;
    var r := broker.FilledReport(i, orderId, reportId);
    assert r.Gross() == notional;
    if i.side == BuySide {
      BoughtAverages(b.positions, i.symbol, i.quantity, notional);
      AveragedOnce(b.positions, positions', Bought(b.positions, i.symbol, i.quantity, notional), i.symbol, i.quantity,
                   notional);
    } else {
      SoldReduces(b.positions, i.symbol, i.quantity);
      ReducedOnce(b.positions, positions', Sold(b.positions, i.symbol, i.quantity), i.symbol, i.quantity);
    }
  }

  /** Only reports and known keys matter to the pair of books. */
  lemma StepKept(settings: Settings, s: Maps, t: Maps, books: Books, gap: real)
    requires InStep(settings, s, books, gap) && Structured(t) && t.reports == s.reports && s.known <= t.known
    ensures InStep(settings, t, books, gap)
  {
  }

  /** Recording an answer that carries no fill moves neither book. */
  lemma QuietReportKeepsStep(settings: Settings, s: Maps, t: Maps, books: Books, books': Books, gap: real,
                             r: ExecutionReport)
    requires InStep(settings, s, books, gap) && Structured(t) && t.known >= s.known
    requires t.reports == if r.reportId in s.reportIds then s.reports else s.reports + [r]
    requires !r.IsFill() && r.currency == settings.currency
    requires books' == books.(keys := books'.keys, orderIds := books'.orderIds)
    requires books'.keys <= t.known && books.orderIds <= books'.orderIds
    ensures InStep(settings, t, books', gap)
  {
    if r.reportId !in s.reportIds {
      ReplayAppend(settings.startingCash, s.reports, r, settings.currency);
    }
  }

  lemma FillReportKeepsStep(settings: Settings, broker: SimulatedBroker, s: Maps, t: Maps, books: Books, books': Books,
                            gap: real,
                            i: OrderIntent, orderId: OrderId, reportId: string)
    requires InStep(settings, s, books, gap) && Structured(t) && t.known >= s.known
    requires SaneRates(broker) && broker.currency == settings.currency && i.WellFormed()
    requires reportId !in s.reportIds && orderId !in books.orderIds
    requires t.reports == s.reports + [broker.FilledReport(i, orderId, reportId)]
    requires broker.Booked(i, books.cash, books.positions, books'.cash, books'.positions)
    requires i.side == SellSide ==> i.symbol in books.positions && i.quantity <= books.positions[i.symbol].quantity
    requires books'.keys <= t.known && books.orderIds + {orderId} <= books'.orderIds
    ensures InStep(settings, t, books', gap)
  {
    var b := Replay(settings.startingCash, s.reports, settings.currency).value;
    NewReportId(settings, s, reportId);
    ReplayApplied(settings.startingCash, s.reports, settings.currency);
    FillKeepsStep(broker, b, i, orderId, reportId, books.cash, books.positions, books'.cash, books'.positions);
    ReplayAppend(settings.startingCash, s.reports, broker.FilledReport(i, orderId, reportId), settings.currency);
  }

  /** What the broker's answer to a submission means for the two sets of books. */
  ghost predicate AnswerFits(broker: SimulatedBroker, books: Books, books': Books, i: OrderIntent, orderId: OrderId,
                             reportId: string, answer: Result<ExecutionReport, Error>)
  {
    if answer.Err? then books' == books
    else
      && books'.keys == books.keys + {i.key} && books'.orderIds == books.orderIds + {orderId}
      && if broker.failWithUnknown then
           answer.value == broker.UnknownReport(i, orderId, reportId)
           && books'.cash == books.cash && books'.positions == books.positions
         else
           answer.value == broker.FilledReport(i, orderId, reportId)
           && broker.Booked(i, books.cash, books.positions, books'.cash, books'.positions)
  }

  lemma SubmissionKeepsStep(settings: Settings, broker: SimulatedBroker, s: Maps, t: Maps, books: Books, books': Books,
                            gap: real,
                            i: OrderIntent, orderId: OrderId, reportId: string, answer: Result<ExecutionReport, Error>)
    requires InStep(settings, s, books, gap) && Structured(t) && t == AfterSubmission(s, i.intentId, answer)
    requires SaneRates(broker) && broker.currency == settings.currency && i.WellFormed() && i.key in s.known
    requires reportId !in s.reportIds && orderId !in books.orderIds
    requires i.side == SellSide ==> i.symbol in books.positions && i.quantity <= books.positions[i.symbol].quantity
    requires AnswerFits(broker, books, books', i, orderId, reportId, answer)
    ensures InStep(settings, t, books', gap)
  {
    if answer.Ok? {
      if broker.failWithUnknown {
        QuietReportKeepsStep(settings, s, t, books, books', gap, answer.value);
      } else {
        FillReportKeepsStep(settings, broker, s, t, books, books', gap, i, orderId, reportId);
      }
    }
  }

  lemma CancelKeepsStep(settings: Settings, s: Maps, t: Maps, books: Books, gap: real, p: TradeProposal,
                        answer: Result<BrokerOrder, Error>)
    requires InStep(settings, s, books, gap) && Structured(t) && t == AfterCancel(s, p, answer)
    requires p.key in s.known && p.currency == settings.currency
    ensures InStep(settings, t, books, gap)
  {
    if answer.Err? || !CancellationFits(s, answer.value) {
      StepKept(settings, s, t, books, gap);
    } else {
      QuietReportKeepsStep(settings, s, t, books, books, gap, CancelReport(p, answer.value));
    }
  }

  lemma JudgingReportsNothing(s: Maps, p: TradeProposal, judged: Result<Verdict, Error>)
    ensures var t := Judged(WithEstimate(s, p), p, judged);
            t.reports == s.reports && t.reportIds == s.reportIds && s.known <= t.known
  {
  }

  /** What reaches the broker is new to it, and a sale is covered by its own position. */
  lemma ReachesBroker(settings: Settings, s: Maps, books: Books, gap: real, mode: ExperimentMode, p: TradeProposal,
                      env: Env, i: OrderIntent)
    requires InStep(settings, s, books, gap) && MayReachBroker(settings, WithEstimate(s, p), mode, p, env, i)
    ensures i.key !in books.keys && i.WellFormed()
    ensures i.side == SellSide ==> i.symbol in books.positions && i.quantity <= books.positions[i.symbol].quantity
  {
  }

  /** One proposal driven through the kernel with the simulated broker behind it. */
  method Drive(kernel: ExecutionKernel, broker: SimulatedBroker, p: TradeProposal, env: Env, orderId: OrderId,
               reportId: string,
               ghost gap: real)
    returns (outcome: Outcome, ghost reply: Option<Result<ExecutionReport, Error>>)
    requires kernel.Valid() && p.Valid() && env.killSwitch == kernel.control.killSwitch
    requires env.intentId !in kernel.View().machines && !IsIntentId(kernel.View(), env.intentId)
    requires SaneRates(broker) && broker.currency == kernel.settings.currency
    requires orderId !in broker.brokerOrders && reportId !in kernel.reportIds
    requires InStep(kernel.settings, kernel.View(), BooksOf(broker), gap)
    modifies kernel, kernel.log, kernel.control, broker
    ensures kernel.Valid() && InStep(kernel.settings, kernel.View(), BooksOf(broker), gap)
    ensures reply.Some? ==> reply.value != Err(ShortPosition)
  {
    hide Decide, Derive, Hydrate, Legal, Structured, Reserved, Judged, InStep, MayReachBroker;
    reply := None;
    ghost var s := kernel.View();
    var stage, judged := kernel.Propose(p, env);
    LegalStructured(kernel.settings, kernel.log.events);
    JudgingReportsNothing(s, p, judged);
    StepKept(kernel.settings, s, kernel.View(), BooksOf(broker), gap);
    match stage {
      case Finished(o) => outcome := o;
      case ToSubmit(decision, intent) =>
        ReachesBroker(kernel.settings, s, BooksOf(broker), gap, kernel.control.mode, p, env, intent);
        outcome, reply := DriveSubmission(kernel, broker, decision, intent, orderId, reportId, gap);
      case ToCancel(decision) =>
        outcome := DriveCancel(kernel, broker, p, decision, gap);
    }
  }

  method DriveSubmission(kernel: ExecutionKernel, broker: SimulatedBroker, decision: RiskDecision, intent: OrderIntent,
                         orderId: OrderId, reportId: string, ghost gap: real)
    returns (outcome: Outcome, ghost reply: Option<Result<ExecutionReport, Error>>)
    requires kernel.Valid() && IsIntentId(kernel.View(), intent.intentId)
             && kernel.View().Status(intent.intentId) == SUBMITTING
    requires |kernel.log.events| > 0 && kernel.log.events[|kernel.log.events| - 1] == SubmissionAttempt(intent.intentId)
    requires SaneRates(broker) && broker.currency == kernel.settings.currency && intent.WellFormed()
    requires orderId !in broker.brokerOrders && reportId !in kernel.reportIds
    requires InStep(kernel.settings, kernel.View(), BooksOf(broker), gap)
    requires intent.key in kernel.View().known && intent.key !in broker.ordersByKey
    requires intent.side == SellSide ==>
               intent.symbol in broker.positions && intent.quantity <= broker.positions[intent.symbol].quantity
    modifies kernel, kernel.log, kernel.control, broker
    ensures kernel.Valid() && InStep(kernel.settings, kernel.View(), BooksOf(broker), gap)
    ensures reply.Some? ==> reply.value != Err(ShortPosition)
  {
    hide Decide, Hydrate, Legal, Structured;
    ghost var s, books := kernel.View(), BooksOf(broker);
    var answer := broker.Submit(intent, orderId, reportId);
    reply := Some(answer);
    ghost var books' := BooksOf(broker);
    assert AnswerFits(broker, books, books', intent, orderId, reportId, answer);
    outcome := kernel.CompleteSubmission(decision, intent, answer);
    LegalStructured(kernel.settings, kernel.log.events);
    SubmissionKeepsStep(kernel.settings, broker, s, kernel.View(), books, books', gap, intent, orderId, reportId,
                        answer);
  }

  method DriveCancel(kernel: ExecutionKernel, broker: SimulatedBroker, p: TradeProposal, decision: RiskDecision,
                     ghost gap: real)
    returns (outcome: Outcome)
    requires kernel.Valid() && p.cancelOrderId.Some? && p.key in kernel.View().known
             && p.currency == kernel.settings.currency
    requires |kernel.log.events| > 0 && kernel.log.events[|kernel.log.events| - 1].RiskDecided?
    requires kernel.log.events[|kernel.log.events| - 1].decision.approved
    requires InStep(kernel.settings, kernel.View(), BooksOf(broker), gap)
    modifies kernel, kernel.log, kernel.control, broker
    ensures kernel.Valid() && InStep(kernel.settings, kernel.View(), BooksOf(broker), gap)
  {
    hide Decide, Hydrate, Legal, Structured;
    ghost var s, books := kernel.View(), BooksOf(broker);
    var answer := broker.Cancel(p.cancelOrderId.value);
    outcome := kernel.HandleCancel(p, decision, answer);
    LegalStructured(kernel.settings, kernel.log.events);
    CancelKeepsStep(kernel.settings, s, kernel.View(), books, gap, p, answer);
  }

  // ----- Whole sessions

  /** An empty ledger and a new broker are in step; the gap is the difference of the two starting amounts. */
  lemma StartsInStep(settings: Settings, cash: real)
    ensures InStep(settings, EMPTY, Books(cash, map[], {}, {}), cash - settings.startingCash)
  {
  }

  datatype SessionStep =
    | Proposed(p: TradeProposal, env: Env, orderId: OrderId, reportId: string)
    | Restarted(killSwitch: bool)

  /**
    Any session on any legal ledger in step with the broker, with restarts in between: one gap, from the first call to
    the last, and never a refused short sale.  A proposal that cannot occur is skipped: an invalid one, or one whose
    identifiers are not new.
   */
  method Session(settings: Settings, log: EventLog, broker: SimulatedBroker, steps: seq<SessionStep>, ghost gap: real)
    returns (ghost replies: seq<Result<ExecutionReport, Error>>)
    requires Legal(settings, log.events) && Hydrate(log.events).Ok?
    requires InStep(settings, Hydrate(log.events).value, BooksOf(broker), gap)
    requires SaneRates(broker) && broker.currency == settings.currency
    modifies log, broker
    ensures Legal(settings, log.events) && Hydrate(log.events).Ok?
    ensures InStep(settings, Hydrate(log.events).value, BooksOf(broker), gap)
    ensures Err(ShortPosition) !in replies
  {
    hide Legal, Hydrate, InStep, Decide;
    replies := [];
    var kernel := Restart(settings, log, false);
    for i := 0 to |steps|
      invariant fresh(kernel) && fresh(kernel.control) && kernel.Valid()
      invariant kernel.settings == settings && kernel.log == log
      invariant InStep(settings, kernel.View(), BooksOf(broker), gap)
      invariant Err(ShortPosition) !in replies
    {
      match steps[i] {
        case Proposed(p, env, orderId, reportId) =>
          if p.Valid() && !kernel.KnowsOrder(env.intentId) && orderId !in broker.brokerOrders
             && reportId !in kernel.reportIds {
            var _, reply := Drive(kernel, broker, p, env.(killSwitch := kernel.control.killSwitch), orderId, reportId,
                                  gap);
            replies := replies + if reply.Some? then [reply.value] else [];
          }
        case Restarted(killSwitch) =>
          kernel := Restart(settings, log, killSwitch);
      }
    }
  }

  /** From nothing: whatever is proposed, the gap stays what it was at the start. */
  method SessionFromNothing(settings: Settings, cash: real, feeRate: real, slippageRate: real, failWithUnknown: bool,
                            steps: seq<SessionStep>)
    returns (log: EventLog, broker: SimulatedBroker, ghost replies: seq<Result<ExecutionReport, Error>>)
    requires 0.0 <= slippageRate < 1.0 && 0.0 <= feeRate
    ensures Legal(settings, log.events) && Hydrate(log.events).Ok?
    ensures InStep(settings, Hydrate(log.events).value, BooksOf(broker), cash - settings.startingCash)
    ensures Err(ShortPosition) !in replies
  {
    hide InStep;
    log := new EventLog();
    broker := new SimulatedBroker(cash, settings.currency, feeRate, slippageRate, failWithUnknown);
    StartsInStep(settings, cash);
    assert Hydrate(log.events) == Ok(EMPTY) && BooksOf(broker) == Books(cash, map[], {}, {});
    replies := Session(settings, log, broker, steps, cash - settings.startingCash);
  }
}
