/**
  The execution kernel (execution/kernel.py): eight dictionaries kept in step with the shared ledger.
  A broker's answer is a parameter, so every method is proved for every answer; a raised exception is
  an outcome that keeps the events already written.
 */
module Kernel {
  import opened Wrappers
  import opened Folds
  import opened Domain
  import opened RiskEngine
  import opened ExecutionLedger
  import opened LedgerTheorems
  import opened Control
  import opened OrderLifeCycle
  import opened KernelSteps
  import opened KernelAnswers
  import Reconciler
  import MapSum

  class ExecutionKernel {
    const settings: Settings
    const log: EventLog
    const control: LedgerBackedControlState

    var knownIdempotencyKeys: set<Key>
    var reports: seq<ExecutionReport>
    var reportIds: set<string>
    var stateByOrder: map<string, OrderStatus>
    var intentsByKey: map<Key, OrderIntent>
    var intentIdByKey: map<Key, string>
    var estimatedCostByKey: map<Key, real>
    var brokerOrderKey: map<OrderId, Key>

    ghost function View(): Maps
      reads this
    {
      Maps(knownIdempotencyKeys, reports, reportIds, Left(stateByOrder), intentsByKey, intentIdByKey,
           estimatedCostByKey, brokerOrderKey)
    }

    /** Crash recovery: the live dictionaries are those a new kernel would rebuild from the ledger. */
    ghost predicate Valid()
      reads this, log, control
    {
      && control.log == log && control.Valid()
      && Legal(settings, log.events)
      && Hydrate(log.events) == Ok(View())
    }

    /** Starting, or restarting, on a legal ledger succeeds and changes nothing in it. */
    constructor (settings: Settings, log: EventLog, control: LedgerBackedControlState)
      requires Legal(settings, log.events) && control.log == log && control.Valid()
      ensures Valid() && this.settings == settings && this.log == log && this.control == control
    {
      this.settings, this.log, this.control := settings, log, control;
      knownIdempotencyKeys, reports, reportIds := {}, [], {};
      stateByOrder, intentsByKey, intentIdByKey := map[], map[], map[];
      estimatedCostByKey, brokerOrderKey := map[], map[];
      new;
      var ok := HydrateFromLedger();
      LegalHydrates(settings, log.events);
    }

    method HydrateFromLedger() returns (ok: bool)
      requires View() == EMPTY
      modifies this
      ensures ok <==> Hydrate(log.events).Ok?
      ensures ok ==> View() == Hydrate(log.events).value
    {
      for i := 0 to |log.events|
        invariant Hydrate(log.events[..i]) == Ok(View())
        invariant log.events == old(log.events)
      {
        assert log.events[..i + 1][..i] == log.events[..i];
        ok := HydrateEvent(log.events[i]);
        if !ok {
          HydrationFailurePersists(log.events, i + 1);
          return false;
        }
      }
      assert log.events[..|log.events|] == log.events;
      return true;
    }

    method HydrateEvent(e: Event) returns (ok: bool)
      modifies this
      ensures ok <==> Apply(old(View()), e).Ok?
      ensures ok ==> View() == Apply(old(View()), e).value
    {
      ok := true;
      match e {
        case ProposalCreated(p) =>
          estimatedCostByKey := estimatedCostByKey[p.key := p.EstimatedCost()];
        case RiskDecided(d, key) =>
          if d.approved && key.Some? {
            knownIdempotencyKeys := knownIdempotencyKeys + {key.value};
          }
        case IntentCreated(i) =>
          intentsByKey := intentsByKey[i.key := i];
          intentIdByKey := intentIdByKey[i.key := i.intentId];
        case BrokerReport(r) =>
          knownIdempotencyKeys := knownIdempotencyKeys + {r.key};
          if r.reportId !in reportIds {
            reports := reports + [r];
            reportIds := reportIds + {r.reportId};
          }
          assert reportIds == old(reportIds) + {r.reportId};
          if r.key in intentsByKey {
            brokerOrderKey := brokerOrderKey[r.brokerOrderId := r.key];
          }
        case StateTransition(o, _, to) =>
          ok := MoveMachine(o, to);
        case _ =>
      }
    }

    /** setdefault, the equality test and OrderStateMachine.transition. */
    method MoveMachine(o: string, to: OrderStatus) returns (ok: bool)
      modifies this`stateByOrder
      ensures ok <==> CanMove(old(View()), o, to)
      ensures View() == AfterMove(old(View()), o, to)
    {
      var from := Status(o);
      LeftUpdated(stateByOrder, o, CREATED);
      LeftUpdated(stateByOrder, o, to);
      if o !in stateByOrder {
        stateByOrder := stateByOrder[o := CREATED];
      }
      if from == to {
        return true;
      }
      var machine := new OrderStateMachine(from);
      ok := machine.Transition(to);
      if ok {
        stateByOrder := stateByOrder[o := machine.status];
      }
    }

    // ----- Reading the books

    method AuthorizedPortfolio() returns (res: Result<PortfolioState, Error>)
      ensures res == Authorized(settings, reports)
    {
      var marks: map<Symbol, real> := map[];
      for i := 0 to |reports|
        invariant marks == PositiveMarks(reports[..i])
      {
        assert reports[..i + 1][..i] == reports[..i];
        if reports[i].fillPrice > 0.0 {
          marks := marks[reports[i].symbol := reports[i].fillPrice];
        }
      }
      assert reports[..|reports|] == reports;
      if marks == map[] {
        marks := map["TEST" := 1.0];
      }
      res := Reconciler.ReplayEvents(settings.startingCash, reports, marks, settings.currency);
    }

    method FilledQuantity(key: Key) returns (filled: real)
      ensures filled == Filled(reports, key)
    {
      var largest: Option<real> := None;
      for i := 0 to |reports|
        invariant largest == LargestFill(reports[..i], key)
      {
        assert reports[..i + 1][..i] == reports[..i];
        var r := reports[i];
        if r.key == key && r.IsFill() && (largest.None? || largest.value < r.fillQuantity) {
          largest := Some(r.fillQuantity);
        }
      }
      assert reports[..|reports|] == reports;
      filled := if largest.Some? then largest.value else 0.0;
    }

    /** One iteration of the loop below. */
    method ReservationOf(key: Key) returns (res: Result<real, Error>)
      requires key in intentsByKey && key in intentIdByKey && intentIdByKey[key] == intentsByKey[key].intentId
      ensures res == if !OpenBuy(View(), key) then Ok(0.0)
                     else if Filled(reports, key) > intentsByKey[key].quantity then Err(FillExceedsOrder)
                     else Ok(Reservation(View(), key))
    {
      var intent := intentsByKey[key];
      if intent.side != BuySide || IsTerminal(Status(intentIdByKey[key])) {
        return Ok(0.0);
      }
      var filled := FilledQuantity(key);
      if filled > intent.quantity {
        return Err(FillExceedsOrder);
      }
      var remaining := intent.quantity - filled;
      if remaining <= 0.0 {
        return Ok(0.0);
      }
      var amount := remaining * intent.referencePrice + MapSum.Get(estimatedCostByKey, key);
      assert amount == Reservation(View(), key) by {
        ghost var s := View();
        assert s.intents[key] == intent && Filled(s.reports, key) == filled && s.estimates == estimatedCostByKey;
      }
      return Ok(amount);
    }

    /** The loop over the intents; an open purchase filled beyond its quantity is an error. */
    method ReservedCash() returns (res: Result<real, Error>)
      requires IntentsFit(View())
      ensures res == Reserved(View())
    {
      hide MapSum.Sum, Reservation, LargestFill;
      var reserved := 0.0;
      var todo := intentsByKey.Keys;
      ghost var all := Reservations(View());
      ghost var rest := all;
      while todo != {}
        invariant todo <= intentsByKey.Keys
        invariant rest.Keys == all.Keys * todo
        invariant forall k :: k in rest ==> rest[k] == all[k]
        invariant reserved + MapSum.Sum(rest) == MapSum.Sum(all)
        invariant forall k :: k in all && k !in todo ==> Filled(reports, k) <= intentsByKey[k].quantity
        decreases todo
      {
        var key :| key in todo;
        todo := todo - {key};
        var amount := ReservationOf(key);
        if amount.Err? {
          assert Overfilled(View());
          return Err(FillExceedsOrder);
        }
        MapSum.Removed(rest, key);
        assert OpenBuy(View(), key) <==> key in all;
        assert MapSum.Get(rest, key) == amount.value;
        rest := rest - {key};
        reserved := reserved + amount.value;
      }
      assert rest == map[];
      MapSum.Empty<Key>();
      return Ok(reserved);
    }

    function Status(o: string): OrderStatus
      reads this
      ensures Status(o) == View().Status(o)
    {
      if o in stateByOrder then stateByOrder[o] else CREATED
    }

    /** Whether an identifier already belongs to an order; a new one (uuid4) does not. */
    predicate KnowsOrder(o: string)
      reads this
      ensures !KnowsOrder(o) ==> o !in View().machines && !IsIntentId(View(), o)
    {
      o in stateByOrder || exists k :: k in intentsByKey && intentsByKey[k].intentId == o
    }

    // ----- Writing, one step of the source at a time

    /** An event that changes no dictionary. */
    method AppendEvent(e: Event)
      requires Valid() && LegalNext(settings, log.events, View(), e) && Apply(View(), e) == Ok(View())
      requires !e.ControlModeChanged?
      modifies log
      ensures Valid() && log.events == old(log.events) + [e]
    {
      Extend(settings, log.events, e);
      log.Append(e);
    }

    method RecordProposal(p: TradeProposal)
      requires Valid() && p.Valid()
      modifies log, this`estimatedCostByKey
      ensures Valid() && log.events == old(log.events) + [ProposalCreated(p)]
      ensures View() == old(View()).(estimates := old(View()).estimates[p.key := p.EstimatedCost()])
    {
      Extend(settings, log.events, ProposalCreated(p));
      log.Append(ProposalCreated(p));
      estimatedCostByKey := estimatedCostByKey[p.key := p.EstimatedCost()];
    }

    method RecordDecision(d: RiskDecision, key: Key)
      requires Valid() && LegalNext(settings, log.events, View(), RiskDecided(d, Some(key)))
      modifies log, this`knownIdempotencyKeys
      ensures Valid() && log.events == old(log.events) + [RiskDecided(d, Some(key))]
      ensures View() == if d.approved then old(View()).(known := old(View()).known + {key}) else old(View())
    {
      Extend(settings, log.events, RiskDecided(d, Some(key)));
      log.Append(RiskDecided(d, Some(key)));
      if d.approved {
        knownIdempotencyKeys := knownIdempotencyKeys + {key};
      }
    }

    method OpenOrder(intent: OrderIntent)
      requires Valid() && LegalNext(settings, log.events, View(), IntentCreated(intent))
      modifies log, this`intentsByKey, this`intentIdByKey
      ensures Valid() && log.events == old(log.events) + [IntentCreated(intent)]
      ensures View() == Opened(old(View()), intent)
    {
      Extend(settings, log.events, IntentCreated(intent));
      intentsByKey := intentsByKey[intent.key := intent];
      intentIdByKey := intentIdByKey[intent.key := intent.intentId];
      log.Append(IntentCreated(intent));
    }

    /** _transition_order: silent when nothing changes, false when the table forbids the step. */
    method TransitionOrder(o: string, to: OrderStatus) returns (ok: bool)
      requires Valid()
      requires CanMove(View(), o, to) && View().Status(o) != to ==>
                 LegalTransition(log.events, View(), o, View().Status(o), to)
      modifies log, this`stateByOrder
      ensures Valid()
      ensures ok <==> CanMove(old(View()), o, to)
      ensures View() == AfterMove(old(View()), o, to)
      ensures log.events == old(log.events) + MoveEvents(old(View()), o, to)
    {
      var from := Status(o);
      ok := MoveMachine(o, to);
      if ok && from != to {
        Extend(settings, log.events, StateTransition(o, from, to));
        log.Append(StateTransition(o, from, to));
      }
    }

    /** _record_report: a report already recorded changes nothing. */
    method RecordReport(r: ExecutionReport)
      requires Valid()
      requires r.reportId !in reportIds ==> LegalNext(settings, log.events, View(), BrokerReport(r))
      modifies log, this`reports, this`reportIds, this`knownIdempotencyKeys, this`brokerOrderKey
      ensures Valid()
      ensures View() == AfterReport(old(View()), r)
      ensures log.events == old(log.events) + ReportEvents(old(View()), r)
    {
      if r.reportId in reportIds {
        return;
      }
      Extend(settings, log.events, BrokerReport(r));
      log.Append(BrokerReport(r));
      reports := reports + [r];
      reportIds := reportIds + {r.reportId};
      knownIdempotencyKeys := knownIdempotencyKeys + {r.key};
      if r.key in intentsByKey {
        brokerOrderKey := brokerOrderKey[r.brokerOrderId := r.key];
      }
    }

    method EnterSafeMode()
      requires Valid()
      modifies log, control`mode
      ensures Valid() && View() == old(View())
      ensures log.events == old(log.events) + ModeEvents(old(control.mode), SAFE)
      ensures control.mode == if old(control.mode) == DEAD then DEAD else SAFE
    {
      if control.mode != DEAD {
        ghost var e := ControlModeChanged(control.mode, SAFE);
        if control.mode != SAFE {
          Extend(settings, log.events, e);
        }
        var _ := control.TransitionMode(SAFE);
        assert log.events == old(log.events) || log.events == old(log.events) + [e];
      }
    }

    /** _append_reconciliation: the replayed portfolio, then the snapshot of what is reserved and available. */
    method AppendReconciliation() returns (res: Result<PortfolioState, Error>)
      requires Valid()
      modifies log
      ensures Valid()
      ensures log.events == old(log.events) + ReconciliationEvents(settings, View())
      ensures res == Reconciliation(settings, View())
      ensures res.Ok? ==> EndsReconciled(settings, log.events, View(), res.value)
      ensures res.Err? ==> Authorized(settings, reports) == Err(res.error) || Reserved(View()) == Err(res.error)
    {
      hide Hydrate, Legal;
      LegalStructured(settings, log.events);
      var authorized := AuthorizedPortfolio();
      if authorized.Err? {
        return Err(authorized.error);
      }
      var portfolio := authorized.value;
      AppendEvent(ReconciliationResult(portfolio));
      var reserved := ReservedCash();
      if reserved.Err? {
        return Err(reserved.error);
      }
      AppendEvent(NavSnapshot(portfolio.nav, portfolio.cash, reserved.value,
                              Spendable(portfolio.cash, reserved.value)));
      return Ok(portfolio);
    }

    // ----- Proposals

    /** Everything up to the point where the broker is called. */
    method Propose(p: TradeProposal, env: Env) returns (stage: Stage, ghost judged: Result<Verdict, Error>)
      requires Valid() && p.Valid() && env.killSwitch == control.killSwitch
      requires env.intentId !in View().machines && !IsIntentId(View(), env.intentId)
      modifies this, log
      ensures Valid()
      ensures judged == Decide(settings, WithEstimate(old(View()), p), control.mode, p, env)
      ensures log.events == old(log.events) + [ProposalCreated(p)] + JudgedEvents(p, judged)
      ensures stage == JudgedStage(p, judged)
      ensures View() == Judged(WithEstimate(old(View()), p), p, judged)
      ensures HandedOver(settings, View(), log.events, p, stage)
      ensures stage.ToSubmit? ==>
                MayReachBroker(settings, WithEstimate(old(View()), p), control.mode, p, env, stage.intent)
      ensures judged.Err? ==>
                stage == Finished(Raised(judged.error)) && Considered(old(View()), View(), p, false)
                && log.events == old(log.events) + [ProposalCreated(p)]
      ensures judged.Ok? ==>
                && HandsOver(p, judged.value, stage) && Tells(old(log.events), log.events, p, judged.value)
                && (if judged.value.decision.approved && Trades(p)
                    then Submitted(old(View()), View(), p, judged.value.intent.value)
                    else Considered(old(View()), View(), p, judged.value.decision.approved))
    {
      hide Hydrate, Legal, Authorized, Reserved, Derive, MayReachBroker, Decide;
      ghost var s, before := View(), log.events;
      RecordProposal(p);
      var answer := Judge(p, env);
      judged := answer;
      if answer.Err? {
        return Finished(Raised(answer.error)), judged;
      }
      stage := Settle(p, env, answer.value);
      JudgedIs(s, p, answer.value);
      VerdictTells(before, p, answer.value);
    }

    /** From the verdict to the hand-over. */
    method Settle(p: TradeProposal, env: Env, v: Verdict) returns (stage: Stage)
      requires Valid() && Decide(settings, View(), control.mode, p, env) == Ok(v)
      requires |log.events| > 0 && log.events[|log.events| - 1] == ProposalCreated(p)
      requires v.decision.approved && p.action != HOLD && p.action != CANCEL ==>
                 && v.intent.Some? && v.intent.value.key == p.key && v.intent.value.intentId == env.intentId
                 && Derive(settings, View(), p, env.intentId) == Ok(v.intent)
      requires env.intentId !in View().machines && !IsIntentId(View(), env.intentId)
      modifies this, log
      ensures Valid()
      ensures log.events == old(log.events) + VerdictEvents(p, v)
      ensures stage == VerdictStage(p, v)
      ensures View() == Settled(old(View()), p, v)
      ensures HandedOver(settings, View(), log.events, p, stage)
    {
      hide Derive, Hydrate, Legal, Reserved, Authorized;
      ghost var s := View();
      assert Decidable(settings, s, control.mode, p, v.decision);
      RecordDecision(v.decision, p.key);
      if !v.decision.approved || p.action == HOLD {
        return Finished(Answered(v.decision, None));
      }
      if p.action == CANCEL {
        return ToCancel(v.decision);
      }
      // An approved order always has an intent: the source's second refusal is never reached.
      var intent := v.intent.value;
      DeriveReadsReports(settings, s, View(), p, env.intentId);
      assert v.decision == RiskDecision(true, APPROVED);
      OpenAndAdvance(intent);
      assert View().intents[intent.key].intentId == intent.intentId;
      return ToSubmit(v.decision, intent);
    }

    /** Deriving the intent, reading the books and asking the risk engine. */
    method Judge(p: TradeProposal, env: Env) returns (res: Result<Verdict, Error>)
      requires Valid() && env.killSwitch == control.killSwitch
      ensures res == Decide(settings, View(), control.mode, p, env)
      ensures res.Ok? && res.value.decision.approved && p.action != HOLD && p.action != CANCEL ==>
                && res.value.intent.Some? && res.value.intent.value.key == p.key
                && res.value.intent.value.intentId == env.intentId
                && Derive(settings, View(), p, env.intentId) == Ok(res.value.intent)
                && MayReachBroker(settings, View(), control.mode, p, env, res.value.intent.value)
    {
      var authorized := AuthorizedPortfolio();
      if authorized.Err? {
        return Err(authorized.error);
      }
      var portfolio := authorized.value;
      var derived := OrderFor(p, QuantityOf(portfolio.positions, p.symbol), env.intentId);
      if derived.Err? {
        return Err(derived.error);
      }
      LegalStructured(settings, log.events);
      var reserved := ReservedCash();
      if reserved.Err? {
        return Err(reserved.error);
      }
      var decision := Evaluate(settings, p, derived.value, Spendable(portfolio.cash, reserved.value),
                               QuantityOf(portfolio.positions, p.symbol), control.mode, control.killSwitch,
                               knownIdempotencyKeys, env.now);
      res := Ok(Verdict(decision, derived.value));
      if decision.approved && p.action != HOLD && p.action != CANCEL {
        ApprovedMayReach(settings, View(), control.mode, p, env, res.value);
      }
    }

    /** The order is opened and walked to the submission attempt; none of these transitions can fail. */
    method OpenAndAdvance(intent: OrderIntent)
      requires Valid() && LegalNext(settings, log.events, View(), IntentCreated(intent))
      modifies log, this`intentsByKey, this`intentIdByKey, this`stateByOrder
      ensures Valid()
      ensures log.events == old(log.events) + OpeningEvents(intent)
      ensures View() == Submitting(old(View()), intent)
    {
      hide Hydrate, Legal, Derive;
      var o := intent.intentId;
      OpenOrder(intent);
      assert View().intents[intent.key].intentId == o;
      AppendEvent(StateTransition(o, CREATED, CREATED));
      assert IsIntentId(View(), o);
      Advance(o);
    }

    method Advance(o: string)
      requires Valid() && View().Status(o) == CREATED && IsIntentId(View(), o)
      requires |log.events| > 0 && log.events[|log.events| - 1] == StateTransition(o, CREATED, CREATED)
      modifies log, this`stateByOrder
      ensures Valid()
      ensures log.events
              == old(log.events) + [StateTransition(o, CREATED, VALIDATED), StateTransition(o, VALIDATED, SUBMITTING),
                                               SubmissionAttempt(o)]
      ensures View() == old(View()).(machines := old(View()).machines[o := SUBMITTING])
    {
      hide Hydrate, Legal, Authorized, Derive;
      ghost var s := View();
      var validated := TransitionOrder(o, VALIDATED);
      IntentIdsKept(s, View(), o);
      BeginSubmission(o);
      assert s.machines[o := VALIDATED][o := SUBMITTING] == s.machines[o := SUBMITTING];
    }

    method BeginSubmission(o: string)
      requires Valid() && View().Status(o) == VALIDATED && IsIntentId(View(), o)
      requires |log.events| > 0 && log.events[|log.events| - 1] == StateTransition(o, CREATED, VALIDATED)
      modifies log, this`stateByOrder
      ensures Valid()
      ensures log.events == old(log.events) + [StateTransition(o, VALIDATED, SUBMITTING), SubmissionAttempt(o)]
      ensures View() == old(View()).(machines := old(View()).machines[o := SUBMITTING])
    {
      var submitting := TransitionOrder(o, SUBMITTING);
      AppendEvent(SubmissionAttempt(o));
    }

    // ----- The broker has answered

    /** After broker.submit: record, transition, reconcile. A failed submission leaves the order submitting. */
    method CompleteSubmission(decision: RiskDecision, intent: OrderIntent, reply: Result<ExecutionReport, Error>)
      returns (outcome: Outcome)
      requires Valid() && IsIntentId(View(), intent.intentId) && View().Status(intent.intentId) == SUBMITTING
      requires |log.events| > 0 && log.events[|log.events| - 1] == SubmissionAttempt(intent.intentId)
      modifies this, log
      ensures Valid()
      ensures log.events == old(log.events) + SubmissionEvents(settings, old(View()), intent.intentId, reply)
      ensures View() == AfterSubmission(old(View()), intent.intentId, reply)
      ensures outcome == SubmissionOutcome(settings, old(View()), intent.intentId, decision, reply)
      ensures control.mode == old(control.mode)
      ensures reply.Err? ==> outcome == Raised(BrokerRaised) && View() == old(View()) && log.events == old(log.events)
      ensures reply.Ok? ==> Answers(old(View()), View(), intent.intentId, reply.value)
      ensures reply.Ok? ==> AnsweredWith(settings, log.events, View(), decision, reply.value, outcome)
      ensures reply.Ok? && reply.value.status == UNKNOWN ==>
                Tracks(log.events, |old(log.events)|)
    {
      hide Hydrate, Legal, Authorized, Reserved, EndsReconciled, Recounts, Normalise, AfterMove, AfterReport,
        ReconciliationEvents, Over, Tracks;
      if reply.Err? {
        return Raised(BrokerRaised);
      }
      SubmissionAnswers(View(), intent.intentId, reply.value);
      // Every normalised broker status is reachable from SUBMITTING, so this transition never fails.
      ghost var before, s := log.events, View();
      var ok := RecordAndMove(intent.intentId, reply.value);
      ghost var report, move := ReportEvents(s, reply.value),
        MoveEvents(s, intent.intentId, Normalise(reply.value.status));
      Regroup(before, report, move,
              if reply.value.status == UNKNOWN then [] else ReconciliationEvents(settings, View()));
      if reply.value.status == UNKNOWN {
        AllOver(settings, log.events, View());
        return Answered(decision, Some(reply.value));
      }
      var reconciled := AppendReconciliation();
      AllOver(settings, log.events, View());
      outcome := if reconciled.Err? then Raised(reconciled.error) else Answered(decision, Some(reply.value));
    }

    /** A report is recorded before its transition is checked. */
    method RecordAndMove(o: string, r: ExecutionReport) returns (ok: bool)
      requires Valid() && IsIntentId(View(), o)
      requires r.reportId !in reportIds ==> MayRecord(settings, log.events, View(), r)
      modifies log, this`reports, this`reportIds, this`knownIdempotencyKeys, this`brokerOrderKey, this`stateByOrder
      ensures Valid()
      ensures ok <==> CanMove(old(View()), o, Normalise(r.status))
      ensures View() == AfterMove(AfterReport(old(View()), r), o, Normalise(r.status))
      ensures log.events
              == old(log.events) + ReportEvents(old(View()), r) + MoveEvents(old(View()), o, Normalise(r.status))
      ensures Tracks(log.events, |old(log.events)|)
    {
      hide Hydrate, Legal, Authorized, Derive, Reserved, Allowed;
      ghost var s := View();
      RecordReport(r);
      IntentIdsKept(s, View(), o);
      ok := MoveRecorded(o, Normalise(r.status));
    }

    /** A transition to a broker status. */
    method MoveRecorded(o: string, to: OrderStatus) returns (ok: bool)
      requires Valid() && IsIntentId(View(), o) && to == Normalise(to)
      modifies log, this`stateByOrder
      ensures Valid()
      ensures ok <==> CanMove(old(View()), o, to)
      ensures View() == AfterMove(old(View()), o, to)
      ensures log.events == old(log.events) + MoveEvents(old(View()), o, to)
    {
      ok := TransitionOrder(o, to);
    }

    /** After the cancellation request has been approved: ask the broker, transition the order, report, reconcile. */
    method HandleCancel(p: TradeProposal, decision: RiskDecision, reply: Result<BrokerOrder, Error>)
      returns (outcome: Outcome)
      requires Valid() && p.cancelOrderId.Some? && p.key in View().known && p.currency == settings.currency
      requires |log.events| > 0 && log.events[|log.events| - 1].RiskDecided?
               && log.events[|log.events| - 1].decision.approved
      modifies this, log, control
      ensures Valid()
      ensures log.events == old(log.events) + CancelEvents(settings, old(View()), old(control.mode), p, reply)
      ensures View() == AfterCancel(old(View()), p, reply)
      ensures outcome == CancelOutcome(settings, old(View()), p, decision, reply)
      ensures reply.Err? ==>
                outcome == Raised(BrokerRaised) && View() == old(View()) && control.mode == old(control.mode)
      ensures reply.Ok? ==>
                CancelAnswered(settings, log.events, old(View()), View(), old(control.mode), control.mode, p, decision,
                               reply.value, outcome)
    {
      hide Hydrate, Legal, Authorized, CancelledEvents, AfterCancellation, Reconciliation, CancelAnswered;
      ghost var before, s := log.events, View();
      AppendEvent(CancellationRequested(p.proposalId, p.cancelOrderId.value));
      if reply.Err? {
        return Raised(BrokerRaised);
      }
      outcome := FinishCancel(p, decision, reply.value);
      Regroup(before, [CancellationRequested(p.proposalId, p.cancelOrderId.value)], [],
              CancelledEvents(settings, s, old(control.mode), p, reply.value));
    }

    method FinishCancel(p: TradeProposal, decision: RiskDecision, order: BrokerOrder) returns (outcome: Outcome)
      requires Valid() && p.key in View().known && p.currency == settings.currency
      requires |log.events| > 0 && log.events[|log.events| - 1].CancellationRequested?
      modifies this, log, control
      ensures Valid()
      ensures log.events == old(log.events) + CancelledEvents(settings, old(View()), old(control.mode), p, order)
      ensures View() == AfterCancel(old(View()), p, Ok(order))
      ensures outcome == CancelOutcome(settings, old(View()), p, decision, Ok(order))
      ensures CancelAnswered(settings, log.events, old(View()), View(), old(control.mode), control.mode, p, decision,
                             order, outcome)
    {
      hide Hydrate, Legal, Authorized, Reserved, EndsReconciled, Recounts, AfterCancellation, AfterReport, Over,
        ReconciliationEvents, Structured, CancellationFits, Contested, CancelReport, SameIdentity;
      ghost var before, s := log.events, View();
      LegalStructured(settings, log.events);
      ContestedIs(s, order);
      CancelTells(p, order);
      AppendEvent(BrokerCancelled(order));
      var ok := ApplyCancellation(order);
      ghost var applied := CancellationEvents(s, old(control.mode), order);
      if !ok {
        Regroup(before, [BrokerCancelled(order)], applied, []);
        return Raised(InvalidTransition);
      }
      var reconciled := ReportAndReconcile(CancelReport(p, order));
      Regroup(before, [BrokerCancelled(order)], applied,
              ReportEvents(AfterCancellation(s, order), CancelReport(p, order))
                + ReconciliationEvents(settings, View()));
      outcome := if reconciled.Err? then Raised(reconciled.error) else Answered(decision, Some(CancelReport(p, order)));
      if reconciled.Ok? {
        CancelIsAnswered(settings, log.events, s, View(), old(control.mode), control.mode, p, decision, order,
                         reconciled.value);
      } else {
        CancelIsNotReconciled(settings, log.events, s, View(), old(control.mode), control.mode, p, decision, order,
                              reconciled.error);
      }
    }

    /** The transition of the cancelled order, or safe mode when the broker did not cancel. */
    method ApplyCancellation(order: BrokerOrder) returns (ok: bool)
      requires Valid()
      modifies this`stateByOrder, log, control
      ensures Valid()
      ensures ok <==> CancellationFits(old(View()), order)
      ensures log.events == old(log.events) + CancellationEvents(old(View()), old(control.mode), order)
      ensures View() == AfterCancellation(old(View()), order)
      ensures !ok ==> View() == old(View())
      ensures control.mode == if old(control.mode) == DEAD then DEAD
                              else if order.status == CANCELLED && ok then old(control.mode) else SAFE
    {
      hide Hydrate, Legal, Authorized, Derive, Reserved, LegalTransition, MayRecord, MayDecide, MayOpen;
      if order.status != CANCELLED {
        EnterSafeMode();
        return true;
      }
      if order.brokerOrderId !in brokerOrderKey || brokerOrderKey[order.brokerOrderId] !in intentIdByKey {
        return true;
      }
      var key := brokerOrderKey[order.brokerOrderId];
      LegalStructured(settings, log.events);
      assert View().intents[key].intentId == intentIdByKey[key];
      ok := MoveRecorded(intentIdByKey[key], CANCELLED);
      if !ok {
        EnterSafeMode();
      }
    }

    method ReportAndReconcile(r: ExecutionReport) returns (res: Result<PortfolioState, Error>)
      requires Valid() && (r.reportId !in reportIds ==> MayRecord(settings, log.events, View(), r))
      modifies log, this`reports, this`reportIds, this`knownIdempotencyKeys, this`brokerOrderKey
      ensures Valid()
      ensures View() == AfterReport(old(View()), r)
      ensures log.events == old(log.events) + (ReportEvents(old(View()), r) + ReconciliationEvents(settings, View()))
      ensures res == Reconciliation(settings, View())
      ensures Recounts(old(View()), View(), r) && View().machines == old(View()).machines
      ensures res.Ok? ==> EndsReconciled(settings, log.events, View(), res.value)
      ensures res.Err? ==> Authorized(settings, reports) == Err(res.error) || Reserved(View()) == Err(res.error)
    {
      hide Hydrate, Legal, Authorized, Derive, Reserved, ReconciliationEvents, Reconciliation, MayRecord, Recounts,
        EndsReconciled;
      ReportRecounts(View(), r);
      RecordReport(r);
      res := AppendReconciliation();
    }

    /** handle_proposal, for every answer the broker may give. */
    method HandleProposal(p: TradeProposal, env: Env, submitted: Result<ExecutionReport, Error>,
                          cancelled: Result<BrokerOrder, Error>)
      returns (outcome: Outcome, ghost judged: Result<Verdict, Error>)
      requires Valid() && p.Valid() && env.killSwitch == control.killSwitch
      requires env.intentId !in View().machines && !IsIntentId(View(), env.intentId)
      modifies this, log, control
      ensures Valid()
      ensures judged == Decide(settings, WithEstimate(old(View()), p), old(control.mode), p, env)
      ensures var s := Judged(WithEstimate(old(View()), p), p, judged);
              && log.events == old(log.events) + [ProposalCreated(p)] + JudgedEvents(p, judged)
                               + TailEvents(settings, s, old(control.mode), p, JudgedStage(p, judged), submitted,
                                            cancelled)
              && outcome == TailOutcome(settings, s, p, JudgedStage(p, judged), submitted, cancelled)
      ensures judged.Err? ==>
                outcome == Raised(judged.error) && Considered(old(View()), View(), p, false)
                && log.events == old(log.events) + [ProposalCreated(p)] && control.mode == old(control.mode)
      ensures judged.Ok? ==>
                && (exists n: nat :: n <= |log.events| && Tells(old(log.events), log.events[..n], p, judged.value))
                && Handled(settings, log.events, old(View()), View(), old(control.mode), control.mode, p, env,
                           judged.value, submitted, cancelled, outcome)
    {
      hide Hydrate, Legal, Authorized, Reserved, MayReachBroker, Decide, Tells, Submitted, Considered, Answers,
        AnsweredWith, CancelAnswered, SubmissionEvents, CancelEvents, IsIntentId, SubmissionOutcome, CancelOutcome;
      var stage;
      stage, judged := Propose(p, env);
      ghost var written := log.events;
      match stage {
        case Finished(o) => outcome := o;
        case ToSubmit(decision, intent) =>
          outcome := CompleteSubmission(decision, intent, submitted);
        case ToCancel(decision) =>
          outcome := HandleCancel(p, decision, cancelled);
      }
      assert log.events[..|written|] == written;
    }

    // ----- Reports that arrive later

    /** reconcile_execution_report, with its four refusals. */
    method Reconcile(r: ExecutionReport) returns (res: Result<PortfolioState, Error>)
      requires Valid()
      modifies this, log, control
      ensures Valid()
      ensures log.events == old(log.events) + ReconcileEvents(settings, old(View()), old(control.mode), r)
      ensures View() == if Refusal(settings, old(View()), r).Some? then old(View()) else AfterReconcile(old(View()), r)
      ensures res == ReconcileOutcome(settings, old(View()), r)
      ensures r.key !in old(View()).known ==> res == Err(UnknownLogicalOrder)
      ensures r.key in old(View()).known && r.currency != settings.currency ==> res == Err(CurrencyMismatch)
      ensures Refuses(settings, old(View()), r) ==>
                res.Err? && View() == old(View())
                && (r.key in View().known && r.currency == settings.currency ==> res == Err(BrokerIdentityChanged))
      ensures !Refuses(settings, old(View()), r) ==> Takes(old(View()), View(), r)
      ensures !Refuses(settings, old(View()), r) && Disagrees(old(View()), r) ==> res == Err(InvalidTransition)
      ensures !Refuses(settings, old(View()), r) && !Disagrees(old(View()), r) ==>
                control.mode == old(control.mode) && Settles(settings, log.events, View(), r, res)
      ensures Refuses(settings, old(View()), r) || Disagrees(old(View()), r) ==>
                control.mode == if old(control.mode) == DEAD then DEAD else SAFE
    {
      hide Hydrate, Legal, Authorized, Reserved, Recounts, Follows, Fits, Over, ReconciliationEvents, Structured,
        EndsReconciled;
      LegalStructured(settings, log.events);
      StructuredIds(View());
      if r.key !in knownIdempotencyKeys {
        EnterSafeMode();
        return Err(UnknownLogicalOrder);
      }
      if r.currency != settings.currency {
        EnterSafeMode();
        return Err(CurrencyMismatch);
      }
      if r.brokerOrderId in brokerOrderKey && brokerOrderKey[r.brokerOrderId] != r.key {
        EnterSafeMode();
        return Err(BrokerIdentityChanged);
      }
      if r.key in intentIdByKey {
        res := ReconcileOrder(r);
      } else {
        res := ReportAndReconcile(r);
      }
    }

    /** The report concerns an order this kernel opened. */
    method ReconcileOrder(r: ExecutionReport) returns (res: Result<PortfolioState, Error>)
      requires Valid() && r.key in intentIdByKey
      requires r.reportId !in reportIds ==> MayRecord(settings, log.events, View(), r)
      modifies this, log, control
      ensures Valid()
      ensures log.events == old(log.events) + OrderReconcileEvents(settings, old(View()), old(control.mode), r)
      ensures View() == AfterReconcile(old(View()), r)
      ensures res == if ReconcileFits(old(View()), r) then Reconciliation(settings, View()) else Err(InvalidTransition)
      ensures Takes(old(View()), View(), r)
      ensures Disagrees(old(View()), r) ==>
                res == Err(InvalidTransition) && control.mode == if old(control.mode) == DEAD then DEAD else SAFE
      ensures !Disagrees(old(View()), r) ==>
                control.mode == old(control.mode) && Settles(settings, log.events, View(), r, res)
    {
      hide Hydrate, Legal, Authorized, Derive, Reserved, ReconciliationEvents, Reconciliation, MayRecord, Takes,
        Disagrees, Over, EndsReconciled, AfterMove, AfterReport;
      LegalStructured(settings, log.events);
      StructuredIds(View());
      ReconcileTakes(View(), r);
      assert View().intents[r.key].intentId == intentIdByKey[r.key];
      ghost var before, s := log.events, View();
      var ok := RecordAndMove(intentIdByKey[r.key], r);
      if !ok {
        EnterSafeMode();
        return Err(InvalidTransition);
      }
      res := AppendReconciliation();
      Regroup(before, ReportEvents(s, r), MoveEvents(s, s.intentIds[r.key], Normalise(r.status)),
              ReconciliationEvents(settings, View()));
      ReportEnds(settings, log.events, s, View(), r);
    }
  }

  /** A new process on the same ledger: the mode is restored, the dictionaries are rebuilt, nothing is written. */
  method Restart(settings: Settings, log: EventLog, killSwitch: bool) returns (kernel: ExecutionKernel)
    requires Legal(settings, log.events)
    ensures fresh(kernel) && fresh(kernel.control) && kernel.Valid()
    ensures kernel.settings == settings && kernel.log == log && kernel.control.killSwitch == killSwitch
    ensures Hydrate(log.events) == Ok(kernel.View()) && kernel.control.mode == RestoredMode(log.events)
  {
    var control := new LedgerBackedControlState.Restore(log, killSwitch);
    kernel := new ExecutionKernel(settings, log, control);
  }

  lemma HydrationFailurePersists(events: seq<Event>, i: nat)
    requires i <= |events| && Hydrate(events[..i]).Err?
    ensures Hydrate(events) == Hydrate(events[..i])
  {
    PrefixDecides(Hydrate, (v: Result<Maps, Error>) => v.Err?, events, i);
  }
}
