/**
  The kernel with the Alpaca adapter behind it, over any sequence of proposals, reports, late arrivals, crashes and
  restarts: the account never holds two orders for one key.
 */
module AlpacaSession {
  import opened Wrappers
  import opened Domain
  import opened RiskEngine
  import opened ExecutionLedger
  import opened LedgerTheorems
  import opened Control
  import opened KernelSteps
  import opened KernelAnswers
  import opened Kernel
  import opened AlpacaSubmit

  // ----- Keys with a recorded attempt

  ghost predicate AttemptAt(events: seq<Event>, n: nat, key: Key) {
    4 <= n < |events| && events[n].SubmissionAttempt? && events[n - 4].IntentCreated? && events[n - 4].intent.key == key
  }

  ghost predicate Attempted(events: seq<Event>, key: Key) {
    exists n: nat :: AttemptAt(events, n, key)
  }

  ghost predicate AttemptedAs(events: seq<Event>, clientOrderId: Key -> string, c: string) {
    exists key :: clientOrderId(key) == c && Attempted(events, key)
  }

  /** At most one copy for every client identifier, and none unless its key has a recorded attempt. */
  ghost predicate OneCopy(events: seq<Event>, clientOrderId: Key -> string, a: Account) {
    forall c :: Copies(a, c) <= 1 && (Copies(a, c) > 0 ==> AttemptedAs(events, clientOrderId, c))
  }

  ghost predicate Injective(clientOrderId: Key -> string) {
    forall a, b :: clientOrderId(a) == clientOrderId(b) ==> a == b
  }

  lemma AttemptedStays(events: seq<Event>, more: seq<Event>, key: Key)
    requires Attempted(events, key)
    ensures Attempted(events + more, key)
  {
    var n: nat :| AttemptAt(events, n, key);
    assert AttemptAt(events + more, n, key);
  }

  /** The ledger grows, the account keeps its copies. */
  lemma OneCopyStays(events: seq<Event>, more: seq<Event>, clientOrderId: Key -> string, a: Account, b: Account)
    requires OneCopy(events, clientOrderId, a) && forall c :: Copies(b, c) == Copies(a, c)
    ensures OneCopy(events + more, clientOrderId, b)
  {
    hide Copies, Attempted;
    forall c
      ensures Copies(b, c) <= 1 && (Copies(b, c) > 0 ==> AttemptedAs(events + more, clientOrderId, c))
    {
      if Copies(a, c) > 0 {
        var key :| clientOrderId(key) == c && Attempted(events, key);
        AttemptedStays(events, more, key);
      }
    }
  }

  /** An attempted key is known, so a new key has never been attempted. */
  lemma AttemptedIsKnown(settings: Settings, events: seq<Event>, key: Key)
    requires Legal(settings, events) && Attempted(events, key)
    ensures Hydrate(events).Ok? && key in Hydrate(events).value.known
  {
    hide Hydrate, Legal;
    var n: nat :| AttemptAt(events, n, key);
    AttemptChain(settings, events, n);
    KnownAfterApproval(settings, events, n - 5);
    KnownGrows(settings, events, n - 4, |events|);
    assert events[..n - 5 + 1] == events[..n - 4] && events[..|events|] == events;
  }

  /** What is handed to the broker has just been attempted. */
  lemma HandedOverIsAttempted(before: seq<Event>, p: TradeProposal, judged: Result<Verdict, Error>)
    requires JudgedStage(p, judged).ToSubmit?
    ensures Attempted(before + [ProposalCreated(p)] + JudgedEvents(p, judged), JudgedStage(p, judged).intent.key)
  {
    var events := before + [ProposalCreated(p)] + JudgedEvents(p, judged);
    assert AttemptAt(events, |events| - 1, JudgedStage(p, judged).intent.key);
  }

  /** The copy a first submission adds is the only one, and it is accounted for. */
  lemma OneCopyAdded(events: seq<Event>, more: seq<Event>, clientOrderId: Key -> string, a: Account, b: Account,
                     key: Key)
    requires Injective(clientOrderId) && OneCopy(events, clientOrderId, a) && !Attempted(events, key)
    requires AddsAtMostOne(a, b, clientOrderId(key)) && Attempted(events + more, key)
    ensures OneCopy(events + more, clientOrderId, b)
  {
    hide Copies, Attempted;
    forall c
      ensures Copies(b, c) <= 1 && (Copies(b, c) > 0 ==> AttemptedAs(events + more, clientOrderId, c))
    {
      if Copies(a, c) > 0 {
        var k :| clientOrderId(k) == c && Attempted(events, k);
        AttemptedStays(events, more, k);
      }
    }
  }

  // ----- One proposal

  /** Where the process may die around a submission: before the request is sent, or before the answer is seen. */
  datatype Death = Never | BeforeSending | AfterSending

  /** A proposal through the kernel and the adapter. */
  method Drive(kernel: ExecutionKernel, broker: AlpacaPaperBroker, p: TradeProposal, env: Env, net: Net,
               cancelled: Result<BrokerOrder, Error>, death: Death)
    requires kernel.Valid() && p.Valid() && env.killSwitch == kernel.control.killSwitch
    requires env.intentId !in kernel.View().machines && !IsIntentId(kernel.View(), env.intentId)
    requires Injective(broker.clientOrderId) && OneCopy(kernel.log.events, broker.clientOrderId, broker.account)
    modifies kernel, kernel.log, kernel.control, broker
    ensures kernel.Valid() && OneCopy(kernel.log.events, broker.clientOrderId, broker.account)
  {
    hide Decide, Hydrate, Legal, Judged, JudgedEvents, OneCopy, AddsAtMostOne, Injective, Attempted, SubmissionEvents,
      CancelEvents, Tells, HandsOver, Submitted, Considered, Answers, AnsweredWith, CancelAnswered, AfterPost,
      SubmissionOutcome, CancelOutcome;
    ghost var before, account, s := kernel.log.events, broker.account, kernel.View();
    var stage, judged := kernel.Propose(p, env);
    ghost var middle := kernel.log.events;
    ghost var written := [ProposalCreated(p)] + JudgedEvents(p, judged);
    assert middle == before + written;
    match stage {
      case Finished(_) => OneCopyStays(before, written, broker.clientOrderId, account, account);
      case ToSubmit(decision, intent) =>
        if Attempted(before, intent.key) {
          AttemptedIsKnown(kernel.settings, before, intent.key);
        }
        HandedOverIsAttempted(before, p, judged);
        assert before + [ProposalCreated(p)] + JudgedEvents(p, judged) == before + written;
        DriveSubmission(kernel, broker, decision, intent, net, death, before, written);
      case ToCancel(decision) =>
        OneCopyStays(before, written, broker.clientOrderId, account, account);
        var _ := kernel.HandleCancel(p, decision, cancelled);
        OneCopyStays(middle, kernel.log.events[|middle|..], broker.clientOrderId, account, account);
        assert kernel.log.events == middle + kernel.log.events[|middle|..];
    }
  }

  /** From the hand-over on: the request, its answer, or a death in between. */
  method DriveSubmission(kernel: ExecutionKernel, broker: AlpacaPaperBroker, decision: RiskDecision,
                         intent: OrderIntent, net: Net, death: Death, ghost before: seq<Event>,
                         ghost written: seq<Event>)
    requires kernel.Valid() && IsIntentId(kernel.View(), intent.intentId)
             && kernel.View().Status(intent.intentId) == SUBMITTING
    requires |kernel.log.events| > 0 && kernel.log.events[|kernel.log.events| - 1] == SubmissionAttempt(intent.intentId)
    requires kernel.log.events == before + written
    requires Injective(broker.clientOrderId) && OneCopy(before, broker.clientOrderId, broker.account)
    requires !Attempted(before, intent.key) && Attempted(before + written, intent.key)
    modifies kernel, kernel.log, kernel.control, broker
    ensures kernel.Valid() && OneCopy(kernel.log.events, broker.clientOrderId, broker.account)
  {
    hide Hydrate, Legal, OneCopy, AddsAtMostOne, Injective, Attempted, SubmissionEvents, Answers, AnsweredWith,
      AfterPost,
      SubmissionOutcome, Count;
    ghost var middle, account := kernel.log.events, broker.account;
    if death.BeforeSending? {
      OneCopyStays(before, written, broker.clientOrderId, account, account);
      return;
    }
    var answer := broker.Submit(intent, net);
    OneCopyAdded(before, written, broker.clientOrderId, account, broker.account, intent.key);
    if death.AfterSending? {
      return;
    }
    var _ := kernel.CompleteSubmission(decision, intent, answer);
    OneCopyStays(middle, kernel.log.events[|middle|..], broker.clientOrderId, broker.account, broker.account);
    assert kernel.log.events == middle + kernel.log.events[|middle|..];
  }

  // ----- Whole sessions

  datatype Step =
    | Proposed(p: TradeProposal, env: Env, net: Net, cancelled: Result<BrokerOrder, Error>, death: Death)
    | Reported(r: ExecutionReport)
    | Landed(k: nat)
    | Restarted(killSwitch: bool)

  /**
    Any session on any legal ledger, started and restarted at will.  A step that cannot occur is skipped: an invalid
    proposal, an identifier that is not new, a landing of a request that is not in flight.
   */
  method Session(settings: Settings, log: EventLog, broker: AlpacaPaperBroker, steps: seq<Step>)
    requires Legal(settings, log.events)
    requires Injective(broker.clientOrderId) && OneCopy(log.events, broker.clientOrderId, broker.account)
    modifies log, broker
    ensures Legal(settings, log.events) && OneCopy(log.events, broker.clientOrderId, broker.account)
  {
    hide Legal, Hydrate, OneCopy, Injective, Decide, ReconcileEvents;
    var kernel := Restart(settings, log, false);
    for i := 0 to |steps|
      invariant fresh(kernel) && fresh(kernel.control) && kernel.Valid()
      invariant kernel.settings == settings && kernel.log == log
      invariant OneCopy(log.events, broker.clientOrderId, broker.account)
    {
      match steps[i] {
        case Proposed(p, env, net, cancelled, death) =>
          if p.Valid() && !kernel.KnowsOrder(env.intentId) {
            Drive(kernel, broker, p, env.(killSwitch := kernel.control.killSwitch), net, cancelled, death);
            if !death.Never? {
              kernel := Restart(settings, log, kernel.control.killSwitch);
            }
          }
        case Reported(r) =>
          ghost var before := log.events;
          var _ := kernel.Reconcile(r);
          OneCopyStays(before, log.events[|before|..], broker.clientOrderId, broker.account, broker.account);
          assert log.events == before + log.events[|before|..];
        case Landed(k) =>
          if k < |broker.account.inFlight| {
            ghost var account := broker.account;
            broker.Land(k);
            OneCopyStays(log.events, [], broker.clientOrderId, account, broker.account);
            assert log.events + [] == log.events;
          }
        case Restarted(killSwitch) =>
          kernel := Restart(settings, log, killSwitch);
      }
    }
  }

  /** The empty ledger and the empty account. */
  lemma NothingYet(settings: Settings, clientOrderId: Key -> string)
    ensures Legal(settings, []) && OneCopy([], clientOrderId, Account([], []))
  {
  }
}
