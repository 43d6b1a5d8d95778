/** Whole-run theorems about every legal ledger, hence about every interleaving of calls and crashes. */
module LedgerTheorems {
  import opened Wrappers
  import opened Domain
  import opened RiskEngine
  import opened ExecutionLedger

  ghost predicate IntentsFit(s: Maps) {
    && s.intents.Keys == s.intentIds.Keys && s.intents.Keys <= s.known
    && (forall k :: k in s.intents ==>
          s.intents[k].key == k && s.intentIds[k] == s.intents[k].intentId && s.intents[k].WellFormed())
  }

  ghost predicate IdsDistinct(s: Maps) {
    forall j, k :: j in s.intents && k in s.intents && s.intents[j].intentId == s.intents[k].intentId ==> j == k
  }

  ghost predicate BrokerOrdersFit(s: Maps) {
    forall o :: o in s.brokerOrderKey ==> s.brokerOrderKey[o] in s.intents
  }

  ghost predicate ReportsFit(s: Maps) {
    forall r :: r in s.reports ==> r.reportId in s.reportIds && r.key in s.known
  }

  ghost predicate MachinesFit(s: Maps) {
    forall o :: o in s.machines ==> s.machines[o] != CREATED && IsIntentId(s, o)
  }

  /** The rebuilt dictionaries always fit together. */
  ghost predicate Structured(s: Maps) {
    IntentsFit(s) && IdsDistinct(s) && BrokerOrdersFit(s) && ReportsFit(s) && MachinesFit(s)
  }

  lemma IntentIdsKept(s: Maps, t: Maps, o: string)
    requires forall k :: k in s.intents ==> k in t.intents && t.intents[k] == s.intents[k]
    requires IsIntentId(s, o)
    ensures IsIntentId(t, o)
  {
    var k :| k in s.intents && s.intents[k].intentId == o;
    assert k in t.intents && t.intents[k].intentId == o;
  }

  lemma StructuredOpened(s: Maps, i: OrderIntent)
    requires Structured(s) && i.key in s.known && !IsIntentId(s, i.intentId)
    requires i.key !in s.intents && i.WellFormed()
    ensures Structured(Opened(s, i))
  {
    var t := Opened(s, i);
    forall o | o in t.machines
      ensures t.machines[o] != CREATED && IsIntentId(t, o)
    {
      IntentIdsKept(s, t, o);
    }
    assert IntentsFit(t);
    assert IdsDistinct(t);
    assert BrokerOrdersFit(t);
    assert ReportsFit(t);
  }

  lemma StructuredRecorded(s: Maps, r: ExecutionReport)
    requires Structured(s)
    ensures Structured(Recorded(s, r))
  {
    var t := Recorded(s, r);
    assert t.intents == s.intents && t.machines == s.machines && t.intentIds == s.intentIds;
    forall o | o in t.machines
      ensures t.machines[o] != CREATED && IsIntentId(t, o)
    {
      IntentIdsKept(s, t, o);
    }
    assert IntentsFit(t);
    assert IdsDistinct(t);
    assert BrokerOrdersFit(t);
    assert ReportsFit(t);
  }

  lemma StructuredMoved(s: Maps, o: string, to: OrderStatus)
    requires Structured(s) && IsIntentId(s, o) && to != CREATED
    ensures Structured(s.(machines := s.machines[o := to]))
  {
    var t := s.(machines := s.machines[o := to]);
    forall x | x in t.machines
      ensures t.machines[x] != CREATED && IsIntentId(t, x)
    {
      IntentIdsKept(s, t, x);
    }
  }

  lemma StructuredOther(s: Maps, t: Maps)
    requires Structured(s)
    requires s.known <= t.known && t == s.(known := t.known, estimates := t.estimates)
    ensures Structured(t)
  {
    forall o | o in t.machines
      ensures t.machines[o] != CREATED && IsIntentId(t, o)
    {
      IntentIdsKept(s, t, o);
    }
  }

  lemma DeriveFacts(settings: Settings, s: Maps, p: TradeProposal, intentId: string)
    requires Derive(settings, s, p, intentId).Ok? && Derive(settings, s, p, intentId).value.Some?
    ensures var i := Derive(settings, s, p, intentId).value.value;
            && i.WellFormed() && i.key == p.key && i.intentId == intentId && i.symbol == p.symbol
            && i.referencePrice == p.referencePrice
            && i.side == (if IsOpening(p.action) then BuySide else SellSide)
            && p.action != HOLD && p.action != CANCEL
  {
  }

  lemma ApplyGrows(s: Maps, e: Event)
    requires Apply(s, e).Ok?
    ensures s.known <= Apply(s, e).value.known && s.intents.Keys <= Apply(s, e).value.intents.Keys
  {
  }

  /** An opened order was approved by the decision written just before it. */
  lemma IntentFollowsApproval(settings: Settings, events: seq<Event>, n: nat)
    requires Legal(settings, events) && n < |events| && events[n].IntentCreated?
    ensures n >= 2 && events[n - 1] == RiskDecided(RiskDecision(true, APPROVED), Some(events[n].intent.key))
    ensures events[n - 2].ProposalCreated? && events[n - 2].proposal.key == events[n].intent.key
    ensures events[n].intent.WellFormed()
    ensures Hydrate(events[..n]).Ok? && !IsIntentId(Hydrate(events[..n]).value, events[n].intent.intentId)
    ensures Derive(settings, Hydrate(events[..n]).value, events[n - 2].proposal, events[n].intent.intentId)
         == Ok(Some(events[n].intent))
  {
    assert LegalAt(settings, events, n);
    DeriveFacts(settings, Hydrate(events[..n]).value, events[n - 2].proposal, events[n].intent.intentId);
  }

  /** A decision answers the proposal written just before it; an approval means the key was new. */
  lemma DecisionFollowsProposal(settings: Settings, events: seq<Event>, n: nat)
    requires Legal(settings, events) && n < |events| && events[n].RiskDecided?
    ensures n >= 1 && events[n - 1].ProposalCreated? && events[n].key == Some(events[n - 1].proposal.key)
    ensures Hydrate(events[..n]).Ok? && Hydrate(events[..n + 1]).Ok?
    ensures Decidable(settings, Hydrate(events[..n]).value, RestoredMode(events[..n]), events[n - 1].proposal,
                      events[n].decision)
    ensures events[n].decision.approved ==>
              events[n].key.value !in Hydrate(events[..n]).value.known
                && events[n].key.value in Hydrate(events[..n + 1]).value.known
  {
    assert LegalAt(settings, events, n);
    HydrateStep(settings, events, n);
  }

  /** Known keys are never forgotten. */
  lemma {:induction false} KnownGrows(settings: Settings, events: seq<Event>, m: nat, n: nat)
    requires Legal(settings, events) && m <= n <= |events|
    ensures Hydrate(events[..m]).Ok? && Hydrate(events[..n]).Ok?
    ensures Hydrate(events[..m]).value.known <= Hydrate(events[..n]).value.known
    ensures Hydrate(events[..m]).value.intents.Keys <= Hydrate(events[..n]).value.intents.Keys
    decreases n
  {
    if m < n {
      KnownGrows(settings, events, m, n - 1);
      HydrateStep(settings, events, n - 1);
      ApplyGrows(Hydrate(events[..n - 1]).value, events[n - 1]);
    } else {
      LegalPrefix(settings, events, m);
    }
  }

  predicate Approves(e: Event, key: Key) {
    e.RiskDecided? && e.decision.approved && e.key == Some(key)
  }

  /** At most one approval per idempotency key, over any number of restarts. */
  lemma AtMostOneApproval(settings: Settings, events: seq<Event>, key: Key, m: nat, n: nat)
    requires Legal(settings, events) && m < |events| && n < |events|
    requires Approves(events[m], key) && Approves(events[n], key)
    ensures m == n
  {
    if m < n {
      LaterApprovalImpossible(settings, events, key, m, n);
    } else if n < m {
      LaterApprovalImpossible(settings, events, key, n, m);
    }
  }

  lemma LaterApprovalImpossible(settings: Settings, events: seq<Event>, key: Key, m: nat, n: nat)
    requires Legal(settings, events) && m < n < |events|
    requires Approves(events[m], key)
    ensures !Approves(events[n], key)
  {
    DecisionFollowsProposal(settings, events, m);
    KnownGrows(settings, events, m + 1, n);
    if Approves(events[n], key) {
      DecisionFollowsProposal(settings, events, n);
    }
  }

  /** At most one order per idempotency key. */
  lemma AtMostOneIntent(settings: Settings, events: seq<Event>, m: nat, n: nat)
    requires Legal(settings, events) && m < |events| && n < |events|
    requires events[m].IntentCreated? && events[n].IntentCreated?
    requires events[m].intent.key == events[n].intent.key
    ensures m == n
  {
    hide Legal, Hydrate, Derive, IsIntentId, OrderIntent.WellFormed;
    IntentFollowsApproval(settings, events, m);
    IntentFollowsApproval(settings, events, n);
    AtMostOneApproval(settings, events, events[m].intent.key, m - 1, n - 1);
  }

  /** A key with an order is one whose order event is in the ledger. */
  lemma {:induction false} OpenedSomewhere(settings: Settings, events: seq<Event>, key: Key) returns (n: nat)
    requires Legal(settings, events) && Hydrate(events).Ok? && key in Hydrate(events).value.intents
    ensures n < |events| && events[n].IntentCreated? && events[n].intent.key == key
    ensures events[n].intent == Hydrate(events).value.intents[key]
  {
    hide Legal, Allowed;
    var last := |events| - 1;
    HydrateStep(settings, events, last);
    assert events[..last + 1] == events;
    if events[last].IntentCreated? && events[last].intent.key == key {
      n := last;
    } else {
      LegalPrefix(settings, events, last);
      n := OpenedSomewhere(settings, events[..last], key);
    }
  }

  lemma IntentIsNew(settings: Settings, events: seq<Event>, n: nat)
    requires Legal(settings, events) && n < |events| && events[n].IntentCreated?
    ensures Hydrate(events[..n]).Ok? && events[n].intent.key !in Hydrate(events[..n]).value.intents
  {
    LegalPrefix(settings, events, n);
    if events[n].intent.key in Hydrate(events[..n]).value.intents {
      var m := OpenedSomewhere(settings, events[..n], events[n].intent.key);
      AtMostOneIntent(settings, events, m, n);
    }
  }

  lemma {:induction false} LegalStructured(settings: Settings, events: seq<Event>)
    requires Legal(settings, events)
    ensures Hydrate(events).Ok? && Structured(Hydrate(events).value)
  {
    if events != [] {
      var last := |events| - 1;
      var init, e := events[..last], events[last];
      LegalPrefix(settings, events, last);
      LegalStructured(settings, init);
      HydrateStep(settings, events, last);
      assert events[..last + 1] == events;
      var s := Hydrate(init).value;
      match e {
        case IntentCreated(i) =>
          IntentFollowsApproval(settings, events, last);
          KnownAfterApproval(settings, events, last - 1);
          assert events[..last - 1 + 1] == init;
          IntentIsNew(settings, events, last);
          StructuredOpened(s, i);
        case BrokerReport(r) => StructuredRecorded(s, r);
        case StateTransition(o, from, to) =>
          assert LegalAt(settings, events, last);
          if s.Status(o) != to {
            StructuredMoved(s, o, to);
          }
        case _ => StructuredOther(s, Apply(s, e).value);
      }
    }
  }

  lemma KnownAfterApproval(settings: Settings, events: seq<Event>, n: nat)
    requires Legal(settings, events) && n < |events| && events[n].RiskDecided? && events[n].decision.approved
    ensures Hydrate(events[..n + 1]).Ok? && events[n].key.Some?
    ensures events[n].key.value in Hydrate(events[..n + 1]).value.known
  {
    DecisionFollowsProposal(settings, events, n);
  }

  lemma ApplyKeepsIntents(s: Maps, e: Event)
    requires Apply(s, e).Ok? && (e.IntentCreated? ==> e.intent.key !in s.intents)
    ensures forall k :: k in s.intents ==>
              k in Apply(s, e).value.intents && Apply(s, e).value.intents[k] == s.intents[k]
  {
  }

  /** An order, once opened, is never replaced. */
  lemma {:induction false} IntentsAreStable(settings: Settings, events: seq<Event>, m: nat, n: nat)
    requires Legal(settings, events) && m <= n <= |events|
    ensures Hydrate(events[..m]).Ok? && Hydrate(events[..n]).Ok?
    ensures forall k :: k in Hydrate(events[..m]).value.intents ==>
              && k in Hydrate(events[..n]).value.intents
              && Hydrate(events[..n]).value.intents[k] == Hydrate(events[..m]).value.intents[k]
    decreases n
  {
    if m == n {
      LegalPrefix(settings, events, m);
    } else {
      IntentsAreStable(settings, events, m, n - 1);
      HydrateStep(settings, events, n - 1);
      if events[n - 1].IntentCreated? {
        IntentIsNew(settings, events, n - 1);
      }
      ApplyKeepsIntents(Hydrate(events[..n - 1]).value, events[n - 1]);
    }
  }

  /** What an order is derived from. */
  lemma DeriveReadsReports(settings: Settings, s: Maps, t: Maps, p: TradeProposal, intentId: string)
    requires s.reports == t.reports
    ensures Derive(settings, s, p, intentId) == Derive(settings, t, p, intentId)
  {
  }

  /** A submission attempt ends an unbroken run of seven events that starts with its proposal. */
  lemma AttemptChain(settings: Settings, events: seq<Event>, n: nat)
    requires Legal(settings, events) && n < |events| && events[n].SubmissionAttempt?
    ensures var o := events[n].intentId;
            && n >= 6
            && events[n - 1] == StateTransition(o, VALIDATED, SUBMITTING)
            && events[n - 2] == StateTransition(o, CREATED, VALIDATED)
            && events[n - 3] == StateTransition(o, CREATED, CREATED)
            && events[n - 4].IntentCreated? && events[n - 4].intent.intentId == o
            && Approves(events[n - 5], events[n - 4].intent.key)
            && events[n - 6].ProposalCreated? && events[n - 6].proposal.key == events[n - 4].intent.key
  {
    hide LegalAt, Hydrate, Legal;
    AttemptFollows(settings, events, n);
    OpeningFollows(settings, events, n - 1);
    OpeningFollows(settings, events, n - 2);
    OpeningFollows(settings, events, n - 3);
    IntentFollowsApproval(settings, events, n - 4);
  }

  lemma AttemptFollows(settings: Settings, events: seq<Event>, n: nat)
    requires Legal(settings, events) && n < |events| && events[n].SubmissionAttempt?
    ensures n > 0 && events[n - 1] == StateTransition(events[n].intentId, VALIDATED, SUBMITTING)
  {
    assert LegalAt(settings, events, n);
  }

  /** The transitions of an opening order come right after one another. */
  lemma OpeningFollows(settings: Settings, events: seq<Event>, n: nat)
    requires Legal(settings, events) && n < |events| && events[n].StateTransition?
    ensures var o := events[n].orderId;
            && (events[n] == StateTransition(o, VALIDATED, SUBMITTING) ==>
                  n > 0 && events[n - 1] == StateTransition(o, CREATED, VALIDATED))
            && (events[n] == StateTransition(o, CREATED, VALIDATED) ==>
                  n > 0 && events[n - 1] == StateTransition(o, CREATED, CREATED))
            && (events[n] == StateTransition(o, CREATED, CREATED) ==>
                  n > 0 && events[n - 1].IntentCreated? && events[n - 1].intent.intentId == o)
  {
    assert LegalAt(settings, events, n);
  }

  /** At most one submission attempt per idempotency key, and per order identifier. */
  lemma AtMostOneAttempt(settings: Settings, events: seq<Event>, m: nat, n: nat)
    requires Legal(settings, events) && m < |events| && n < |events|
    requires events[m].SubmissionAttempt? && events[n].SubmissionAttempt?
    ensures m >= 4 && n >= 4 && events[m - 4].IntentCreated? && events[n - 4].IntentCreated?
    ensures events[m - 4].intent.key == events[n - 4].intent.key ==> m == n
    ensures events[m].intentId == events[n].intentId ==> m == n
  {
    AttemptChain(settings, events, m);
    AttemptChain(settings, events, n);
    if events[m - 4].intent.key == events[n - 4].intent.key {
      AtMostOneIntent(settings, events, m - 4, n - 4);
    }
    if events[m].intentId == events[n].intentId {
      if m < n {
        IdentifierIsFresh(settings, events, m - 4, n - 4);
      } else if n < m {
        IdentifierIsFresh(settings, events, n - 4, m - 4);
      }
    }
  }

  lemma IdentifierIsFresh(settings: Settings, events: seq<Event>, m: nat, n: nat)
    requires Legal(settings, events) && m < n < |events|
    requires events[m].IntentCreated? && events[n].IntentCreated?
    ensures events[m].intent.intentId != events[n].intent.intentId
  {
    HydrateStep(settings, events, m);
    IntentsAreStable(settings, events, m + 1, n);
    IntentFollowsApproval(settings, events, n);
    var s := Hydrate(events[..n]).value;
    assert s.intents[events[m].intent.key] == events[m].intent;
  }

  lemma ModeUnchanged(events: seq<Event>, m: nat, n: nat)
    requires m <= n <= |events|
    requires forall i :: m <= i < n ==> !events[i].ControlModeChanged?
    ensures RestoredMode(events[..n]) == RestoredMode(events[..m])
  {
    if m < n {
      ModeUnchanged(events, m, n - 1);
      assert events[..n][..n - 1] == events[..n - 1];
    }
  }

  /** No purchase is ever submitted in SAFE or DEAD. */
  lemma NoExposureUnderRestriction(settings: Settings, events: seq<Event>, n: nat)
    requires Legal(settings, events) && n < |events| && events[n].SubmissionAttempt?
    ensures n >= 6 && events[n - 4].IntentCreated? && events[n - 6].ProposalCreated?
    ensures events[n - 4].intent.side == BuySide ==> Exposes(RestoredMode(events[..n]))
  {
    AttemptChain(settings, events, n);
    ModeUnchanged(events, n - 5, n);
    DecisionFollowsProposal(settings, events, n - 5);
    IntentFollowsApproval(settings, events, n - 4);
    var s := Hydrate(events[..n - 5]).value;
    DeriveFacts(settings, Hydrate(events[..n - 4]).value, events[n - 6].proposal, events[n - 4].intent.intentId);
    var env: Env :| Decide(settings, s, RestoredMode(events[..n - 5]), events[n - 6].proposal, env).Ok?
                    && Decide(settings, s, RestoredMode(events[..n - 5]), events[n - 6].proposal, env).value.decision
                       == events[n - 5].decision;
  }

  /** DEAD is terminal: once recorded, every later restored mode is DEAD. */
  lemma {:induction false} DeadIsForever(settings: Settings, events: seq<Event>, m: nat)
    requires Legal(settings, events) && m <= |events| && RestoredMode(events[..m]) == DEAD
    ensures RestoredMode(events) == DEAD
    decreases |events|
  {
    if m == |events| {
      assert events[..m] == events;
    } else {
      var init := events[..|events| - 1];
      assert init[..m] == events[..m];
      LegalPrefix(settings, events, |init|);
      DeadIsForever(settings, init, m);
      assert LegalAt(settings, events, |init|);
    }
  }
}
