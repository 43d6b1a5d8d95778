/** What each rebuilt dictionary holds, read off the events themselves (execution/kernel.py:59-90). */
module Hydration {
  import opened Wrappers
  import opened Domain
  import opened ExecutionLedger
  import opened LedgerTheorems

  /** The event at `n` is the last one of its kind. */
  ghost predicate Last(events: seq<Event>, kind: Event -> bool, n: int) {
    0 <= n < |events| && kind(events[n]) && forall m :: n < m < |events| ==> !kind(events[m])
  }

  ghost predicate Never(events: seq<Event>, kind: Event -> bool) {
    forall n: nat :: n < |events| ==> !kind(events[n])
  }

  lemma LastOrNever(events: seq<Event>, kind: Event -> bool, e: Event)
    ensures kind(e) ==> Last(events + [e], kind, |events|)
    ensures !kind(e) && Never(events, kind) ==> Never(events + [e], kind)
    ensures !kind(e) ==> forall n :: Last(events, kind, n) ==> Last(events + [e], kind, n)
  {
  }

  // ----- Known keys

  predicate MakesKnown(e: Event, key: Key) {
    Approves(e, key) || (e.BrokerReport? && e.report.key == key)
  }

  /** A key is known if and only if it was approved or something was reported of it. */
  lemma {:induction false} KnownKeys(events: seq<Event>, key: Key)
    requires Hydrate(events).Ok?
    ensures key in Hydrate(events).value.known <==> exists n: nat :: n < |events| && MakesKnown(events[n], key)
  {
    if events != [] {
      var front, e := events[..|events| - 1], events[|events| - 1];
      KnownKeys(front, key);
      assert forall n: nat :: n < |front| ==> front[n] == events[n];
      KnownStep(Hydrate(front).value, e, key);
      if n: nat :| n < |events| && MakesKnown(events[n], key) {
        assert n < |front| ==> MakesKnown(front[n], key);
      }
    }
  }

  lemma KnownStep(s: Maps, e: Event, key: Key)
    requires Apply(s, e).Ok?
    ensures key in Apply(s, e).value.known <==> key in s.known || MakesKnown(e, key)
  {
    hide Allowed;
  }

  // ----- Estimates

  predicate Proposes(e: Event, key: Key) {
    e.ProposalCreated? && e.proposal.key == key
  }

  function Proposing(key: Key): Event -> bool {
    (e: Event) => Proposes(e, key)
  }

  /** The estimate of a key is that of its last proposal. */
  lemma {:induction false} Estimates(events: seq<Event>, key: Key)
    requires Hydrate(events).Ok?
    ensures var estimates, kind := Hydrate(events).value.estimates, Proposing(key);
            if key !in estimates then Never(events, kind)
            else exists n :: Last(events, kind, n)
                             && estimates[key] == events[n].proposal.estimatedFee + events[n].proposal.estimatedSlippage
  {
    if events != [] {
      var front, e := events[..|events| - 1], events[|events| - 1];
      Estimates(front, key);
      assert events == front + [e];
      var kind := Proposing(key);
      LastOrNever(front, kind, e);
      EstimateStep(Hydrate(front).value, e, key);
      if !kind(e) && key in Hydrate(front).value.estimates {
        var n :| Last(front, kind, n) && Hydrate(front).value.estimates[key]
                                         == front[n].proposal.estimatedFee + front[n].proposal.estimatedSlippage;
        assert Last(events, kind, n);
      }
    }
  }

  lemma EstimateStep(s: Maps, e: Event, key: Key)
    requires Apply(s, e).Ok?
    ensures var after := Apply(s, e).value.estimates;
            if Proposes(e, key)
            then key in after && after[key] == e.proposal.estimatedFee + e.proposal.estimatedSlippage
            else (key in after <==> key in s.estimates) && (key in after ==> after[key] == s.estimates[key])
  {
    hide Allowed;
  }

  // ----- Statuses

  predicate Moves(e: Event, o: string) {
    e.StateTransition? && e.orderId == o
  }

  function Moving(o: string): Event -> bool {
    (e: Event) => Moves(e, o)
  }

  /** The status of an order is the target of its last recorded transition. */
  lemma {:induction false} Statuses(events: seq<Event>, o: string)
    requires Hydrate(events).Ok?
    ensures var status, kind := Hydrate(events).value.Status(o), Moving(o);
            || (Never(events, kind) && status == CREATED)
            || (exists n :: Last(events, kind, n) && status == events[n].to)
  {
    if events != [] {
      var front, e := events[..|events| - 1], events[|events| - 1];
      Statuses(front, o);
      assert events == front + [e];
      var kind := Moving(o);
      LastOrNever(front, kind, e);
      StatusStep(Hydrate(front).value, e, o);
      if !kind(e) && !Never(front, kind) {
        var n :| Last(front, kind, n) && Hydrate(front).value.Status(o) == front[n].to;
        assert Last(events, kind, n);
      }
    }
  }

  lemma StatusStep(s: Maps, e: Event, o: string)
    requires Apply(s, e).Ok?
    ensures Apply(s, e).value.Status(o) == if Moves(e, o) then e.to else s.Status(o)
  {
    hide Allowed;
  }

  // ----- Orders and their links to the broker's

  predicate Opens(e: Event, key: Key) {
    e.IntentCreated? && e.intent.key == key
  }

  function Opening(key: Key): Event -> bool {
    (e: Event) => Opens(e, key)
  }

  /** The order of a key is the one opened last, under its own identifier; on legal ledgers there is only one. */
  lemma {:induction false} Orders(events: seq<Event>, key: Key)
    requires Hydrate(events).Ok?
    ensures var s, kind := Hydrate(events).value, Opening(key);
            if key !in s.intents then key !in s.intentIds && Never(events, kind)
            else exists n :: Last(events, kind, n) && s.intents[key] == events[n].intent
                             && key in s.intentIds && s.intentIds[key] == events[n].intent.intentId
  {
    if events != [] {
      var front, e := events[..|events| - 1], events[|events| - 1];
      Orders(front, key);
      assert events == front + [e];
      var kind := Opening(key);
      LastOrNever(front, kind, e);
      var s := Hydrate(front).value;
      OrderStep(s, e, key);
      if !kind(e) && key in s.intents {
        var n :| Last(front, kind, n) && s.intents[key] == front[n].intent && key in s.intentIds
          && s.intentIds[key] == front[n].intent.intentId;
        assert Last(events, kind, n);
      }
    }
  }

  lemma OrderStep(s: Maps, e: Event, key: Key)
    requires Apply(s, e).Ok?
    ensures var t := Apply(s, e).value;
            if Opens(e, key) then key in t.intents && t.intents[key] == e.intent
                                  && key in t.intentIds && t.intentIds[key] == e.intent.intentId
            else (key in t.intents <==> key in s.intents) && (key in t.intentIds <==> key in s.intentIds)
                 && (key in t.intents ==> t.intents[key] == s.intents[key])
                 && (key in t.intentIds ==> t.intentIds[key] == s.intentIds[key])
  {
    hide Allowed;
  }

  /** The event at `n` reports a broker order for a key opened before. */
  ghost predicate Links(events: seq<Event>, n: int, o: OrderId) {
    && 0 <= n < |events| && events[n].BrokerReport? && events[n].report.brokerOrderId == o
    && !Never(events[..n], Opening(events[n].report.key))
  }

  /** A broker order is linked to the key of the last report of it about an opened order. */
  lemma {:induction false} BrokerLinks(events: seq<Event>, o: OrderId)
    requires Hydrate(events).Ok?
    ensures var links := Hydrate(events).value.brokerOrderKey;
            if o !in links then forall n :: !Links(events, n, o)
            else exists n :: Links(events, n, o) && links[o] == events[n].report.key
                             && forall m :: n < m ==> !Links(events, m, o)
  {
    hide Never;
    if events != [] {
      var front, e := events[..|events| - 1], events[|events| - 1];
      BrokerLinks(front, o);
      forall n: nat | n < |front|
        ensures Links(front, n, o) <==> Links(events, n, o)
      {
        assert front[..n] == events[..n];
      }
      assert events[..|front|] == front;
      var s := Hydrate(front).value;
      if e.BrokerReport? {
        OpenedOrNot(front, e.report.key);
      }
      LinkStep(s, e, o);
      if o in s.brokerOrderKey && !Links(events, |front|, o) {
        var n :| Links(front, n, o) && s.brokerOrderKey[o] == front[n].report.key
          && forall m :: n < m ==> !Links(front, m, o);
        assert Links(events, n, o);
      } else if Links(events, |front|, o) {
        assert forall m :: |front| < m ==> !Links(events, m, o);
      }
    }
  }

  lemma OpenedOrNot(events: seq<Event>, key: Key)
    requires Hydrate(events).Ok?
    ensures key in Hydrate(events).value.intents <==> !Never(events, Opening(key))
  {
    Orders(events, key);
  }

  lemma LinkStep(s: Maps, e: Event, o: OrderId)
    requires Apply(s, e).Ok?
    ensures var after := Apply(s, e).value.brokerOrderKey;
            if e.BrokerReport? && e.report.brokerOrderId == o && e.report.key in s.intents
            then o in after && after[o] == e.report.key
            else (o in after <==> o in s.brokerOrderKey) && (o in after ==> after[o] == s.brokerOrderKey[o])
  {
    hide Allowed;
  }

  // ----- The mode

  function ChangingMode(): Event -> bool {
    (e: Event) => e.ControlModeChanged?
  }

  /** The restored mode is the target of the last recorded change, NORMAL without one. */
  lemma {:induction false} Modes(events: seq<Event>)
    ensures || (Never(events, ChangingMode()) && RestoredMode(events) == NORMAL)
            || (exists n :: Last(events, ChangingMode(), n) && RestoredMode(events) == events[n].next)
  {
    if events != [] {
      var front, e := events[..|events| - 1], events[|events| - 1];
      Modes(front);
      assert events == front + [e];
      LastOrNever(front, ChangingMode(), e);
      if !e.ControlModeChanged? && !Never(front, ChangingMode()) {
        var n :| Last(front, ChangingMode(), n) && RestoredMode(front) == front[n].next;
        assert Last(events, ChangingMode(), n);
      }
    }
  }
}
