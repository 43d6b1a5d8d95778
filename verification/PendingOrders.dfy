/** The restart loop's list of orders still to be looked up (session/runtime_state.py:20-46). */
module PendingOrders {
  import opened Domain
  import opened RiskEngine
  import opened ExecutionLedger
  import opened LedgerTheorems
  import opened Symbols

  datatype PendingOrder = PendingOrder(key: Key, intentId: string, referencePrice: real)

  function IntentsOf(events: seq<Event>): map<Key, OrderIntent> {
    if events == [] then map[]
    else
      var e := events[|events| - 1];
      var m := IntentsOf(events[..|events| - 1]);
      if e.IntentCreated? then m[e.intent.key := e.intent] else m
  }

  /** The last recorded target of every order: no transition table is consulted here. */
  function LastStatus(events: seq<Event>): map<string, OrderStatus> {
    if events == [] then map[]
    else
      var e := events[|events| - 1];
      var m := LastStatus(events[..|events| - 1]);
      if e.StateTransition? then m[e.orderId := e.to] else m
  }

  function StatusIn(m: map<string, OrderStatus>, o: string): OrderStatus {
    if o in m then m[o] else CREATED
  }

  function Pending(events: seq<Event>): map<Key, PendingOrder> {
    var intents := IntentsOf(events);
    map k | k in intents && !IsTerminal(StatusIn(LastStatus(events), intents[k].intentId))
          :: PendingOrder(k, intents[k].intentId, intents[k].referencePrice)
  }

  /** The pending orders among some keys, in their order. */
  function PendingAmong(events: seq<Event>, keys: seq<Key>): seq<PendingOrder> {
    if keys == [] then []
    else
      var before, k := PendingAmong(events, keys[..|keys| - 1]), keys[|keys| - 1];
      if k in Pending(events) then before + [Pending(events)[k]] else before
  }

  /** The two loops of the source, the second one over the intents sorted by key. */
  method ListPendingOrders(events: seq<Event>) returns (pending: seq<PendingOrder>)
    ensures pending == PendingAmong(events, Sorted(IntentsOf(events).Keys))
  {
    var intents: map<Key, OrderIntent> := map[];
    var statusByIntent: map<string, OrderStatus> := map[];
    for i := 0 to |events|
      invariant intents == IntentsOf(events[..i]) && statusByIntent == LastStatus(events[..i])
    {
      assert events[..i + 1][..i] == events[..i];
      var e := events[i];
      if e.IntentCreated? {
        intents := intents[e.intent.key := e.intent];
      } else if e.StateTransition? {
        statusByIntent := statusByIntent[e.orderId := e.to];
      }
    }
    assert events[..|events|] == events;
    var keys := Sorted(intents.Keys);
    pending := [];
    for i := 0 to |keys|
      invariant pending == PendingAmong(events, keys[..i])
    {
      assert keys[..i + 1][..i] == keys[..i];
      var key := keys[i];
      if IsTerminal(StatusIn(statusByIntent, intents[key].intentId)) {
        continue;
      }
      pending := pending + [PendingOrder(key, intents[key].intentId, intents[key].referencePrice)];
    }
    assert keys[..|keys|] == keys;
  }

  lemma {:induction false} PendingAmongIs(events: seq<Event>, keys: seq<Key>)
    requires forall i, j :: 0 <= i < j < |keys| ==> LexLe(keys[i], keys[j]) && keys[i] != keys[j]
    ensures var r := PendingAmong(events, keys);
            && (forall p :: p in r <==> p.key in keys && p.key in Pending(events) && p == Pending(events)[p.key])
            && (forall i, j :: 0 <= i < j < |r| ==> LexLe(r[i].key, r[j].key) && r[i].key != r[j].key)
  {
    hide Pending, LexLe;
    if keys != [] {
      var front, k := keys[..|keys| - 1], keys[|keys| - 1];
      PendingAmongIs(events, front);
      assert keys == front + [k];
      KeyOfPending(events, k);
    }
  }

  lemma KeyOfPending(events: seq<Event>, k: Key)
    ensures k in Pending(events) ==> Pending(events)[k].key == k
  {
  }

  /** The list holds every pending order once, in increasing order of key. */
  lemma ListIsSorted(events: seq<Event>)
    ensures var r := PendingAmong(events, Sorted(IntentsOf(events).Keys));
            && (forall p :: p in r <==> p.key in Pending(events) && p == Pending(events)[p.key])
            && (forall i, j :: 0 <= i < j < |r| ==> LexLe(r[i].key, r[j].key) && r[i].key != r[j].key)
  {
    PendingAmongIs(events, Sorted(IntentsOf(events).Keys));
  }

  lemma {:induction false} ReadersAgree(settings: Settings, events: seq<Event>)
    requires Legal(settings, events)
    ensures Hydrate(events).Ok? && IntentsOf(events) == Hydrate(events).value.intents
    ensures forall o: string :: StatusIn(LastStatus(events), o) == Hydrate(events).value.Status(o)
  {
    LegalHydrates(settings, events);
    if events != [] {
      var n := |events| - 1;
      LegalPrefix(settings, events, n);
      ReadersAgree(settings, events[..n]);
      HydrateStep(settings, events, n);
      assert events[..n + 1] == events;
      assert LegalAt(settings, events, n);
      var s, e := Hydrate(events[..n]).value, events[n];
      forall o: string
        ensures StatusIn(LastStatus(events), o) == Hydrate(events).value.Status(o)
      {
        assert StatusIn(LastStatus(events[..n]), o) == s.Status(o);
      }
    }
  }

  /** On every legal ledger the pending orders are exactly the orders a restarted kernel holds as not terminal. */
  lemma PendingIsNonTerminal(settings: Settings, events: seq<Event>, key: Key)
    requires Legal(settings, events)
    ensures Hydrate(events).Ok?
    ensures var s := Hydrate(events).value;
            && (key in Pending(events) <==> key in s.intents && !IsTerminal(s.Status(s.intents[key].intentId)))
            && (key in Pending(events) ==>
                  key in s.intentIds
                  && Pending(events)[key] == PendingOrder(key, s.intentIds[key], s.intents[key].referencePrice))
  {
    ReadersAgree(settings, events);
    LegalStructured(settings, events);
  }

  /** The reports in a ledger, in order: what the two report readers see. */
  function ReportsIn(events: seq<Event>): seq<ExecutionReport> {
    if events == [] then []
    else
      var e := events[|events| - 1];
      ReportsIn(events[..|events| - 1]) + if e.BrokerReport? then [e.report] else []
  }

  /** On a legal ledger no report is ever written twice, so the readers and the kernel replay the same list. */
  lemma {:induction false} LedgerReportsAreTheKernels(settings: Settings, events: seq<Event>)
    requires Legal(settings, events)
    ensures Hydrate(events).Ok? && ReportsIn(events) == Hydrate(events).value.reports
  {
    LegalHydrates(settings, events);
    if events != [] {
      var n := |events| - 1;
      LegalPrefix(settings, events, n);
      LedgerReportsAreTheKernels(settings, events[..n]);
      HydrateStep(settings, events, n);
      assert events[..n + 1] == events;
      assert LegalAt(settings, events, n);
    }
  }
}
