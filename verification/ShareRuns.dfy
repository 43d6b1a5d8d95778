/**
  The share side over whole runs.  Where further sales are opened only with shares for all open ones, and are filled
  fairly, replay never fails and no share is promised twice.
 */
module ShareRuns {
  import opened Wrappers
  import opened Domain
  import opened RiskEngine
  import opened ExecutionLedger
  import opened LedgerTheorems
  import opened Reconciler
  import opened Telescoping
  import opened Fills
  import opened Solvency
  import opened ShareCover
  import MapSum

  /** Beside fair reports: fills are of the order's symbol and of no more shares than ordered, and further sales fit. */
  ghost predicate SharesFairNext(settings: Settings, s: Maps, e: Event) {
    var b := Replay(settings.startingCash, s.reports, settings.currency);
    match e
    case BrokerReport(r) =>
      b.Ok? && r.IsFill() && r.key in s.intents ==>
        r.symbol == s.intents[r.key].symbol && (r.side == SellSide ==> FairSale(s, b.value, r))
    case IntentCreated(i) => b.Ok? ==> SaleFits(s, b.value, i)
    case _ => true
  }

  ghost predicate SharesFairAt(settings: Settings, events: seq<Event>, n: nat)
    requires n < |events|
  {
    Hydrate(events[..n]).Ok? ==> SharesFairNext(settings, Hydrate(events[..n]).value, events[n])
  }

  ghost predicate SharesFair(settings: Settings, events: seq<Event>) {
    forall n: nat :: n < |events| ==> SharesFairAt(settings, events, n)
  }

  lemma SharesFairlyExtended(settings: Settings, events: seq<Event>, s: Maps, e: Event)
    requires SharesFair(settings, events) && Hydrate(events) == Ok(s) && SharesFairNext(settings, s, e)
    ensures SharesFair(settings, events + [e])
  {
    hide SharesFairNext, Hydrate;
    forall n: nat | n < |events + [e]|
      ensures SharesFairAt(settings, events + [e], n)
    {
      if n < |events| {
        assert SharesFairAt(settings, events, n) && (events + [e])[..n] == events[..n];
      } else {
        assert (events + [e])[..n] == events;
      }
    }
  }

  /** The ledger can be replayed, and the shares held cover the open sales. */
  ghost predicate Backed(settings: Settings, s: Maps) {
    var b := Replay(settings.startingCash, s.reports, settings.currency);
    b.Ok? && FillsLinked(b.value, s.reports) && SharesCovered(s, b.value)
  }

  /** A fair report never fails to replay: every error of the step is excluded by what is covered. */
  lemma FairReportReplays(settings: Settings, s: Maps, b: Book, r: ExecutionReport)
    requires ReportsFit(s) && Replay(settings.startingCash, s.reports, settings.currency) == Ok(b)
    requires FairReport(settings, s, b, r) && r.reportId !in s.reportIds
    requires SharesFairNext(settings, s, BrokerReport(r)) && FillsLinked(b, s.reports) && SharesCovered(s, b)
    ensures Step(b, r, settings.currency).Ok?
  {
    hide Replay, SharesCovered, Step, ExecutionReport.Gross, FairPurchase, FairSale;
    OnlySharesCanBeMissing(settings, s, b, r);
    if r.IsFill() && r.side == SellSide {
      FairSaleIsHeld(s, b, r);
    }
  }

  lemma UnfilledReport(s: Maps, r: ExecutionReport)
    requires !r.IsFill()
    ensures forall k :: Filled(s.reports + [r], k) == Filled(s.reports, k)
  {
    forall k
      ensures Filled(s.reports + [r], k) == Filled(s.reports, k)
    {
      LargestFillAppend(s.reports, r, k);
    }
  }

  lemma BackedAfterReport(settings: Settings, s: Maps, r: ExecutionReport)
    requires ReportsFit(s) && Backed(settings, s) && r.reportId !in s.reportIds
    requires FairNext(settings, s, BrokerReport(r)) && SharesFairNext(settings, s, BrokerReport(r))
    ensures Backed(settings, Recorded(s, r))
  {
    hide Replay, Step, SharesCovered, ExecutionReport.Gross, LargestFill, FairPurchase, FairSale;
    var b := Replay(settings.startingCash, s.reports, settings.currency).value;
    FairReportReplays(settings, s, b, r);
    StepOfReport(settings, s, b, r);
    var b' := Step(b, r, settings.currency).value;
    var t := s.(reports := s.reports + [r]);
    if r.IsFill() {
      LinkedAfterFill(b, b', s, r);
      StepFill(b, r, settings.currency);
      CoveredAfterFill(s, b, b', r);
    } else {
      LinkedAfterOther(b, b', s.reports, r);
      UnfilledReport(s, r);
      SameOwed(s, t, b, b');
    }
    SameOwed(t, Recorded(s, r), b', b');
  }

  lemma {:induction false} AlwaysBacked(settings: Settings, events: seq<Event>, n: nat)
    requires Legal(settings, events) && Fair(settings, events) && SharesFair(settings, events) && n <= |events|
    ensures Hydrate(events[..n]).Ok? && Structured(Hydrate(events[..n]).value)
            && Backed(settings, Hydrate(events[..n]).value)
    decreases n
  {
    hide Backed, FairNext, SharesFairNext, Structured, Legal;
    LegalPrefix(settings, events, n);
    LegalStructured(settings, events[..n]);
    if n == 0 {
      BackedAtFirst(settings);
    } else {
      AlwaysBacked(settings, events, n - 1);
      HydrateStep(settings, events, n - 1);
      assert FairAt(settings, events, n - 1) && SharesFairAt(settings, events, n - 1);
      if events[n - 1].IntentCreated? {
        BackedAfterOpening(settings, events, n - 1);
      } else {
        LegalFacts(settings, events, n - 1);
        BackedNext(settings, Hydrate(events[..n - 1]).value, events[n - 1]);
      }
    }
  }

  lemma BackedAtFirst(settings: Settings)
    ensures Backed(settings, EMPTY)
  {
    MapSum.Empty<Key>();
    forall symbol
      ensures SymbolCovered(EMPTY, Opening(settings.startingCash), symbol)
    {
      assert OwedShares(EMPTY, symbol) == map[];
    }
  }

  lemma BackedAfterOpening(settings: Settings, events: seq<Event>, n: nat)
    requires Legal(settings, events) && n < |events| && events[n].IntentCreated? && Hydrate(events[..n]).Ok?
    requires Backed(settings, Hydrate(events[..n]).value)
    requires SharesFairNext(settings, Hydrate(events[..n]).value, events[n])
    ensures Backed(settings, Opened(Hydrate(events[..n]).value, events[n].intent))
  {
    hide Replay, Legal, SharesCovered, SaleFits, Funded;
    var s := Hydrate(events[..n]).value;
    OpeningIsFunded(settings, events, n);
    CoveredAfterIntent(s, Replay(settings.startingCash, s.reports, settings.currency).value, events[n].intent);
  }

  lemma BackedNext(settings: Settings, s: Maps, e: Event)
    requires Structured(s) && Backed(settings, s) && Sound(s, e) && !e.IntentCreated?
    requires FairNext(settings, s, e) && SharesFairNext(settings, s, e)
    ensures Apply(s, e).Ok? && Backed(settings, Apply(s, e).value)
  {
    hide Replay, SharesCovered, FairNext, SharesFairNext;
    var b := Replay(settings.startingCash, s.reports, settings.currency).value;
    if e.BrokerReport? {
      BackedAfterReport(settings, s, e.report);
    } else if e.StateTransition? {
      if s.Status(e.orderId) != e.to {
        CoveredAfterMove(s, b, e.orderId, e.to);
      }
    } else {
      SameOwed(s, Apply(s, e).value, b, b);
    }
  }

  /** Replay never fails, and what open sales may still take is held, of every symbol. */
  lemma NeverSoldShort(settings: Settings, events: seq<Event>, symbol: Symbol)
    requires Legal(settings, events) && Fair(settings, events) && SharesFair(settings, events)
    ensures Hydrate(events).Ok?
    ensures var s := Hydrate(events).value;
            var b := Replay(settings.startingCash, s.reports, settings.currency);
            b.Ok? && 0.0 <= MapSum.Sum(OwedShares(s, symbol)) <= QuantityOf(b.value.positions, symbol)
  {
    hide Legal, Fair, Structured, Replay, MapSum.Sum, OwedShares;
    AlwaysBacked(settings, events, |events|);
    assert events[..|events|] == events;
    var s := Hydrate(events).value;
    OwedNotNegative(s, symbol);
    assert SymbolCovered(s, Replay(settings.startingCash, s.reports, settings.currency).value, symbol);
  }
}
