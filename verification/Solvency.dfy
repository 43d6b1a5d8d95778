/**
  Whole-run solvency.  With fair reports, and with keys re-used only where there is room, the replayed cash of every
  legal ledger covers what every open purchase may still cost, for as long as the ledger can be replayed.  Nothing is
  assumed about sales but that their fees do not exceed their proceeds.
 */
module Solvency {
  import opened Wrappers
  import opened Domain
  import opened RiskEngine
  import opened ExecutionLedger
  import opened LedgerTheorems
  import opened Reconciler
  import opened Telescoping
  import opened Fills
  import opened Arithmetic
  import MapSum

  // ----- Increments and what they take out of the estimate

  /** By how much an increment costs more than the reference price. */
  function Excess(cost: real, quantity: real, price: real): real {
    Max(cost - quantity * price, 0.0)
  }

  /** An increment costs at most its shares at the reference price and what is left of the estimate. */
  predicate Affordable(cost: real, quantity: real, price: real, unspent: real) {
    cost <= quantity * price + unspent
  }

  /** The remainder at the reference price and the unspent estimate, nothing once the order is full. */
  function Due(remaining: real, price: real, unspent: real): real {
    if remaining <= 0.0 then 0.0 else remaining * price + unspent
  }

  /** The part of an order's estimate that its fills have used up so far. */
  function Overspent(settings: Settings, i: OrderIntent, reports: seq<ExecutionReport>): (x: real)
    ensures x >= 0.0
  {
    if reports == [] then 0.0
    else
      var init, r := reports[..|reports| - 1], reports[|reports| - 1];
      var b := Replay(settings.startingCash, init, settings.currency);
      Overspent(settings, i, init) +
      if b.Ok? && r.key == i.key && r.IsFill()
      then Excess(CostIncrement(b.value, r), QuantityIncrement(b.value, r), i.referencePrice) else 0.0
  }

  /** What an open purchase may still cost. */
  ghost function Commitment(settings: Settings, s: Maps, key: Key): real
    requires key in s.intents
  {
    var i := s.intents[key];
    Due(i.quantity - Filled(s.reports, key), i.referencePrice,
        MapSum.Get(s.estimates, key) - Overspent(settings, i, s.reports))
  }

  ghost function Commitments(settings: Settings, s: Maps): map<Key, real> {
    map k | k in s.intents && OpenBuy(s, k) :: Commitment(settings, s, k)
  }

  // ----- The assumptions

  /** A purchase still waiting for shares. */
  predicate Waiting(s: Maps, key: Key) {
    OpenBuy(s, key) && Filled(s.reports, key) < s.intents[key].quantity
  }

  /**
    The broker's part: a fill is of an order, with its side, one broker order per key; cumulative figures never shrink;
    a purchase fills at most what was ordered, costs at most the reference price plus what is left of the estimate, and
    is not charged once full or terminal; a sale never costs more than it brings.
   */
  ghost predicate FairReport(settings: Settings, s: Maps, b: Book, r: ExecutionReport) {
    && r.currency == settings.currency
    && (r.IsFill() ==>
          && r.key in s.intents && r.side == s.intents[r.key].side
          && OneOrderPerKey(s, r) && NeverShrinks(b, r)
          && (r.side == BuySide ==> FairPurchase(settings, s, b, r))
          && (r.side == SellSide ==> FeeIsPaid(b, r)))
  }

  /** The fee of an increment does not exceed its proceeds. */
  predicate FeeIsPaid(b: Book, r: ExecutionReport) {
    r.fee - MapSum.Get(b.fee, r.brokerOrderId) <= r.Gross() - MapSum.Get(b.gross, r.brokerOrderId)
  }

  ghost predicate FairPurchase(settings: Settings, s: Maps, b: Book, r: ExecutionReport)
    requires r.key in s.intents
  {
    var i := s.intents[r.key];
    if Waiting(s, r.key) then
      && r.fillQuantity <= i.quantity
      && Affordable(CostIncrement(b, r), QuantityIncrement(b, r), i.referencePrice,
                    MapSum.Get(s.estimates, r.key) - Overspent(settings, i, s.reports))
    else
      QuantityIncrement(b, r) == 0.0 && CostIncrement(b, r) == 0.0
  }

  /** The cash that is not committed. */
  ghost function Slack(settings: Settings, s: Maps, b: Book): real {
    b.cash - MapSum.Sum(Commitments(settings, s))
  }

  /**
    Proposing a key again overwrites the estimate of its order, even if the proposal is then refused.  That matters
    only while the order waits for shares: the new estimate must still pay for what was spent, and its growth must
    fit into the slack.
   */
  ghost predicate ReuseFits(settings: Settings, s: Maps, b: Book, p: TradeProposal) {
    Waiting(s, p.key) && p.key in s.estimates ==>
      && Overspent(settings, s.intents[p.key], s.reports) <= p.EstimatedCost()
      && p.EstimatedCost() - s.estimates[p.key] <= Slack(settings, s, b)
  }

  ghost predicate FairNext(settings: Settings, s: Maps, e: Event) {
    var b := Replay(settings.startingCash, s.reports, settings.currency);
    match e
    case BrokerReport(r) => b.Ok? ==> FairReport(settings, s, b.value, r)
    case ProposalCreated(p) => b.Ok? ==> ReuseFits(settings, s, b.value, p)
    case _ => true
  }

  ghost predicate FairAt(settings: Settings, events: seq<Event>, n: nat)
    requires n < |events|
  {
    Hydrate(events[..n]).Ok? ==> FairNext(settings, Hydrate(events[..n]).value, events[n])
  }

  ghost predicate Fair(settings: Settings, events: seq<Event>) {
    forall n: nat :: n < |events| ==> FairAt(settings, events, n)
  }

  lemma FairlyExtended(settings: Settings, events: seq<Event>, s: Maps, e: Event)
    requires Fair(settings, events) && Hydrate(events) == Ok(s) && FairNext(settings, s, e)
    ensures Fair(settings, events + [e])
  {
    hide FairNext, Hydrate;
    forall n: nat | n < |events + [e]|
      ensures FairAt(settings, events + [e], n)
    {
      if n < |events| {
        assert FairAt(settings, events, n) && (events + [e])[..n] == events[..n];
      } else {
        assert (events + [e])[..n] == events;
      }
    }
  }

  // ----- The invariant

  /** No purchase is overfilled, and a waiting one has not spent more than its estimate. */
  ghost predicate WithinEstimate(settings: Settings, s: Maps) {
    forall k :: k in s.intents ==>
      && k in s.estimates
      && (s.intents[k].side == BuySide ==> Filled(s.reports, k) <= s.intents[k].quantity)
      && (Waiting(s, k) ==> Overspent(settings, s.intents[k], s.reports) <= s.estimates[k])
  }

  ghost predicate Covered(settings: Settings, s: Maps, b: Book) {
    b.cash >= MapSum.Sum(Commitments(settings, s))
  }

  /** The cash side of a book that can be replayed. */
  ghost predicate CashCovers(settings: Settings, s: Maps, b: Book) {
    FillsLinked(b, s.reports) && WithinEstimate(settings, s) && Covered(settings, s, b)
  }

  /** The cash covers what is committed, or else the ledger cannot be replayed for want of shares. */
  ghost predicate Solvent(settings: Settings, s: Maps) {
    var b := Replay(settings.startingCash, s.reports, settings.currency);
    if b.Ok? then CashCovers(settings, s, b.value) else b == Err(ShortPosition)
  }

  lemma CommitmentsNonNegative(settings: Settings, s: Maps)
    requires Structured(s) && WithinEstimate(settings, s)
    ensures forall k :: k in Commitments(settings, s) ==> Commitments(settings, s)[k] >= 0.0
    ensures forall k :: k in Commitments(settings, s) ==> Commitments(settings, s)[k] <= Reservation(s, k)
    ensures MapSum.Sum(Commitments(settings, s)) >= 0.0
    ensures MapSum.Sum(Commitments(settings, s)) <= MapSum.Sum(Reservations(s))
    ensures !Overfilled(s)
  {
    var c := Commitments(settings, s);
    forall k | k in c
      ensures 0.0 <= c[k] <= Reservation(s, k)
    {
      CommitmentBounds(settings, s, k);
    }
    MapSum.NonNegative(c);
    MapSum.Monotone(c, Reservations(s));
  }

  lemma CommitmentBounds(settings: Settings, s: Maps, k: Key)
    requires Structured(s) && WithinEstimate(settings, s) && k in s.intents && OpenBuy(s, k)
    ensures 0.0 <= Commitment(settings, s, k) <= Reservation(s, k)
  {
    hide Overspent, LargestFill, Due, Reservation, OrderIntent.WellFormed;
    var i, remaining := s.intents[k], s.intents[k].quantity - Filled(s.reports, k);
    PriceIsPositive(i);
    ReservationIsDue(s, k);
    if Waiting(s, k) {
      DueBounds(remaining, i.referencePrice, s.estimates[k], Overspent(settings, i, s.reports));
    } else {
      NothingDue(remaining, i.referencePrice, MapSum.Get(s.estimates, k));
      NothingDue(remaining, i.referencePrice, MapSum.Get(s.estimates, k) - Overspent(settings, i, s.reports));
    }
  }

  /** A reservation is what is due if nothing has been spent. */
  lemma ReservationIsDue(s: Maps, k: Key)
    requires k in s.intents
    ensures Reservation(s, k) == Due(s.intents[k].quantity - Filled(s.reports, k), s.intents[k].referencePrice,
                                     MapSum.Get(s.estimates, k))
  {
  }

  lemma PriceIsPositive(i: OrderIntent)
    ensures i.WellFormed() ==> i.referencePrice > 0.0
  {
  }

  lemma NothingDue(remaining: real, price: real, unspent: real)
    requires remaining <= 0.0
    ensures Due(remaining, price, unspent) == 0.0
  {
  }

  lemma DueBounds(remaining: real, price: real, estimate: real, spent: real)
    requires price > 0.0 && 0.0 <= spent <= estimate
    ensures 0.0 <= Due(remaining, price, estimate - spent) <= Due(remaining, price, estimate)
  {
    if remaining > 0.0 {
      assert remaining * price > 0.0;
    }
  }

  // ----- A report arrives

  lemma OverspentAppend(settings: Settings, i: OrderIntent, reports: seq<ExecutionReport>, r: ExecutionReport)
    requires Replay(settings.startingCash, reports, settings.currency).Ok?
    ensures Overspent(settings, i, reports + [r]) == Overspent(settings, i, reports) +
              if r.key == i.key && r.IsFill()
              then Excess(CostIncrement(Replay(settings.startingCash, reports, settings.currency).value, r),
                          QuantityIncrement(Replay(settings.startingCash, reports, settings.currency).value, r),
                          i.referencePrice)
              else 0.0
  {
    assert (reports + [r])[..|reports|] == reports;
  }

  /** The arithmetic of one increment: what it costs is at most what the commitment gives up. */
  lemma IncrementIsPaid(quantity: real, filled: real, dq: real, price: real, unspent: real, dc: real)
    requires filled < quantity && 0.0 <= dq <= quantity - filled && unspent >= 0.0 && Affordable(dc, dq, price, unspent)
    ensures Due(quantity - filled, price, unspent)
            - Due(quantity - (filled + dq), price, unspent - Excess(dc, dq, price)) >= dc
    ensures Excess(dc, dq, price) <= unspent
  {
    if quantity - (filled + dq) <= 0.0 {
      assert quantity - filled == dq;
    } else {
      var rest := quantity - (filled + dq);
      assert (dq + rest) * price == dq * price + rest * price;
      assert quantity - filled == dq + rest;
    }
  }

  lemma NothingIsPaid(price: real)
    ensures Excess(0.0, 0.0, price) == 0.0
  {
  }

  /** The key's figures after a purchase report. */
  lemma PurchaseFigures(settings: Settings, s: Maps, b: Book, r: ExecutionReport)
    requires FillsLinked(b, s.reports)
    requires Replay(settings.startingCash, s.reports, settings.currency) == Ok(b)
    requires r.IsFill() && r.key in s.intents && OneOrderPerKey(s, r) && QuantityIncrement(b, r) >= 0.0
    requires s.intents[r.key].key == r.key
    ensures var i := s.intents[r.key];
            var reports := s.reports + [r];
            && Filled(reports, r.key) == Filled(s.reports, r.key) + QuantityIncrement(b, r) == r.fillQuantity
            && Overspent(settings, i, reports)
               == Overspent(settings, i, s.reports)
                 + Excess(CostIncrement(b, r), QuantityIncrement(b, r), i.referencePrice)
  {
    PreviousFill(b, s, r);
    FilledAfter(b, s, r, r.key);
    OverspentAppend(settings, s.intents[r.key], s.reports, r);
  }

  ghost predicate PaidFrom(settings: Settings, s: Maps, t: Maps, key: Key, cost: real)
    requires key in s.intents && key in t.intents
  {
    && (OpenBuy(s, key) ==> Commitment(settings, s, key) - Commitment(settings, t, key) >= cost)
    && (!OpenBuy(s, key) ==> cost == 0.0)
    && Filled(t.reports, key) <= s.intents[key].quantity
    && (Waiting(t, key) ==> Overspent(settings, s.intents[key], t.reports) <= MapSum.Get(s.estimates, key))
  }

  lemma PurchaseIsPaid(settings: Settings, s: Maps, b: Book, r: ExecutionReport)
    requires IntentsFit(s) && FillsLinked(b, s.reports) && WithinEstimate(settings, s)
    requires Replay(settings.startingCash, s.reports, settings.currency) == Ok(b)
    requires r.IsFill() && r.key in s.intents && s.intents[r.key].side == BuySide && OneOrderPerKey(s, r)
    requires FairPurchase(settings, s, b, r) && QuantityIncrement(b, r) >= 0.0
    ensures PaidFrom(settings, s, s.(reports := s.reports + [r]), r.key, CostIncrement(b, r))
  {
    hide Replay, LargestFill, Overspent, OneOrderPerKey;
    PurchaseFigures(settings, s, b, r);
    if Waiting(s, r.key) {
      WaitingPurchaseIsPaid(settings, s, b, r);
    } else {
      NothingIsPaid(s.intents[r.key].referencePrice);
    }
  }

  lemma WaitingPurchaseIsPaid(settings: Settings, s: Maps, b: Book, r: ExecutionReport)
    requires WithinEstimate(settings, s) && r.key in s.intents && s.intents[r.key].side == BuySide
    requires FairPurchase(settings, s, b, r) && QuantityIncrement(b, r) >= 0.0 && Waiting(s, r.key)
    requires Filled(s.reports + [r], r.key) == Filled(s.reports, r.key) + QuantityIncrement(b, r) == r.fillQuantity
    requires Overspent(settings, s.intents[r.key], s.reports + [r]) == Overspent(settings, s.intents[r.key], s.reports)
               + Excess(CostIncrement(b, r), QuantityIncrement(b, r), s.intents[r.key].referencePrice)
    ensures PaidFrom(settings, s, s.(reports := s.reports + [r]), r.key, CostIncrement(b, r))
  {
    hide Replay, LargestFill, Overspent, OneOrderPerKey, FillsLinked;
    var i := s.intents[r.key];
    IncrementIsPaid(i.quantity, Filled(s.reports, r.key), QuantityIncrement(b, r), i.referencePrice,
                    s.estimates[r.key] - Overspent(settings, i, s.reports), CostIncrement(b, r));
  }

  /** A report concerns no other key. */
  lemma OtherKeysUnchanged(settings: Settings, s: Maps, b: Book, r: ExecutionReport, k: Key)
    requires IntentsFit(s) && FillsLinked(b, s.reports) && k in s.intents && (r.IsFill() ==> k != r.key)
    requires Replay(settings.startingCash, s.reports, settings.currency) == Ok(b)
    requires r.IsFill() ==> OneOrderPerKey(s, r) && QuantityIncrement(b, r) >= 0.0
    ensures var t := s.(reports := s.reports + [r]);
            && Filled(t.reports, k) == Filled(s.reports, k)
            && Overspent(settings, s.intents[k], t.reports) == Overspent(settings, s.intents[k], s.reports)
            && Commitment(settings, t, k) == Commitment(settings, s, k)
  {
    hide Replay, LargestFill, Overspent, Due, MapSum.Get;
    LargestFillAppend(s.reports, r, k);
    OverspentAppend(settings, s.intents[k], s.reports, r);
  }

  /** A fair report fails to replay for want of shares only. */
  lemma OnlySharesCanBeMissing(settings: Settings, s: Maps, b: Book, r: ExecutionReport)
    requires ReportsFit(s) && Replay(settings.startingCash, s.reports, settings.currency) == Ok(b)
    requires FairReport(settings, s, b, r) && r.reportId !in s.reportIds
    ensures r.reportId !in b.seen
    ensures Step(b, r, settings.currency).Err? <==>
              && r.IsFill() && r.side == SellSide && QuantityIncrement(b, r) > 0.0
              && (r.symbol in b.positions ==> QuantityIncrement(b, r) > b.positions[r.symbol].quantity)
    ensures Step(b, r, settings.currency).Err? ==> Step(b, r, settings.currency) == Err(ShortPosition)
  {
    hide Replay, ExecutionReport.Gross, Bought, Sold, FairPurchase;
    ReplayApplied(settings.startingCash, s.reports, settings.currency);
    SeenIds(s, b);
  }

  /** The books after a fair report, where there are shares for it. */
  lemma StepOfReport(settings: Settings, s: Maps, b: Book, r: ExecutionReport)
    requires ReportsFit(s) && Replay(settings.startingCash, s.reports, settings.currency) == Ok(b)
    requires FairReport(settings, s, b, r) && r.reportId !in s.reportIds && Step(b, r, settings.currency).Ok?
    ensures r.reportId !in b.seen
    ensures var b' := Step(b, r, settings.currency).value;
            && Replay(settings.startingCash, s.reports + [r], settings.currency) == Ok(b')
            && (r.IsFill() ==>
                  && b'.quantity == b.quantity[r.brokerOrderId := r.fillQuantity]
                  && (r.side == BuySide ==> b'.cash == b.cash - CostIncrement(b, r))
                  && (r.side == SellSide ==> b'.cash >= b.cash))
            && (!r.IsFill() ==> b'.quantity == b.quantity && b'.cash == b.cash && b'.positions == b.positions)
  {
    hide Replay, Step, ExecutionReport.Gross, FairPurchase;
    ReplayAppend(settings.startingCash, s.reports, r, settings.currency);
    OnlySharesCanBeMissing(settings, s, b, r);
    if r.IsFill() {
      StepFill(b, r, settings.currency);
    } else {
      StepNothing(b, r, settings.currency);
    }
  }

  lemma WithinAfterReport(settings: Settings, s: Maps, b: Book, r: ExecutionReport)
    requires IntentsFit(s) && FillsLinked(b, s.reports) && WithinEstimate(settings, s)
    requires Replay(settings.startingCash, s.reports, settings.currency) == Ok(b)
    requires FairReport(settings, s, b, r)
    requires r.IsFill() ==> QuantityIncrement(b, r) >= 0.0
    ensures WithinEstimate(settings, s.(reports := s.reports + [r]))
  {
    var t := s.(reports := s.reports + [r]);
    forall k | k in t.intents
      ensures k in t.estimates
      ensures t.intents[k].side == BuySide ==> Filled(t.reports, k) <= t.intents[k].quantity
      ensures Waiting(t, k) ==> Overspent(settings, t.intents[k], t.reports) <= t.estimates[k]
    {
      if r.IsFill() && k == r.key {
        if t.intents[k].side == BuySide {
          PurchaseIsPaid(settings, s, b, r);
        }
      } else {
        OtherKeysUnchanged(settings, s, b, r, k);
      }
    }
  }

  lemma PaidCommitments(settings: Settings, s: Maps, t: Maps, key: Key, cost: real)
    requires key in s.intents && t.intents == s.intents && t.machines == s.machines
    requires PaidFrom(settings, s, t, key, cost)
    ensures MapSum.Get(Commitments(settings, s), key) - MapSum.Get(Commitments(settings, t), key) >= cost
  {
  }

  lemma CoveredAfterReport(settings: Settings, s: Maps, b: Book, r: ExecutionReport, cash: real)
    requires IntentsFit(s) && FillsLinked(b, s.reports) && WithinEstimate(settings, s) && Covered(settings, s, b)
    requires Replay(settings.startingCash, s.reports, settings.currency) == Ok(b)
    requires FairReport(settings, s, b, r)
    requires r.IsFill() ==> QuantityIncrement(b, r) >= 0.0
    requires if r.IsFill() && r.side == BuySide then cash == b.cash - CostIncrement(b, r) else cash >= b.cash
    ensures cash >= MapSum.Sum(Commitments(settings, s.(reports := s.reports + [r])))
  {
    hide Replay, MapSum.Sum, Commitment, FillsLinked, IntentsFit, WithinEstimate, FairPurchase, OneOrderPerKey;
    var t := s.(reports := s.reports + [r]);
    var c, d := Commitments(settings, s), Commitments(settings, t);
    assert c.Keys == d.Keys;
    forall k | k in c && !(r.IsFill() && k == r.key)
      ensures d[k] == c[k]
    {
      OtherKeysUnchanged(settings, s, b, r, k);
    }
    if r.IsFill() {
      MapSum.ChangedAt(c, d, r.key);
      if r.side == BuySide {
        PurchaseIsPaid(settings, s, b, r);
        PaidCommitments(settings, s, t, r.key, CostIncrement(b, r));
      }
    } else {
      assert c == d;
    }
  }

  lemma SolventAfterReport(settings: Settings, s: Maps, r: ExecutionReport)
    requires Structured(s) && Solvent(settings, s) && r.reportId !in s.reportIds
             && FairNext(settings, s, BrokerReport(r))
    ensures Solvent(settings, Recorded(s, r))
  {
    hide Replay, Step, CashCovers, FairReport;
    var before := Replay(settings.startingCash, s.reports, settings.currency);
    ReplayAppend(settings.startingCash, s.reports, r, settings.currency);
    if before.Ok? {
      OnlySharesCanBeMissing(settings, s, before.value, r);
      if Step(before.value, r, settings.currency).Ok? {
        CashAfterReport(settings, s, before.value, r);
      }
    }
  }

  lemma CashAfterReport(settings: Settings, s: Maps, b: Book, r: ExecutionReport)
    requires Structured(s) && CashCovers(settings, s, b) && r.reportId !in s.reportIds
    requires Replay(settings.startingCash, s.reports, settings.currency) == Ok(b)
    requires FairReport(settings, s, b, r) && Step(b, r, settings.currency).Ok?
    ensures CashCovers(settings, Recorded(s, r), Step(b, r, settings.currency).value)
  {
    hide Replay, Step, MapSum.Sum, Overspent, LargestFill;
    StepOfReport(settings, s, b, r);
    var b' := Step(b, r, settings.currency).value;
    var t := s.(reports := s.reports + [r]);
    if r.IsFill() {
      LinkedAfterFill(b, b', s, r);
    } else {
      LinkedAfterOther(b, b', s.reports, r);
    }
    WithinAfterReport(settings, s, b, r);
    CoveredAfterReport(settings, s, b, r, b'.cash);
    SameBooks(settings, t, Recorded(s, r), b');
  }

  /** The cash side is about orders, machines, reports and estimates only. */
  lemma SameBooks(settings: Settings, s: Maps, t: Maps, b: Book)
    requires t.reports == s.reports && t.intents == s.intents && t.machines == s.machines && t.estimates == s.estimates
    ensures CashCovers(settings, t, b) <==> CashCovers(settings, s, b)
  {
    hide MapSum.Sum, Replay, Overspent, LargestFill, Commitments, FillsLinked;
    SameCommitments(settings, s, t);
  }

  lemma SameCommitments(settings: Settings, s: Maps, t: Maps)
    requires t.reports == s.reports && t.intents == s.intents && t.machines == s.machines && t.estimates == s.estimates
    ensures Commitments(settings, t) == Commitments(settings, s)
  {
    hide Replay, Overspent, LargestFill;
  }

  // ----- An order is opened, moves, or is proposed again

  /** The risk engine's cash test, at the moment the order is opened. */
  ghost predicate Funded(settings: Settings, s: Maps, b: Book, i: OrderIntent) {
    i.side == BuySide ==>
      Reserved(s).Ok? && i.notional + MapSum.Get(s.estimates, i.key) <= Spendable(b.cash, Reserved(s).value)
  }

  lemma NoReportsNoCost(settings: Settings, i: OrderIntent, reports: seq<ExecutionReport>)
    requires forall r :: r in reports ==> r.key != i.key
    ensures Overspent(settings, i, reports) == 0.0
  {
    if reports != [] {
      assert reports[|reports| - 1] in reports;
      NoReportsNoCost(settings, i, reports[..|reports| - 1]);
    }
  }

  lemma CashAfterIntent(settings: Settings, s: Maps, b: Book, i: OrderIntent)
    requires Structured(s) && CashCovers(settings, s, b) && i.WellFormed()
    requires i.key !in s.intents && i.intentId !in s.machines
    requires forall r :: r in s.reports ==> r.key != i.key
    requires i.key in s.estimates && s.estimates[i.key] >= 0.0 && Funded(settings, s, b, i)
    ensures CashCovers(settings, Opened(s, i), b)
  {
    hide MapSum.Sum, Commitment, Replay, LargestFill, WithinEstimate, FillsLinked, Commitments, Overspent;
    NoReportsNoFill(s.reports, i.key);
    NoReportsNoCost(settings, i, s.reports);
    WithinAfterIntent(settings, s, i);
    CommitmentsNonNegative(settings, s);
    CommitmentsAfterIntent(settings, s, i);
  }

  lemma WithinAfterIntent(settings: Settings, s: Maps, i: OrderIntent)
    requires IntentsFit(s) && WithinEstimate(settings, s) && i.WellFormed()
    requires i.key !in s.intents && i.intentId !in s.machines
    requires i.key in s.estimates && s.estimates[i.key] >= 0.0
    requires Filled(s.reports, i.key) == 0.0 && Overspent(settings, i, s.reports) == 0.0
    ensures WithinEstimate(settings, Opened(s, i))
  {
    hide Replay, LargestFill, Overspent;
  }

  lemma CommitmentsAfterIntent(settings: Settings, s: Maps, i: OrderIntent)
    requires i.WellFormed() && i.key !in s.intents && i.intentId !in s.machines
    requires Filled(s.reports, i.key) == 0.0 && Overspent(settings, i, s.reports) == 0.0
    ensures MapSum.Sum(Commitments(settings, Opened(s, i))) == MapSum.Sum(Commitments(settings, s)) +
              if i.side == BuySide then i.notional + MapSum.Get(s.estimates, i.key) else 0.0
  {
    hide Commitment, MapSum.Sum, Replay, Overspent, LargestFill;
    var t := Opened(s, i);
    var c, d := Commitments(settings, s), Commitments(settings, t);
    forall k | k in c
      ensures k in d && d[k] == c[k]
    {
      SameCommitment(settings, s, t, k);
    }
    assert d.Keys - {i.key} == c.Keys - {i.key};
    MapSum.ChangedAt(c, d, i.key);
    FirstCommitment(settings, t, i);
  }

  lemma SameCommitment(settings: Settings, s: Maps, t: Maps, k: Key)
    requires k in s.intents && k in t.intents && s.intents[k] == t.intents[k] && s.reports == t.reports
    requires MapSum.Get(s.estimates, k) == MapSum.Get(t.estimates, k)
    ensures Commitment(settings, s, k) == Commitment(settings, t, k)
  {
  }

  lemma FirstCommitment(settings: Settings, t: Maps, i: OrderIntent)
    requires i.key in t.intents && t.intents[i.key] == i && i.WellFormed()
    requires Filled(t.reports, i.key) == 0.0 && Overspent(settings, i, t.reports) == 0.0
    ensures Commitment(settings, t, i.key) == i.notional + MapSum.Get(t.estimates, i.key)
  {
  }

  lemma CashAfterMove(settings: Settings, s: Maps, b: Book, o: string, to: OrderStatus)
    requires Structured(s) && CashCovers(settings, s, b) && to in Allowed(s.Status(o))
    ensures CashCovers(settings, s.(machines := s.machines[o := to]), b)
  {
    hide Replay, MapSum.Sum, Overspent, LargestFill, OpenBuy;
    var t := s.(machines := s.machines[o := to]);
    CommitmentsNonNegative(settings, s);
    CommitmentsAfterMove(settings, s, o, to);
    forall k | k in s.intents
      ensures OpenBuy(t, k) ==> OpenBuy(s, k)
    {
      OpenBuyAfterMove(s, o, to, k);
    }
  }

  /** An order that becomes terminal releases its commitment; no other order is concerned. */
  lemma CommitmentsAfterMove(settings: Settings, s: Maps, o: string, to: OrderStatus)
    requires IdsDistinct(s) && to in Allowed(s.Status(o))
    requires forall k :: k in Commitments(settings, s) ==> Commitments(settings, s)[k] >= 0.0
    ensures MapSum.Sum(Commitments(settings, s.(machines := s.machines[o := to])))
            <= MapSum.Sum(Commitments(settings, s))
  {
    hide Commitment, MapSum.Sum, OpenBuy;
    var t := s.(machines := s.machines[o := to]);
    var c, d := Commitments(settings, s), Commitments(settings, t);
    forall k | k in s.intents
      ensures OpenBuy(t, k) ==> OpenBuy(s, k)
      ensures s.intents[k].intentId != o ==> OpenBuy(t, k) == OpenBuy(s, k)
    {
      OpenBuyAfterMove(s, o, to, k);
    }
    forall k | k in d
      ensures k in c && d[k] == c[k]
    {
      SameCommitment(settings, s, t, k);
    }
    if k :| k in c && k !in d {
      assert forall j :: j in c && j != k ==> j in d;
      MapSum.ChangedAt(c, d, k);
    } else {
      assert d == c;
    }
  }

  lemma OpenBuyAfterMove(s: Maps, o: string, to: OrderStatus, k: Key)
    requires k in s.intents && to in Allowed(s.Status(o))
    ensures OpenBuy(s.(machines := s.machines[o := to]), k) ==> OpenBuy(s, k)
    ensures s.intents[k].intentId != o ==> OpenBuy(s.(machines := s.machines[o := to]), k) == OpenBuy(s, k)
  {
  }

  /** Only a waiting order's commitment follows its estimate. */
  lemma CommitmentsAfterProposal(settings: Settings, s: Maps, p: TradeProposal)
    requires forall k :: Waiting(s, k) ==> k in s.estimates
    ensures MapSum.Sum(Commitments(settings, WithEstimate(s, p)))
            == MapSum.Sum(Commitments(settings, s))
               + if Waiting(s, p.key) then p.EstimatedCost() - s.estimates[p.key] else 0.0
  {
    hide Commitment, MapSum.Sum, Replay, Overspent, LargestFill;
    var t := WithEstimate(s, p);
    var c, d := Commitments(settings, s), Commitments(settings, t);
    forall k | k in c && k != p.key
      ensures d[k] == c[k]
    {
      SameCommitment(settings, s, t, k);
    }
    assert c.Keys == d.Keys;
    MapSum.ChangedAt(c, d, p.key);
    if p.key in c {
      CommitmentFollowsEstimate(settings, s, p);
    }
  }

  lemma CommitmentFollowsEstimate(settings: Settings, s: Maps, p: TradeProposal)
    requires p.key in s.intents && OpenBuy(s, p.key) && (Waiting(s, p.key) ==> p.key in s.estimates)
    ensures Commitment(settings, WithEstimate(s, p), p.key)
            == Commitment(settings, s, p.key)
               + if Waiting(s, p.key) then p.EstimatedCost() - s.estimates[p.key] else 0.0
  {
    hide Overspent, LargestFill, Replay;
  }

  /** The cover survives a proposal if and only if the growth of a waiting order's estimate fits into the slack. */
  lemma CoverAfterProposal(settings: Settings, s: Maps, b: Book, p: TradeProposal)
    requires forall k :: Waiting(s, k) ==> k in s.estimates
    ensures Covered(settings, WithEstimate(s, p), b)
            <==> (if Waiting(s, p.key) then p.EstimatedCost() - s.estimates[p.key] else 0.0) <= Slack(settings, s, b)
  {
    hide Commitments, MapSum.Sum;
    CommitmentsAfterProposal(settings, s, p);
  }

  /** And the whole cash side survives it if and only if the re-use fits. */
  lemma CashAfterProposal(settings: Settings, s: Maps, b: Book, p: TradeProposal)
    requires CashCovers(settings, s, b) && p.Valid()
    ensures CashCovers(settings, WithEstimate(s, p), b) <==> ReuseFits(settings, s, b, p)
  {
    hide Commitments, MapSum.Sum, Replay, Overspent, LargestFill;
    var t := WithEstimate(s, p);
    CoverAfterProposal(settings, s, b, p);
    forall k | k in s.intents
      ensures Waiting(t, k) == Waiting(s, k)
    {
    }
    if Waiting(s, p.key) {
      assert p.key in t.intents;
    }
  }

  /** In particular, the same estimate always fits, and so does any estimate for an order that waits for nothing. */
  lemma HarmlessReuse(settings: Settings, s: Maps, b: Book, p: TradeProposal)
    requires WithinEstimate(settings, s) && Covered(settings, s, b)
    requires Waiting(s, p.key) ==> s.estimates[p.key] == p.EstimatedCost()
    ensures ReuseFits(settings, s, b, p)
  {
    hide MapSum.Sum, Commitments, Overspent;
  }

  // ----- The whole run

  lemma SameOrder(p: TradeProposal, held: real, a: string, b: string)
    requires OrderFor(p, held, a).Ok? && OrderFor(p, held, a).value.Some?
    ensures OrderFor(p, held, b).Ok? && OrderFor(p, held, b).value.Some?
    ensures OrderFor(p, held, b).value.value == OrderFor(p, held, a).value.value.(intentId := b)
  {
  }

  /** What an approval says about the order it approves, whatever identifier the order gets. */
  lemma ApprovedIsFunded(settings: Settings, s: Maps, mode: ExperimentMode, p: TradeProposal, d: RiskDecision,
                         i: OrderIntent)
    requires Decidable(settings, s, mode, p, d) && d.approved && Derive(settings, s, p, i.intentId) == Ok(Some(i))
    requires p.key in s.estimates && s.estimates[p.key] == p.EstimatedCost()
    requires Replay(settings.startingCash, s.reports, settings.currency).Ok?
    ensures Funded(settings, s, Replay(settings.startingCash, s.reports, settings.currency).value, i)
  {
    var env: Env :| Decide(settings, s, mode, p, env).Ok? && Decide(settings, s, mode, p, env).value.decision == d;
    var portfolio := Authorized(settings, s.reports).value;
    SameOrder(p, QuantityOf(portfolio.positions, p.symbol), i.intentId, env.intentId);
  }

  lemma OpeningIsFunded(settings: Settings, events: seq<Event>, n: nat)
    requires Legal(settings, events) && n < |events| && events[n].IntentCreated?
    requires Hydrate(events[..n]).Ok?
    requires Replay(settings.startingCash, Hydrate(events[..n]).value.reports, settings.currency).Ok?
    ensures var s, i := Hydrate(events[..n]).value, events[n].intent;
            && (forall r :: r in s.reports ==> r.key != i.key)
            && i.key in s.estimates && s.estimates[i.key] >= 0.0
            && i.key in s.known && i.key !in s.intents && i.intentId !in s.machines && i.WellFormed()
            && Funded(settings, s, Replay(settings.startingCash, s.reports, settings.currency).value, i)
  {
    IntentFollowsApproval(settings, events, n);
    IntentIsNew(settings, events, n);
    assert LegalAt(settings, events, n);
    DecisionFollowsProposal(settings, events, n - 1);
    assert LegalAt(settings, events, n - 2);
    HydrateStep(settings, events, n - 2);
    HydrateStep(settings, events, n - 1);
    LegalPrefix(settings, events, n - 1);
    LegalStructured(settings, events[..n - 1]);
    var s0, s, p := Hydrate(events[..n - 1]).value, Hydrate(events[..n]).value, events[n - 2].proposal;
    assert s == s0.(known := s0.known + {p.key});
    DeriveReadsReports(settings, s0, s, p, events[n].intent.intentId);
    ApprovedIsFunded(settings, s0, RestoredMode(events[..n - 1]), p, events[n - 1].decision, events[n].intent);
    SameReserved(s0, s);
  }

  lemma SameReserved(s: Maps, t: Maps)
    requires t.reports == s.reports && t.intents == s.intents && t.machines == s.machines && t.estimates == s.estimates
    ensures Reserved(s) == Reserved(t)
  {
    var c, d := Reservations(s), Reservations(t);
    forall k | k in c
      ensures k in d && d[k] == c[k]
    {
      assert Reservation(s, k) == Reservation(t, k);
    }
    assert c == d;
    assert Overfilled(s) == Overfilled(t);
  }

  /**
    At every event boundary of a legal ledger with fair reports, cash covers all commitments, unless the ledger can no
    longer be replayed: then shares were sold that are not there.
   */
  lemma {:induction false} AlwaysSolvent(settings: Settings, events: seq<Event>, n: nat)
    requires Legal(settings, events) && Fair(settings, events) && settings.startingCash >= 0.0 && n <= |events|
    ensures Hydrate(events[..n]).Ok? && Structured(Hydrate(events[..n]).value)
            && Solvent(settings, Hydrate(events[..n]).value)
    decreases n
  {
    hide Solvent, FairNext, Structured, Legal;
    LegalPrefix(settings, events, n);
    LegalStructured(settings, events[..n]);
    if n == 0 {
      SolventAtFirst(settings);
    } else {
      AlwaysSolvent(settings, events, n - 1);
      HydrateStep(settings, events, n - 1);
      assert FairAt(settings, events, n - 1);
      if events[n - 1].IntentCreated? {
        SolventAfterOpening(settings, events, n - 1);
      } else {
        LegalFacts(settings, events, n - 1);
        SolventNext(settings, Hydrate(events[..n - 1]).value, events[n - 1]);
      }
    }
  }

  lemma SolventAtFirst(settings: Settings)
    requires settings.startingCash >= 0.0
    ensures Solvent(settings, EMPTY)
  {
    MapSum.Empty<Key>();
    assert Commitments(settings, EMPTY) == map[];
  }

  lemma SolventAfterOpening(settings: Settings, events: seq<Event>, n: nat)
    requires Legal(settings, events) && n < |events| && events[n].IntentCreated?
    requires Hydrate(events[..n]).Ok? && Structured(Hydrate(events[..n]).value)
    requires Solvent(settings, Hydrate(events[..n]).value)
    ensures Solvent(settings, Opened(Hydrate(events[..n]).value, events[n].intent))
  {
    hide Replay, CashCovers, Legal, Structured, Funded;
    var s := Hydrate(events[..n]).value;
    var b := Replay(settings.startingCash, s.reports, settings.currency);
    if b.Ok? {
      OpeningIsFunded(settings, events, n);
      CashAfterIntent(settings, s, b.value, events[n].intent);
    }
  }

  ghost predicate Sound(s: Maps, e: Event) {
    match e
    case ProposalCreated(p) => p.Valid()
    case BrokerReport(r) => r.reportId !in s.reportIds
    case StateTransition(o, _, to) => s.Status(o) == to || to in Allowed(s.Status(o))
    case _ => true
  }

  lemma LegalFacts(settings: Settings, events: seq<Event>, n: nat)
    requires Legal(settings, events) && n < |events|
    ensures Hydrate(events[..n]).Ok? && Sound(Hydrate(events[..n]).value, events[n])
  {
    assert LegalAt(settings, events, n);
  }

  lemma SolventNext(settings: Settings, s: Maps, e: Event)
    requires Structured(s) && Solvent(settings, s) && FairNext(settings, s, e) && Sound(s, e) && !e.IntentCreated?
    ensures Apply(s, e).Ok? && Solvent(settings, Apply(s, e).value)
  {
    hide Replay, CashCovers, Structured, ReuseFits;
    var b := Replay(settings.startingCash, s.reports, settings.currency);
    if e.BrokerReport? {
      SolventAfterReport(settings, s, e.report);
    } else if b.Ok? {
      if e.ProposalCreated? {
        CashAfterProposal(settings, s, b.value, e.proposal);
      } else if e.StateTransition? {
        if s.Status(e.orderId) != e.to {
          CashAfterMove(settings, s, b.value, e.orderId, e.to);
        }
      } else {
        SameBooks(settings, s, Apply(s, e).value, b.value);
      }
    }
  }

  // ----- What follows for the kernel's books

  lemma {:induction false} PricesArePositive(reports: seq<ExecutionReport>)
    ensures forall x :: x in PositiveMarks(reports) ==> PositiveMarks(reports)[x] > 0.0
  {
    if reports != [] {
      PricesArePositive(reports[..|reports| - 1]);
    }
  }

  lemma MarksArePositive(reports: seq<ExecutionReport>)
    ensures forall x :: x in Marks(reports) ==> Marks(reports)[x] > 0.0
  {
    PricesArePositive(reports);
  }

  lemma MarketValueNotNegative(positions: map<Symbol, Position>, marks: map<Symbol, real>)
    requires LongOnly(positions) && positions.Keys <= marks.Keys && forall x :: x in marks ==> marks[x] > 0.0
    ensures MarketValue(positions, marks) >= 0.0
  {
    hide MapSum.Sum;
    var values := map x | x in positions :: positions[x].quantity * marks[x];
    forall x | x in values
      ensures values[x] >= 0.0
    {
      ProductNotNegative(positions[x].quantity, marks[x]);
    }
    MapSum.NonNegative(values);
  }

  /**
    When the kernel can read its books: replayed cash that is not negative can be marked if and only if every held
    symbol has been reported at a positive price.
   */
  lemma BooksAreReadable(settings: Settings, reports: seq<ExecutionReport>)
    requires Replay(settings.startingCash, reports, settings.currency).Ok?
    requires Replay(settings.startingCash, reports, settings.currency).value.cash >= 0.0
    ensures Authorized(settings, reports).Ok?
            <==> Replay(settings.startingCash, reports, settings.currency).value.positions.Keys <= Marks(reports).Keys
    ensures Authorized(settings, reports).Err? ==> Authorized(settings, reports) == Err(MissingPrice)
  {
    hide Marks, MarketValue, MapSum.Sum;
    var b := Replay(settings.startingCash, reports, settings.currency).value;
    MarksArePositive(reports);
    if b.positions.Keys <= Marks(reports).Keys {
      MarketValueNotNegative(b.positions, Marks(reports));
    }
  }

  /**
    Consequences for every legal ledger with fair reports: if it can be replayed, the reservations can be computed,
    cash covers what is committed, and what is available never exceeds the rest; if not, shares were sold that are not
    there.  The portfolio can be read exactly if every held symbol has been reported at a positive price.
   */
  lemma NeverOvercommitted(settings: Settings, events: seq<Event>)
    requires Legal(settings, events) && Fair(settings, events) && settings.startingCash >= 0.0
    ensures Hydrate(events).Ok?
    ensures var s := Hydrate(events).value;
            var b := Replay(settings.startingCash, s.reports, settings.currency);
            if b.Err? then b == Err(ShortPosition)
            else
              && Reserved(s).Ok?
              && b.value.cash >= MapSum.Sum(Commitments(settings, s)) >= 0.0
              && Spendable(b.value.cash, Reserved(s).value) + MapSum.Sum(Commitments(settings, s)) <= b.value.cash
              && (Authorized(settings, s.reports).Ok? <==> b.value.positions.Keys <= Marks(s.reports).Keys)
  {
    hide Legal, Fair, Structured, Replay, Marks, MapSum.Sum, Commitments;
    AlwaysSolvent(settings, events, |events|);
    assert events[..|events|] == events;
    var s := Hydrate(events).value;
    if Replay(settings.startingCash, s.reports, settings.currency).Ok? {
      CommitmentsNonNegative(settings, s);
      BooksAreReadable(settings, s.reports);
    }
  }

  // ----- Re-used keys

  /** A further proposal is always legal; it keeps the cover, and the cash side, exactly if its estimate fits. */
  lemma ReuseKeepsCover(settings: Settings, events: seq<Event>, p: TradeProposal)
    requires Legal(settings, events) && Fair(settings, events) && settings.startingCash >= 0.0 && p.Valid()
    ensures Hydrate(events).Ok? && Hydrate(events + [ProposalCreated(p)]).Ok?
            && Legal(settings, events + [ProposalCreated(p)])
    ensures var s, t := Hydrate(events).value, Hydrate(events + [ProposalCreated(p)]).value;
            var b := Replay(settings.startingCash, s.reports, settings.currency);
            && t.reports == s.reports
            && (b.Ok? ==>
                  && (Waiting(s, p.key) ==> p.key in s.estimates)
                  && (Covered(settings, t, b.value)
                      <==> (if Waiting(s, p.key) then p.EstimatedCost() - s.estimates[p.key] else 0.0)
                           <= Slack(settings, s, b.value))
                  && (CashCovers(settings, t, b.value) <==> ReuseFits(settings, s, b.value, p)))
  {
    hide Legal, Fair, Structured, Replay, Slack, Covered, Overspent, ReuseFits;
    AlwaysSolvent(settings, events, |events|);
    assert events[..|events|] == events;
    Extend(settings, events, ProposalCreated(p));
    var s := Hydrate(events).value;
    var b := Replay(settings.startingCash, s.reports, settings.currency);
    if b.Ok? {
      CoverAfterProposal(settings, s, b.value, p);
      CashAfterProposal(settings, s, b.value, p);
    }
  }

  /** So in every state with a waiting purchase some legal re-use of its key breaks the cover. */
  lemma ReusedKeyBreaksCover(settings: Settings, events: seq<Event>, key: Key) returns (p: TradeProposal)
    requires Legal(settings, events) && Fair(settings, events) && settings.startingCash >= 0.0
    requires Hydrate(events).Ok? && Waiting(Hydrate(events).value, key)
    requires Replay(settings.startingCash, Hydrate(events).value.reports, settings.currency).Ok?
    ensures p.Valid() && p.key == key && Legal(settings, events + [ProposalCreated(p)])
    ensures Hydrate(events + [ProposalCreated(p)]).Ok?
    ensures var t := Hydrate(events + [ProposalCreated(p)]).value;
            Replay(settings.startingCash, t.reports, settings.currency).Ok? &&
            !Covered(settings, t, Replay(settings.startingCash, t.reports, settings.currency).value)
  {
    hide Legal, Fair, Structured, Commitments, MapSum.Sum, Replay, Overspent, Slack, Covered;
    var s := Hydrate(events).value;
    NeverOvercommitted(settings, events);
    AlwaysSolvent(settings, events, |events|);
    assert events[..|events|] == events;
    var b := Replay(settings.startingCash, s.reports, settings.currency).value;
    var slack := b.cash - MapSum.Sum(Commitments(settings, s));
    EstimateCoversSpent(settings, s, b, key);
    p := TradeProposal("again", key, "TEST", BUY, None, None, None, 1.0, 0.0, s.estimates[key] + slack + 1.0, 0.0,
                       settings.currency, None);
    ReuseKeepsCover(settings, events, p);
    SlackIs(settings, s, b);
  }

  lemma SlackIs(settings: Settings, s: Maps, b: Book)
    ensures Slack(settings, s, b) == b.cash - MapSum.Sum(Commitments(settings, s))
  {
  }

  lemma EstimateCoversSpent(settings: Settings, s: Maps, b: Book, key: Key)
    requires CashCovers(settings, s, b) && Waiting(s, key)
    ensures key in s.estimates && s.estimates[key] >= 0.0
  {
    hide Replay, Covered, LargestFill;
    assert Overspent(settings, s.intents[key], s.reports) >= 0.0;
  }
}
