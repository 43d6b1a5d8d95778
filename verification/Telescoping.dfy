/**
  What a successful replay means: the increments telescope, so the book is a function of the last
  fill report of each broker order.  Also: re-delivery is harmless.
 */
module Telescoping {
  import opened Domain
  import opened Reconciler
  import MapSum

  ghost function Ids(reports: seq<ExecutionReport>): set<string> {
    set r | r in reports :: r.reportId
  }

  /** The last first-delivery fill report of every broker order. */
  ghost function LastFill(reports: seq<ExecutionReport>): map<OrderId, ExecutionReport> {
    if reports == [] then map[]
    else
      var init := reports[..|reports| - 1];
      var r := reports[|reports| - 1];
      if r.reportId in Ids(init) || !r.IsFill() then LastFill(init) else LastFill(init)[r.brokerOrderId := r]
  }

  /** A broker order never changes its side or its symbol. */
  ghost predicate OneSided(reports: seq<ExecutionReport>) {
    forall a, b :: a in reports && b in reports && a.IsFill() && b.IsFill() && a.brokerOrderId == b.brokerOrderId
      ==> a.side == b.side && a.symbol == b.symbol
  }

  function CashEffect(r: ExecutionReport): real {
    if r.side == BuySide then -(r.Gross() + r.fee) else r.Gross() - r.fee
  }

  function SignedQuantity(r: ExecutionReport, s: Symbol): real {
    if r.symbol != s then 0.0 else if r.side == BuySide then r.fillQuantity else -r.fillQuantity
  }

  ghost function CashEffects(last: map<OrderId, ExecutionReport>): map<OrderId, real> {
    map o | o in last :: CashEffect(last[o])
  }

  ghost function Quantities(last: map<OrderId, ExecutionReport>, s: Symbol): map<OrderId, real> {
    map o | o in last :: SignedQuantity(last[o], s)
  }

  /** The applied amounts are those of the last fill report of each order. */
  ghost predicate Applied(b: Book, last: map<OrderId, ExecutionReport>) {
    && b.quantity.Keys == b.gross.Keys == b.fee.Keys == last.Keys
    && forall o :: o in last ==>
         b.quantity[o] == last[o].fillQuantity && b.gross[o] == last[o].Gross() && b.fee[o] == last[o].fee
  }

  lemma {:induction false} LastFillIsReported(reports: seq<ExecutionReport>)
    ensures forall o :: o in LastFill(reports) ==>
              LastFill(reports)[o] in reports && LastFill(reports)[o].IsFill()
                && LastFill(reports)[o].brokerOrderId == o
  {
    if reports != [] {
      LastFillIsReported(reports[..|reports| - 1]);
    }
  }

  /** What one first-delivered fill report does to the book. */
  lemma StepFill(b: Book, r: ExecutionReport, currency: string)
    requires LongOnly(b.positions) && r.reportId !in b.seen && r.IsFill() && Step(b, r, currency).Ok?
    ensures var after := Step(b, r, currency).value;
            var o := r.brokerOrderId;
            var dq := r.fillQuantity - MapSum.Get(b.quantity, o);
            var dc := (r.Gross() - MapSum.Get(b.gross, o));
            var df := (r.fee - MapSum.Get(b.fee, o));
            && dq >= 0.0 && dc >= 0.0 && df >= 0.0
            && after.seen == b.seen + {r.reportId}
            && after.quantity == b.quantity[o := r.fillQuantity]
            && after.gross == b.gross[o := r.Gross()]
            && after.fee == b.fee[o := r.fee]
            && after.cash == b.cash + (if r.side == BuySide then -(dc + df) else dc - df)
            && (forall s :: QuantityOf(after.positions, s) == QuantityOf(b.positions, s) +
                  (if s != r.symbol then 0.0 else if r.side == BuySide then dq else -dq))
  {
  }

  /** The cumulative figures of a report have not fallen below what was applied for its order. */
  predicate Cumulative(b: Book, r: ExecutionReport) {
    var o := r.brokerOrderId;
    && r.fillQuantity >= MapSum.Get(b.quantity, o) && r.Gross() >= MapSum.Get(b.gross, o)
    && r.fee >= MapSum.Get(b.fee, o)
  }

  /** A report sells more than its order sold so far, and more than is held. */
  predicate SellsShort(b: Book, r: ExecutionReport) {
    var more := r.fillQuantity - MapSum.Get(b.quantity, r.brokerOrderId);
    r.side == SellSide && more > 0.0 && more > QuantityOf(b.positions, r.symbol)
  }

  /**
    A report raises if and only if it is new and in another currency, or a fill whose figures have fallen or that sells
    what is not held; the first of these, in this order, is the error.
   */
  lemma StepRefuses(b: Book, r: ExecutionReport, currency: string)
    requires LongOnly(b.positions)
    ensures Step(b, r, currency).Err? <==>
              r.reportId !in b.seen
              && (r.currency != currency || (r.IsFill() && (!Cumulative(b, r) || SellsShort(b, r))))
    ensures Step(b, r, currency).Err? ==>
              var o, error := r.brokerOrderId, Step(b, r, currency).error;
              && (error == CurrencyMismatch <==> r.currency != currency)
              && (r.currency == currency ==>
                    && (error == QuantityRegressed <==> r.fillQuantity < MapSum.Get(b.quantity, o))
                    && (error == ShortPosition <==> Cumulative(b, r))
                    && (error == FeeRegressed ==> r.fee < MapSum.Get(b.fee, o))
                    && (error == NotionalRegressed ==> r.Gross() < MapSum.Get(b.gross, o))
                    && error in {QuantityRegressed, NotionalRegressed, FeeRegressed, ShortPosition})
  {
    hide ExecutionReport.Gross, Bought, Sold;
  }

  lemma StepNothing(b: Book, r: ExecutionReport, currency: string)
    requires LongOnly(b.positions) && (r.reportId in b.seen || !r.IsFill()) && Step(b, r, currency).Ok?
    ensures Step(b, r, currency).value == b.(seen := b.seen + {r.reportId})
  {
  }

  lemma {:induction false} ReplayApplied(startingCash: real, reports: seq<ExecutionReport>, currency: string)
    requires Replay(startingCash, reports, currency).Ok?
    ensures var b := Replay(startingCash, reports, currency).value;
            b.seen == Ids(reports) && Applied(b, LastFill(reports))
  {
    if reports != [] {
      var init, r := reports[..|reports| - 1], reports[|reports| - 1];
      ReplayApplied(startingCash, init, currency);
      assert reports == init + [r];
      assert Ids(reports) == Ids(init) + {r.reportId};
      StepApplied(Replay(startingCash, init, currency).value, LastFill(init), r, currency);
    }
  }

  lemma StepApplied(b: Book, last: map<OrderId, ExecutionReport>, r: ExecutionReport, currency: string)
    requires LongOnly(b.positions) && Applied(b, last) && Step(b, r, currency).Ok?
    ensures var after := Step(b, r, currency).value;
            && after.seen == b.seen + {r.reportId}
            && Applied(after, if r.reportId in b.seen || !r.IsFill() then last else last[r.brokerOrderId := r])
  {
    hide Step, ExecutionReport.Gross;
    if r.reportId in b.seen || !r.IsFill() {
      StepNothing(b, r, currency);
    } else {
      StepFill(b, r, currency);
    }
  }

  // ----- One fill: exactly when the sums follow it

  /** The side is the one of the order's previous fill, or that fill was worth nothing. */
  predicate KeepsSide(last: map<OrderId, ExecutionReport>, r: ExecutionReport) {
    var o := r.brokerOrderId;
    o in last ==> last[o].side == r.side || last[o].Gross() == 0.0
  }

  /** Side and symbol are those of the order's previous fill, or that fill was of no shares. */
  predicate KeepsInstrument(last: map<OrderId, ExecutionReport>, r: ExecutionReport) {
    var o := r.brokerOrderId;
    o in last ==> (last[o].side == r.side && last[o].symbol == r.symbol) || last[o].fillQuantity == 0.0
  }

  /** The cash follows the sum over final fills if and only if the order keeps its side. */
  lemma StepCashExactly(b: Book, last: map<OrderId, ExecutionReport>, r: ExecutionReport, currency: string)
    requires LongOnly(b.positions) && Applied(b, last) && r.reportId !in b.seen && r.IsFill()
    requires Step(b, r, currency).Ok?
    ensures Step(b, r, currency).value.cash - b.cash
            == MapSum.Sum(CashEffects(last[r.brokerOrderId := r])) - MapSum.Sum(CashEffects(last))
            <==> KeepsSide(last, r)
  {
    hide Step, MapSum.Sum, ExecutionReport.Gross;
    var o := r.brokerOrderId;
    StepFill(b, r, currency);
    MapSum.Updated(CashEffects(last), o, CashEffect(r));
    assert CashEffects(last[o := r]) == CashEffects(last)[o := CashEffect(r)];
  }

  lemma StepHeldExactly(b: Book, last: map<OrderId, ExecutionReport>, r: ExecutionReport, currency: string, s: Symbol)
    requires LongOnly(b.positions) && Applied(b, last) && r.reportId !in b.seen && r.IsFill()
    requires Step(b, r, currency).Ok?
    ensures KeepsInstrument(last, r) ==> HeldFollows(b, last, r, currency, s)
    ensures s == r.symbol && HeldFollows(b, last, r, currency, s) ==> KeepsInstrument(last, r)
  {
    hide Step, MapSum.Sum, ExecutionReport.Gross;
    var o := r.brokerOrderId;
    StepFill(b, r, currency);
    MapSum.Updated(Quantities(last, s), o, SignedQuantity(r, s));
    assert Quantities(last[o := r], s) == Quantities(last, s)[o := SignedQuantity(r, s)];
  }

  ghost predicate HeldFollows(b: Book, last: map<OrderId, ExecutionReport>, r: ExecutionReport, currency: string,
                              s: Symbol)
    requires LongOnly(b.positions) && Step(b, r, currency).Ok?
  {
    QuantityOf(Step(b, r, currency).value.positions, s) - QuantityOf(b.positions, s)
    == MapSum.Sum(Quantities(last[r.brokerOrderId := r], s)) - MapSum.Sum(Quantities(last, s))
  }

  // ----- Whole lists

  /** The report at `n` is a fill delivered for the first time. */
  ghost predicate NewFill(reports: seq<ExecutionReport>, n: nat)
    requires n < |reports|
  {
    reports[n].reportId !in Ids(reports[..n]) && reports[n].IsFill()
  }

  ghost predicate SideKept(reports: seq<ExecutionReport>, n: nat)
    requires n < |reports|
  {
    NewFill(reports, n) ==> KeepsSide(LastFill(reports[..n]), reports[n])
  }

  ghost predicate InstrumentKept(reports: seq<ExecutionReport>, n: nat)
    requires n < |reports|
  {
    NewFill(reports, n) ==> KeepsInstrument(LastFill(reports[..n]), reports[n])
  }

  /** Cash is the start plus the signed final amounts. */
  ghost predicate CashAddsUp(startingCash: real, reports: seq<ExecutionReport>, currency: string)
    requires Replay(startingCash, reports, currency).Ok?
  {
    Replay(startingCash, reports, currency).value.cash == startingCash + MapSum.Sum(CashEffects(LastFill(reports)))
  }

  /** Every holding is the signed sum of final quantities. */
  ghost predicate SharesAddUp(startingCash: real, reports: seq<ExecutionReport>, currency: string)
    requires Replay(startingCash, reports, currency).Ok?
  {
    forall s :: HeldAddsUp(startingCash, reports, currency, s)
  }

  ghost predicate HeldAddsUp(startingCash: real, reports: seq<ExecutionReport>, currency: string, s: Symbol)
    requires Replay(startingCash, reports, currency).Ok?
  {
    QuantityOf(Replay(startingCash, reports, currency).value.positions, s)
    == MapSum.Sum(Quantities(LastFill(reports), s))
  }

  lemma PrefixReplays(startingCash: real, reports: seq<ExecutionReport>, currency: string, n: nat)
    requires Replay(startingCash, reports, currency).Ok? && n <= |reports|
    ensures Replay(startingCash, reports[..n], currency).Ok?
  {
    assert reports == reports[..n] + reports[n..];
    if Replay(startingCash, reports[..n], currency).Err? {
      ReplayFailurePersists(startingCash, reports[..n], reports[n..], currency);
    }
  }

  lemma NothingAddsUp(startingCash: real, currency: string)
    ensures CashAddsUp(startingCash, [], currency) && SharesAddUp(startingCash, [], currency)
  {
    assert CashEffects(LastFill([])) == map[];
    forall s: Symbol
      ensures Quantities(LastFill([]), s) == map[]
    {
    }
  }

  /** One more report: the sums go on holding if and only if the order keeps what it trades. */
  lemma OneMoreReport(startingCash: real, reports: seq<ExecutionReport>, currency: string, n: nat)
    requires Replay(startingCash, reports, currency).Ok? && n < |reports|
    ensures Replay(startingCash, reports[..n], currency).Ok? && Replay(startingCash, reports[..n + 1], currency).Ok?
    ensures CashAddsUp(startingCash, reports[..n], currency) ==>
              (CashAddsUp(startingCash, reports[..n + 1], currency) <==> SideKept(reports, n))
    ensures SharesAddUp(startingCash, reports[..n], currency) ==>
              (SharesAddUp(startingCash, reports[..n + 1], currency) <==> InstrumentKept(reports, n))
  {
    hide Step, KeepsSide, KeepsInstrument, Applied, Replay, LastFill, CashAddsUp, SharesAddUp, Ids;
    PrefixReplays(startingCash, reports, currency, n);
    PrefixReplays(startingCash, reports, currency, n + 1);
    assert reports[..n + 1] == reports[..n] + [reports[n]];
    ReplayAppend(startingCash, reports[..n], reports[n], currency);
    if NewFill(reports, n) {
      if CashAddsUp(startingCash, reports[..n], currency) {
        CashFollows(startingCash, reports[..n], reports[n], currency);
      }
      if SharesAddUp(startingCash, reports[..n], currency) {
        SharesFollow(startingCash, reports[..n], reports[n], currency);
      }
    } else {
      NothingFollows(startingCash, reports[..n], reports[n], currency);
    }
  }

  lemma NothingFollows(startingCash: real, init: seq<ExecutionReport>, r: ExecutionReport, currency: string)
    requires Replay(startingCash, init, currency).Ok? && Replay(startingCash, init + [r], currency).Ok?
    requires r.reportId in Ids(init) || !r.IsFill()
    ensures CashAddsUp(startingCash, init + [r], currency) == CashAddsUp(startingCash, init, currency)
    ensures SharesAddUp(startingCash, init + [r], currency) == SharesAddUp(startingCash, init, currency)
  {
    hide Step, MapSum.Sum;
    ReplayApplied(startingCash, init, currency);
    ReplayAppend(startingCash, init, r, currency);
    StepNothing(Replay(startingCash, init, currency).value, r, currency);
    assert (init + [r])[..|init|] == init;
    assert LastFill(init + [r]) == LastFill(init);
    forall s
      ensures HeldAddsUp(startingCash, init + [r], currency, s) == HeldAddsUp(startingCash, init, currency, s)
    {
    }
  }

  lemma CashFollows(startingCash: real, init: seq<ExecutionReport>, r: ExecutionReport, currency: string)
    requires Replay(startingCash, init, currency).Ok? && Replay(startingCash, init + [r], currency).Ok?
    requires r.reportId !in Ids(init) && r.IsFill() && CashAddsUp(startingCash, init, currency)
    ensures CashAddsUp(startingCash, init + [r], currency) <==> KeepsSide(LastFill(init), r)
  {
    hide Step, MapSum.Sum, KeepsSide;
    ReplayApplied(startingCash, init, currency);
    ReplayAppend(startingCash, init, r, currency);
    StepCashExactly(Replay(startingCash, init, currency).value, LastFill(init), r, currency);
    assert (init + [r])[..|init|] == init;
  }

  lemma SharesFollow(startingCash: real, init: seq<ExecutionReport>, r: ExecutionReport, currency: string)
    requires Replay(startingCash, init, currency).Ok? && Replay(startingCash, init + [r], currency).Ok?
    requires r.reportId !in Ids(init) && r.IsFill() && SharesAddUp(startingCash, init, currency)
    ensures SharesAddUp(startingCash, init + [r], currency) <==> KeepsInstrument(LastFill(init), r)
  {
    hide Step, MapSum.Sum, KeepsInstrument;
    ReplayApplied(startingCash, init, currency);
    ReplayAppend(startingCash, init, r, currency);
    var b, last := Replay(startingCash, init, currency).value, LastFill(init);
    assert (init + [r])[..|init|] == init;
    forall s
      ensures HeldAddsUp(startingCash, init + [r], currency, s) == HeldFollows(b, last, r, currency, s)
      ensures KeepsInstrument(last, r) ==> HeldFollows(b, last, r, currency, s)
      ensures s == r.symbol && HeldFollows(b, last, r, currency, s) ==> KeepsInstrument(last, r)
    {
      assert HeldAddsUp(startingCash, init, currency, s);
      StepHeldExactly(b, last, r, currency, s);
    }
    if SharesAddUp(startingCash, init + [r], currency) {
      assert HeldAddsUp(startingCash, init + [r], currency, r.symbol);
    }
  }

  ghost predicate AlwaysSideKept(reports: seq<ExecutionReport>) {
    forall n: nat :: n < |reports| ==> SideKept(reports, n)
  }

  ghost predicate AlwaysInstrumentKept(reports: seq<ExecutionReport>) {
    forall n: nat :: n < |reports| ==> InstrumentKept(reports, n)
  }

  lemma {:induction false} KeptAddsUp(startingCash: real, reports: seq<ExecutionReport>, currency: string, n: nat)
    requires Replay(startingCash, reports, currency).Ok? && n <= |reports|
    ensures Replay(startingCash, reports[..n], currency).Ok?
    ensures AlwaysSideKept(reports) ==> CashAddsUp(startingCash, reports[..n], currency)
    ensures AlwaysInstrumentKept(reports) ==> SharesAddUp(startingCash, reports[..n], currency)
  {
    hide Replay, LastFill, CashAddsUp, SharesAddUp, SideKept, InstrumentKept;
    if n == 0 {
      NothingAddsUp(startingCash, currency);
      assert reports[..0] == [];
      PrefixReplays(startingCash, reports, currency, 0);
    } else {
      KeptAddsUp(startingCash, reports, currency, n - 1);
      OneMoreReport(startingCash, reports, currency, n - 1);
      assert AlwaysSideKept(reports) ==> SideKept(reports, n - 1);
      assert AlwaysInstrumentKept(reports) ==> InstrumentKept(reports, n - 1);
    }
  }

  /**
    Telescoping, exactly: the sums over final fills hold throughout a successful replay if and only if no new fill
    turns its order around.
   */
  lemma TelescopesExactly(startingCash: real, reports: seq<ExecutionReport>, currency: string)
    requires Replay(startingCash, reports, currency).Ok?
    ensures forall n :: 0 <= n <= |reports| ==> Replay(startingCash, reports[..n], currency).Ok?
    ensures (forall n :: 0 <= n <= |reports| ==> CashAddsUp(startingCash, reports[..n], currency))
            <==> AlwaysSideKept(reports)
    ensures (forall n :: 0 <= n <= |reports| ==> SharesAddUp(startingCash, reports[..n], currency))
            <==> AlwaysInstrumentKept(reports)
  {
    hide Replay, LastFill, CashAddsUp, SharesAddUp, SideKept, InstrumentKept;
    forall n | 0 <= n <= |reports|
      ensures Replay(startingCash, reports[..n], currency).Ok?
      ensures AlwaysSideKept(reports) ==> CashAddsUp(startingCash, reports[..n], currency)
      ensures AlwaysInstrumentKept(reports) ==> SharesAddUp(startingCash, reports[..n], currency)
    {
      KeptAddsUp(startingCash, reports, currency, n);
    }
    if forall n :: 0 <= n <= |reports| ==> CashAddsUp(startingCash, reports[..n], currency) {
      forall n: nat | n < |reports|
        ensures SideKept(reports, n)
      {
        OneMoreReport(startingCash, reports, currency, n);
      }
    }
    if forall n :: 0 <= n <= |reports| ==> SharesAddUp(startingCash, reports[..n], currency) {
      forall n: nat | n < |reports|
        ensures InstrumentKept(reports, n)
      {
        OneMoreReport(startingCash, reports, currency, n);
      }
    }
  }

  /** Telescoping: with one side and symbol per order, cash and every holding are sums over final fills. */
  lemma ReplayTelescopes(startingCash: real, reports: seq<ExecutionReport>, currency: string)
    requires OneSided(reports) && Replay(startingCash, reports, currency).Ok?
    ensures var b := Replay(startingCash, reports, currency).value;
            && b.cash == startingCash + MapSum.Sum(CashEffects(LastFill(reports)))
            && (forall s :: QuantityOf(b.positions, s) == MapSum.Sum(Quantities(LastFill(reports), s)))
  {
    hide Replay, LastFill, MapSum.Sum;
    forall n: nat | n < |reports|
      ensures SideKept(reports, n) && InstrumentKept(reports, n)
    {
      LastFillIsReported(reports[..n]);
    }
    KeptAddsUp(startingCash, reports, currency, |reports|);
    assert reports[..|reports|] == reports;
    forall s
      ensures QuantityOf(Replay(startingCash, reports, currency).value.positions, s)
              == MapSum.Sum(Quantities(LastFill(reports), s))
    {
      assert HeldAddsUp(startingCash, reports, currency, s);
    }
  }

  /** Delivering a report again, at any later point, changes nothing. */
  lemma {:induction false} RedeliveryIsHarmless(startingCash: real, before: seq<ExecutionReport>,
                                                again: ExecutionReport,
                                                after: seq<ExecutionReport>, currency: string)
    requires again.reportId in Ids(before)
    ensures Replay(startingCash, before + [again] + after, currency) == Replay(startingCash, before + after, currency)
  {
    if after == [] {
      assert before + [again] + after == before + [again] && before + after == before;
      ReplayAppend(startingCash, before, again, currency);
      if Replay(startingCash, before, currency).Ok? {
        ReplayApplied(startingCash, before, currency);
      }
    } else {
      var init, r := after[..|after| - 1], after[|after| - 1];
      RedeliveryIsHarmless(startingCash, before, again, init, currency);
      assert before + [again] + after == (before + [again] + init) + [r];
      assert before + after == (before + init) + [r];
      ReplayAppend(startingCash, before + [again] + init, r, currency);
      ReplayAppend(startingCash, before + init, r, currency);
    }
  }

  /** A broker order that turns from buying to selling: the increments no longer add up to its last report. */
  lemma TelescopingNeedsOneSide()
    ensures exists reports: seq<ExecutionReport> ::
              Replay(50.0, reports, "USD").Ok? && !CashAddsUp(50.0, reports, "USD")
  {
    hide Replay, Step, MapSum.Sum, CashAddsUp, SharesAddUp, SideKept, AlwaysInstrumentKept;
    var a := ExecutionReport("r1", "o", "k", "TEST", BuySide, PARTIALLY_FILLED, 1.0, 10.0, 0.0, 0.0, "USD");
    var b := ExecutionReport("r2", "o", "k", "TEST", SellSide, FILLED, 2.0, 10.0, 0.0, 0.0, "USD");
    TurnsAround(a, b);
    SideIsNotKept(a, b);
    TelescopesExactly(50.0, [a, b], "USD");
    var n :| 0 <= n <= 2 && !CashAddsUp(50.0, [a, b][..n], "USD");
  }

  lemma SideIsNotKept(a: ExecutionReport, b: ExecutionReport)
    requires a.IsFill() && b.IsFill() && a.reportId != b.reportId && a.brokerOrderId == b.brokerOrderId
             && a.side != b.side && a.Gross() != 0.0
    ensures !SideKept([a, b], 1)
  {
    assert [a, b][..1] == [a] && [a][..0] == [];
    assert Ids([a]) == {a.reportId};
    assert LastFill([a]) == LastFill([])[a.brokerOrderId := a];
  }

  lemma TurnsAround(a: ExecutionReport, b: ExecutionReport)
    requires a == ExecutionReport("r1", "o", "k", "TEST", BuySide, PARTIALLY_FILLED, 1.0, 10.0, 0.0, 0.0, "USD")
    requires b == ExecutionReport("r2", "o", "k", "TEST", SellSide, FILLED, 2.0, 10.0, 0.0, 0.0, "USD")
    ensures Replay(50.0, [a, b], "USD").Ok?
  {
    ReplayAppend(50.0, [], a, "USD");
    ReplayAppend(50.0, [a], b, "USD");
    assert [] + [a] == [a] && [a] + [b] == [a, b];
    assert Replay(50.0, [a], "USD").value.cash == 40.0;
  }
}
