/**
  The two other readers of broker reports: the expected share quantities used by the restart guard
  (session/runtime_state.py) and the execution metrics (session/observation.py).
  Whenever the portfolio replay succeeds, both succeed and tell the same story.
 */
module RestartViews {
  import opened Wrappers
  import opened Folds
  import opened Domain
  import opened Reconciler
  import opened Telescoping
  import MapSum

  datatype Shares = Shares(quantities: map<Symbol, real>, applied: map<OrderId, real>, seen: set<string>)

  function SharesStep(v: Shares, r: ExecutionReport): Result<Shares, Error> {
    if r.reportId in v.seen then Ok(v)
    else
      var v := v.(seen := v.seen + {r.reportId});
      if !r.IsFill() then Ok(v)
      else
        var previous := MapSum.Get(v.applied, r.brokerOrderId);
        if r.fillQuantity < previous then Err(QuantityRegressed)
        else
          var delta := r.fillQuantity - previous;
          var v := v.(applied := v.applied[r.brokerOrderId := r.fillQuantity]);
          if delta == 0.0 then Ok(v)
          else
            var current := MapSum.Get(v.quantities, r.symbol) + (if r.side == BuySide then delta else -delta);
            if current < 0.0 then Err(ShortPosition)
            else Ok(v.(quantities := if current == 0.0 then v.quantities - {r.symbol}
                                     else v.quantities[r.symbol := current]))
  }

  function SharesReplay(reports: seq<ExecutionReport>): Result<Shares, Error> {
    if reports == [] then Ok(Shares(map[], map[], {}))
    else
      var before :- SharesReplay(reports[..|reports| - 1]);
      SharesStep(before, reports[|reports| - 1])
  }

  lemma SharesFailurePersists(reports: seq<ExecutionReport>, i: nat)
    requires i <= |reports| && SharesReplay(reports[..i]).Err?
    ensures SharesReplay(reports) == SharesReplay(reports[..i])
  {
    PrefixDecides(SharesReplay, (v: Result<Shares, Error>) => v.Err?, reports, i);
  }

  lemma SharesAt(reports: seq<ExecutionReport>, i: nat)
    requires i < |reports| && SharesReplay(reports[..i]).Ok?
    ensures SharesReplay(reports[..i + 1]) == SharesStep(SharesReplay(reports[..i]).value, reports[i])
    ensures SharesReplay(reports[..i + 1]).Err? ==> SharesReplay(reports) == SharesReplay(reports[..i + 1])
  {
    hide SharesStep;
    assert reports[..i + 1][..i] == reports[..i];
    if SharesReplay(reports[..i + 1]).Err? {
      SharesFailurePersists(reports, i + 1);
    }
  }

  lemma NoShares()
    ensures SharesReplay([]) == Ok(Shares(map[], map[], {}))
  {
  }

  /** expected_position_quantities: the loop over the reports, with its three local collections. */
  method ExpectedPositionQuantities(reports: seq<ExecutionReport>) returns (res: Result<map<Symbol, real>, Error>)
    ensures res == match SharesReplay(reports) case Ok(v) => Ok(v.quantities) case Err(e) => Err(e)
  {
    hide SharesReplay;
    NoShares();
    var quantities: map<Symbol, real> := map[];
    var appliedByOrder: map<OrderId, real> := map[];
    var seen: set<string> := {};
    for i := 0 to |reports|
      invariant SharesReplay(reports[..i]) == Ok(Shares(quantities, appliedByOrder, seen))
    {
      var report := reports[i];
      SharesAt(reports, i);
      if report.reportId in seen {
        continue;
      }
      seen := seen + {report.reportId};
      if !report.IsFill() {
        continue;
      }
      var previous := MapSum.Get(appliedByOrder, report.brokerOrderId);
      if report.fillQuantity < previous { return Err(QuantityRegressed); }
      var delta := report.fillQuantity - previous;
      appliedByOrder := appliedByOrder[report.brokerOrderId := report.fillQuantity];
      if delta == 0.0 {
        continue;
      }
      var current := MapSum.Get(quantities, report.symbol);
      if report.side == BuySide {
        current := current + delta;
      } else {
        current := current - delta;
      }
      if current < 0.0 { return Err(ShortPosition); }
      if current == 0.0 {
        quantities := quantities - {report.symbol};
      } else {
        quantities := quantities[report.symbol := current];
      }
    }
    assert reports[..|reports|] == reports;
    return Ok(quantities);
  }

  ghost predicate SameShares(b: Book, v: Shares) {
    && v.seen == b.seen && v.applied == b.quantity
    && v.quantities == map s | s in b.positions :: b.positions[s].quantity
  }

  lemma SharesStepAgrees(b: Book, v: Shares, r: ExecutionReport, currency: string)
    requires LongOnly(b.positions) && SameShares(b, v) && Step(b, r, currency).Ok?
    ensures SharesStep(v, r).Ok? && SameShares(Step(b, r, currency).value, SharesStep(v, r).value)
  {
    if r.reportId !in b.seen && r.IsFill() {
      StepFill(b, r, currency);
      var b', v' := Step(b, r, currency).value, SharesStep(v, r).value;
      forall s: Symbol
        ensures s in v'.quantities <==> s in b'.positions
        ensures s in b'.positions ==> v'.quantities[s] == b'.positions[s].quantity
      {
        assert QuantityOf(b'.positions, s)
               == QuantityOf(b.positions, s)
                  + (if s != r.symbol then 0.0
                     else if r.side == BuySide then r.fillQuantity - MapSum.Get(b.quantity, r.brokerOrderId)
                     else -(r.fillQuantity - MapSum.Get(b.quantity, r.brokerOrderId)));
      }
    }
  }

  /** The restart guard expects exactly the quantities the replayed portfolio holds. */
  lemma {:induction false} ExpectedQuantitiesAgree(startingCash: real, reports: seq<ExecutionReport>, currency: string)
    requires Replay(startingCash, reports, currency).Ok?
    ensures SharesReplay(reports).Ok?
    ensures SameShares(Replay(startingCash, reports, currency).value, SharesReplay(reports).value)
  {
    if reports != [] {
      var init := reports[..|reports| - 1];
      ExpectedQuantitiesAgree(startingCash, init, currency);
      SharesStepAgrees(Replay(startingCash, init, currency).value, SharesReplay(init).value, reports[|reports| - 1],
                       currency);
    }
  }

  /** The expected quantities refuse exactly falling quantities and sales of what is not held. */
  lemma SharesRefuse(b: Book, v: Shares, r: ExecutionReport)
    requires LongOnly(b.positions) && SameShares(b, v)
    ensures SharesStep(v, r).Err? <==>
              r.reportId !in b.seen && r.IsFill()
              && (r.fillQuantity < MapSum.Get(b.quantity, r.brokerOrderId) || SellsShort(b, r))
    ensures SharesStep(v, r).Err? ==>
              SharesStep(v, r).error == if SellsShort(b, r) then ShortPosition else QuantityRegressed
  {
    assert MapSum.Get(v.quantities, r.symbol) == QuantityOf(b.positions, r.symbol);
  }

  datatype Finals = Finals(
    quantity: map<OrderId, real>,
    gross: map<OrderId, real>,
    fee: map<OrderId, real>,
    slippage: map<OrderId, real>,
    seen: set<string>)

  function FinalsStep(f: Finals, r: ExecutionReport): Result<Finals, Error> {
    if r.reportId in f.seen then Ok(f)
    else
      var f := f.(seen := f.seen + {r.reportId});
      var o := r.brokerOrderId;
      if !r.IsFill() then Ok(f)
      else if r.fillQuantity < MapSum.Get(f.quantity, o) then Err(QuantityRegressed)
      else if r.Gross() < MapSum.Get(f.gross, o) then Err(NotionalRegressed)
      else if r.fee < MapSum.Get(f.fee, o) then Err(FeeRegressed)
      else Ok(f.(quantity := f.quantity[o := r.fillQuantity], gross := f.gross[o := r.Gross()],
                 fee := f.fee[o := r.fee], slippage := f.slippage[o := r.slippage]))
  }

  function FinalsReplay(reports: seq<ExecutionReport>): Result<Finals, Error> {
    if reports == [] then Ok(Finals(map[], map[], map[], map[], {}))
    else
      var before :- FinalsReplay(reports[..|reports| - 1]);
      FinalsStep(before, reports[|reports| - 1])
  }

  datatype Metrics = Metrics(turnover: real, fees: real, slippage: real, filledOrders: nat)

  ghost function ExecutionMetrics(reports: seq<ExecutionReport>): Result<Metrics, Error> {
    var f :- FinalsReplay(reports);
    Ok(Metrics(MapSum.Sum(f.gross), MapSum.Sum(f.fee), MapSum.Sum(f.slippage),
               |set o | o in f.quantity && f.quantity[o] > 0.0|))
  }

  lemma FinalsFailurePersists(reports: seq<ExecutionReport>, i: nat)
    requires i <= |reports| && FinalsReplay(reports[..i]).Err?
    ensures FinalsReplay(reports) == FinalsReplay(reports[..i])
  {
    PrefixDecides(FinalsReplay, (v: Result<Finals, Error>) => v.Err?, reports, i);
  }

  method SumValues(m: map<OrderId, real>) returns (total: real)
    ensures total == MapSum.Sum(m)
  {
    total := 0.0;
    var rest := m;
    while rest != map[]
      invariant total + MapSum.Sum(rest) == MapSum.Sum(m)
      decreases |rest|
    {
      var o :| o in rest;
      MapSum.Take(rest, o);
      total := total + rest[o];
      rest := rest - {o};
    }
  }

  /** _execution_metrics: the loop over the reports, then the totals over the four dictionaries. */
  method ComputeExecutionMetrics(reports: seq<ExecutionReport>) returns (res: Result<Metrics, Error>)
    ensures res == ExecutionMetrics(reports)
  {
    var f := Finals(map[], map[], map[], map[], {});
    for i := 0 to |reports|
      invariant FinalsReplay(reports[..i]) == Ok(f)
    {
      var report := reports[i];
      assert reports[..i + 1][..i] == reports[..i];
      if FinalsReplay(reports[..i + 1]).Err? {
        FinalsFailurePersists(reports, i + 1);
      }
      if report.reportId in f.seen {
        continue;
      }
      f := f.(seen := f.seen + {report.reportId});
      if !report.IsFill() {
        continue;
      }
      var o := report.brokerOrderId;
      if report.fillQuantity < MapSum.Get(f.quantity, o) { return Err(QuantityRegressed); }
      if report.Gross() < MapSum.Get(f.gross, o) { return Err(NotionalRegressed); }
      if report.fee < MapSum.Get(f.fee, o) { return Err(FeeRegressed); }
      f := f.(quantity := f.quantity[o := report.fillQuantity], gross := f.gross[o := report.Gross()],
              fee := f.fee[o := report.fee], slippage := f.slippage[o := report.slippage]);
    }
    assert reports[..|reports|] == reports;
    var turnover := SumValues(f.gross);
    var fees := SumValues(f.fee);
    var slippage := SumValues(f.slippage);
    var filled := set o | o in f.quantity && f.quantity[o] > 0.0;
    return Ok(Metrics(turnover, fees, slippage, |filled|));
  }

  /** The same four dictionaries and the same reports seen. */
  ghost predicate Agree(f: Finals, b: Book) {
    f.seen == b.seen && f.quantity == b.quantity && f.gross == b.gross && f.fee == b.fee
  }

  lemma StepsAgree(f: Finals, b: Book, r: ExecutionReport, currency: string)
    requires Agree(f, b) && LongOnly(b.positions) && Step(b, r, currency).Ok?
    ensures FinalsStep(f, r).Ok? && Agree(FinalsStep(f, r).value, Step(b, r, currency).value)
  {
    hide Step, ExecutionReport.Gross, MapSum.Get, QuantityOf;
    if r.reportId !in b.seen && r.IsFill() {
      StepFill(b, r, currency);
    } else {
      StepNothing(b, r, currency);
    }
  }

  lemma {:induction false} FinalsAgree(startingCash: real, reports: seq<ExecutionReport>, currency: string)
    requires Replay(startingCash, reports, currency).Ok?
    ensures FinalsReplay(reports).Ok?
    ensures Agree(FinalsReplay(reports).value, Replay(startingCash, reports, currency).value)
  {
    hide Step, FinalsStep;
    if reports != [] {
      var before := reports[..|reports| - 1];
      FinalsAgree(startingCash, before, currency);
      StepsAgree(FinalsReplay(before).value, Replay(startingCash, before, currency).value, reports[|reports| - 1],
                 currency);
    }
  }

  /** The metrics refuse exactly falling figures. */
  lemma FinalsRefuse(f: Finals, b: Book, r: ExecutionReport)
    requires Agree(f, b)
    ensures FinalsStep(f, r).Err? <==> r.reportId !in b.seen && r.IsFill() && !Cumulative(b, r)
    ensures FinalsStep(f, r).Err? ==>
              var error, o := FinalsStep(f, r).error, r.brokerOrderId;
              && (error == QuantityRegressed <==> r.fillQuantity < MapSum.Get(b.quantity, o))
              && (error == FeeRegressed <==>
                    r.fillQuantity >= MapSum.Get(b.quantity, o) && r.Gross() >= MapSum.Get(b.gross, o))
              && error in {QuantityRegressed, NotionalRegressed, FeeRegressed}
  {
    hide ExecutionReport.Gross;
  }

  /** The four dictionaries of the metrics show the last fill of every order. */
  ghost predicate ShowsLast(f: Finals, last: map<OrderId, ExecutionReport>) {
    && f.quantity.Keys == f.gross.Keys == f.fee.Keys == f.slippage.Keys == last.Keys
    && forall o :: o in last ==>
         && f.quantity[o] == last[o].fillQuantity && f.gross[o] == last[o].Gross()
         && f.fee[o] == last[o].fee && f.slippage[o] == last[o].slippage
  }

  lemma FinalShowsLast(f: Finals, last: map<OrderId, ExecutionReport>, r: ExecutionReport)
    requires ShowsLast(f, last) && FinalsStep(f, r).Ok?
    ensures FinalsStep(f, r).value.seen == f.seen + {r.reportId}
    ensures ShowsLast(FinalsStep(f, r).value,
                      if r.reportId in f.seen || !r.IsFill() then last else last[r.brokerOrderId := r])
  {
    hide ExecutionReport.Gross;
  }

  lemma LastFillAppend(reports: seq<ExecutionReport>, r: ExecutionReport)
    ensures Ids(reports + [r]) == Ids(reports) + {r.reportId}
    ensures LastFill(reports + [r]) == if r.reportId in Ids(reports) || !r.IsFill() then LastFill(reports)
                                       else LastFill(reports)[r.brokerOrderId := r]
  {
    assert (reports + [r])[..|reports|] == reports;
  }

  lemma {:induction false} FinalsShowLast(reports: seq<ExecutionReport>)
    requires FinalsReplay(reports).Ok?
    ensures FinalsReplay(reports).value.seen == Ids(reports)
    ensures ShowsLast(FinalsReplay(reports).value, LastFill(reports))
  {
    hide FinalsStep, ShowsLast;
    if reports == [] {
      NothingShown();
    } else {
      var front, r := reports[..|reports| - 1], reports[|reports| - 1];
      FinalsShowLast(front);
      assert reports == front + [r];
      LastFillAppend(front, r);
      FinalShowsLast(FinalsReplay(front).value, LastFill(front), r);
    }
  }

  lemma NothingShown()
    ensures ShowsLast(Finals(map[], map[], map[], map[], {}), map[])
  {
  }

  /**
    The metrics are totals over the last fill of every order: its amount, its fee and its slippage; and an order counts
    as filled if its last fill is of any shares.
   */
  lemma MetricsAreTotals(reports: seq<ExecutionReport>)
    requires ExecutionMetrics(reports).Ok?
    ensures var m, last := ExecutionMetrics(reports).value, LastFill(reports);
            && m.turnover == MapSum.Sum(map o | o in last :: last[o].Gross())
            && m.fees == MapSum.Sum(map o | o in last :: last[o].fee)
            && m.slippage == MapSum.Sum(map o | o in last :: last[o].slippage)
            && m.filledOrders == |set o | o in last && last[o].fillQuantity > 0.0|
  {
    hide MapSum.Sum, ExecutionReport.Gross, LastFill;
    FinalsShowLast(reports);
    var f, last := FinalsReplay(reports).value, LastFill(reports);
    assert f.gross == map o | o in last :: last[o].Gross();
    assert f.fee == map o | o in last :: last[o].fee;
    assert f.slippage == map o | o in last :: last[o].slippage;
    assert (set o | o in f.quantity && f.quantity[o] > 0.0) == set o | o in last && last[o].fillQuantity > 0.0;
  }

  ghost function SideGross(last: map<OrderId, ExecutionReport>, side: OrderSide): map<OrderId, real> {
    map o | o in last :: if last[o].side == side then last[o].Gross() else 0.0
  }

  /** The observation report and the ledger replay account for the same money. */
  lemma MetricsAccountForCash(startingCash: real, reports: seq<ExecutionReport>, currency: string)
    requires OneSided(reports) && Replay(startingCash, reports, currency).Ok?
    ensures ExecutionMetrics(reports).Ok?
    ensures var m := ExecutionMetrics(reports).value;
            var buys := MapSum.Sum(SideGross(LastFill(reports), BuySide));
            var sells := MapSum.Sum(SideGross(LastFill(reports), SellSide));
            && m.turnover == buys + sells
            && startingCash - Replay(startingCash, reports, currency).value.cash == buys - sells + m.fees
  {
    hide MapSum.Sum, Replay, Telescoping.LastFill, CashEffect, ExecutionReport.Gross;
    FinalsAgree(startingCash, reports, currency);
    ReplayApplied(startingCash, reports, currency);
    ReplayTelescopes(startingCash, reports, currency);
    var last, f := LastFill(reports), FinalsReplay(reports).value;
    var buys, sells := SideGross(last, BuySide), SideGross(last, SellSide);
    forall o | o in last
      ensures f.gross[o] == buys[o] + sells[o] && CashEffects(last)[o] == sells[o] - buys[o] - f.fee[o]
    {
      SidesOf(last[o]);
    }
    MapSum.Added(buys, sells, f.gross);
    NetOutflow(CashEffects(last), buys, sells, f.fee);
  }

  lemma SidesOf(r: ExecutionReport)
    ensures var buy := if r.side == BuySide then r.Gross() else 0.0;
            var sell := if r.side == SellSide then r.Gross() else 0.0;
            r.Gross() == buy + sell && CashEffect(r) == sell - buy - r.fee
  {
  }

  lemma {:induction false} NetOutflow(effects: map<OrderId, real>, buys: map<OrderId, real>, sells: map<OrderId, real>,
                                      fees: map<OrderId, real>)
    requires effects.Keys == buys.Keys == sells.Keys == fees.Keys
    requires forall o :: o in effects ==> effects[o] == sells[o] - buys[o] - fees[o]
    ensures MapSum.Sum(effects) == MapSum.Sum(sells) - MapSum.Sum(buys) - MapSum.Sum(fees)
    decreases |effects|
  {
    if effects == map[] {
      assert buys == map[] && sells == map[] && fees == map[];
    } else {
      var o :| o in effects;
      MapSum.Take(effects, o);
      MapSum.Take(buys, o);
      MapSum.Take(sells, o);
      MapSum.Take(fees, o);
      NetOutflow(effects - {o}, buys - {o}, sells - {o}, fees - {o});
    }
  }
}
