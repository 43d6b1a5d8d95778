/**
  The cumulative-fill replay (portfolio/reconcile.py).
  `Replay` is the fold the source's loop computes, with every exception as an outcome;
  the method `ReplayEvents` is the loop itself.
 */
module Reconciler {
  import opened Wrappers
  import opened Folds
  import opened Domain
  import MapSum

  datatype Book = Book(
    cash: real,
    positions: map<Symbol, Position>,
    seen: set<string>,
    quantity: map<OrderId, real>,
    gross: map<OrderId, real>,
    fee: map<OrderId, real>)

  function Opening(startingCash: real): Book {
    Book(startingCash, map[], {}, map[], map[], map[])
  }

  /** A bought increment enters the position at its own average cost. */
  function Bought(positions: map<Symbol, Position>, s: Symbol, dq: real, dg: real): map<Symbol, Position>
    requires dq > 0.0
    requires s in positions ==> positions[s].quantity > 0.0
  {
    if s !in positions then positions[s := Position(dq, dg / dq)]
    else
      var c := positions[s];
      positions[s := Position(c.quantity + dq, (c.quantity * c.averagePrice + dg) / (c.quantity + dq))]
  }

  /** A sold increment leaves the average cost alone; a position sold out disappears. */
  function Sold(positions: map<Symbol, Position>, s: Symbol, dq: real): map<Symbol, Position>
    requires s in positions
  {
    var left := positions[s].quantity - dq;
    if left == 0.0 then positions - {s} else positions[s := Position(left, positions[s].averagePrice)]
  }

  predicate LongOnly(positions: map<Symbol, Position>) {
    forall s :: s in positions ==> positions[s].quantity > 0.0
  }

  function Step(b: Book, r: ExecutionReport, currency: string): (res: Result<Book, Error>)
    requires LongOnly(b.positions)
    ensures res.Ok? ==> LongOnly(res.value.positions)
  {
    if r.reportId in b.seen then Ok(b)
    else if r.currency != currency then Err(CurrencyMismatch)
    else
      var b := b.(seen := b.seen + {r.reportId});
      if !r.IsFill() then Ok(b)
      else
        var o := r.brokerOrderId;
        var dq := r.fillQuantity - MapSum.Get(b.quantity, o);
        var dg := r.Gross() - MapSum.Get(b.gross, o);
        var df := r.fee - MapSum.Get(b.fee, o);
        if dq < 0.0 then Err(QuantityRegressed)
        else if dg < 0.0 then Err(NotionalRegressed)
        else if df < 0.0 then Err(FeeRegressed)
        else
          var b := b.(quantity := b.quantity[o := r.fillQuantity],
                      gross := b.gross[o := r.Gross()],
                      fee := b.fee[o := r.fee]);
          if r.side == BuySide then
            var b := b.(cash := b.cash - (dg + df));
            Ok(if dq > 0.0 then b.(positions := Bought(b.positions, r.symbol, dq, dg)) else b)
          else
            var b := b.(cash := b.cash + (dg - df));
            if dq == 0.0 then Ok(b)
            else if r.symbol !in b.positions || dq > b.positions[r.symbol].quantity then Err(ShortPosition)
            else Ok(b.(positions := Sold(b.positions, r.symbol, dq)))
  }

  function Replay(startingCash: real, reports: seq<ExecutionReport>, currency: string): (res: Result<Book, Error>)
    ensures res.Ok? ==> LongOnly(res.value.positions)
  {
    if reports == [] then Ok(Opening(startingCash))
    else
      var before :- Replay(startingCash, reports[..|reports| - 1], currency);
      Step(before, reports[|reports| - 1], currency)
  }

  lemma ReplayAppend(startingCash: real, reports: seq<ExecutionReport>, r: ExecutionReport, currency: string)
    ensures Replay(startingCash, reports + [r], currency) ==
            match Replay(startingCash, reports, currency)
            case Err(e) => Err(e)
            case Ok(b) => Step(b, r, currency)
  {
    assert (reports + [r])[..|reports|] == reports;
  }

  /** The market value of every position; a held symbol without a mark is a lookup failure. */
  ghost function MarketValue(positions: map<Symbol, Position>, marks: map<Symbol, real>): real
    requires positions.Keys <= marks.Keys
  {
    MapSum.Sum(map s | s in positions :: positions[s].quantity * marks[s])
  }

  /** The final statement of replay: marking to market and the non-negativity validators. */
  ghost function Marked(b: Book, marks: map<Symbol, real>): Result<PortfolioState, Error>
  {
    if !(b.positions.Keys <= marks.Keys) then Err(MissingPrice)
    else
      var nav := b.cash + MarketValue(b.positions, marks);
      if b.cash < 0.0 || nav < 0.0 then Err(ValidationError) else Ok(PortfolioState(b.cash, b.positions, nav))
  }

  ghost function ReplayState(startingCash: real, reports: seq<ExecutionReport>, marks: map<Symbol, real>,
                             currency: string)
    : Result<PortfolioState, Error>
  {
    var b :- Replay(startingCash, reports, currency);
    Marked(b, marks)
  }

  method ReplayEvents(startingCash: real, reports: seq<ExecutionReport>, marks: map<Symbol, real>, currency: string)
    returns (res: Result<PortfolioState, Error>)
    ensures res == ReplayState(startingCash, reports, marks, currency)
  {
    var applied := ApplyReports(startingCash, reports, currency);
    if applied.Err? {
      return Err(applied.error);
    }
    var b := applied.value;
    if !(b.positions.Keys <= marks.Keys) {
      return Err(MissingPrice);
    }
    var nav := MarkToMarket(b.cash, b.positions, marks);
    if b.cash < 0.0 || nav < 0.0 {
      return Err(ValidationError);
    }
    return Ok(PortfolioState(b.cash, b.positions, nav));
  }

  /** The loop over the reports, with the six local variables of the source. */
  method ApplyReports(startingCash: real, reports: seq<ExecutionReport>, currency: string)
    returns (res: Result<Book, Error>)
    ensures res == Replay(startingCash, reports, currency)
  {
    hide ExecutionReport.Gross, Bought, Sold, MapSum.Get;
    var cash := startingCash;
    var positions: map<Symbol, Position> := map[];
    var seen: set<string> := {};
    var appliedQuantity: map<OrderId, real> := map[];
    var appliedGross: map<OrderId, real> := map[];
    var appliedFee: map<OrderId, real> := map[];

    for i := 0 to |reports|
      invariant Replay(startingCash, reports[..i], currency)
             == Ok(Book(cash, positions, seen, appliedQuantity, appliedGross, appliedFee))
    {
      var report := reports[i];
      ReplayAt(startingCash, reports, i, currency);
      if report.reportId in seen {
        continue;
      }
      seen := seen + {report.reportId};
      if report.currency != currency { return Err(CurrencyMismatch); }
      if !report.IsFill() {
        continue;
      }
      var o := report.brokerOrderId;
      var deltaQuantity := report.fillQuantity - MapSum.Get(appliedQuantity, o);
      var deltaGross := report.Gross() - MapSum.Get(appliedGross, o);
      var deltaFee := report.fee - MapSum.Get(appliedFee, o);
      if deltaQuantity < 0.0 { return Err(QuantityRegressed); }
      if deltaGross < 0.0 { return Err(NotionalRegressed); }
      if deltaFee < 0.0 { return Err(FeeRegressed); }
      appliedQuantity := appliedQuantity[o := report.fillQuantity];
      appliedGross := appliedGross[o := report.Gross()];
      appliedFee := appliedFee[o := report.fee];
      if report.side == BuySide {
        cash := cash - (deltaGross + deltaFee);
        if deltaQuantity > 0.0 {
          positions := Bought(positions, report.symbol, deltaQuantity, deltaGross);
        }
      } else {
        cash := cash + (deltaGross - deltaFee);
        if deltaQuantity > 0.0 {
          if report.symbol !in positions || deltaQuantity > positions[report.symbol].quantity {
            return Err(ShortPosition);
          }
          positions := Sold(positions, report.symbol, deltaQuantity);
        }
      }
    }
    assert reports[..|reports|] == reports;
    return Ok(Book(cash, positions, seen, appliedQuantity, appliedGross, appliedFee));
  }

  method MarkToMarket(cash: real, positions: map<Symbol, Position>, marks: map<Symbol, real>) returns (nav: real)
    requires positions.Keys <= marks.Keys
    ensures nav == cash + MarketValue(positions, marks)
  {
    nav := cash;
    var todo := positions.Keys;
    ghost var values := map s | s in positions :: positions[s].quantity * marks[s];
    ghost var rest := values;
    while todo != {}
      invariant todo == rest.Keys
      invariant forall s :: s in rest ==> s in values && rest[s] == values[s]
      invariant nav + MapSum.Sum(rest) == cash + MapSum.Sum(values)
      decreases todo
    {
      var s :| s in todo;
      MapSum.Take(rest, s);
      rest := rest - {s};
      todo := todo - {s};
      nav := nav + positions[s].quantity * marks[s];
    }
    assert rest == map[];
  }

  /** One loop iteration: the prefix grows by a step, and a failing step decides the whole replay. */
  lemma ReplayAt(startingCash: real, reports: seq<ExecutionReport>, i: nat, currency: string)
    requires i < |reports| && Replay(startingCash, reports[..i], currency).Ok?
    ensures var s := Step(Replay(startingCash, reports[..i], currency).value, reports[i], currency);
            && Replay(startingCash, reports[..i + 1], currency) == s
            && (s.Err? ==> Replay(startingCash, reports, currency) == s)
  {
    assert reports[..i + 1] == reports[..i] + [reports[i]];
    ReplayAppend(startingCash, reports[..i], reports[i], currency);
    if Replay(startingCash, reports[..i + 1], currency).Err? {
      assert reports == reports[..i + 1] + reports[i + 1..];
      ReplayFailurePersists(startingCash, reports[..i + 1], reports[i + 1..], currency);
    }
  }

  /** A failed replay fails the same way under every extension of the list. */
  lemma ReplayFailurePersists(startingCash: real, reports: seq<ExecutionReport>,
                                                 more: seq<ExecutionReport>, currency: string)
    requires Replay(startingCash, reports, currency).Err?
    ensures Replay(startingCash, reports + more, currency) == Replay(startingCash, reports, currency)
  {
    assert (reports + more)[..|reports|] == reports;
    PrefixDecides((rs: seq<ExecutionReport>) => Replay(startingCash, rs, currency), (v: Result<Book, Error>) => v.Err?,
                  reports + more, |reports|);
  }
}
