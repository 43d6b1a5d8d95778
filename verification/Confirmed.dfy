/** Selection with confirmed entries, exits and replacements (strategies/confirmed.py). */
module Confirmed {
  import opened Wrappers
  import opened Folds
  import opened Domain
  import opened Contracts
  import opened Symbols
  import opened Preserve

  /** Of a signal's breakdown only the score decides anything. */
  datatype Signal = Signal(symbol: Symbol, score: real)

  // ----- Ranking

  /** The sort key: the best score first, then by symbol. */
  predicate Ranks(a: Signal, b: Signal) {
    a.score > b.score || (a.score == b.score && LexLe(a.symbol, b.symbol))
  }

  /** The order of `min`: the lowest score, then the first symbol. */
  predicate Weaker(a: Signal, b: Signal) {
    a.score < b.score || (a.score == b.score && LexLe(a.symbol, b.symbol))
  }

  function InsertSignal(x: Signal, xs: seq<Signal>): seq<Signal> {
    if xs == [] || Ranks(x, xs[0]) then [x] + xs else [xs[0]] + InsertSignal(x, xs[1..])
  }

  function Ranked(xs: seq<Signal>): seq<Signal> {
    if xs == [] then [] else InsertSignal(xs[0], Ranked(xs[1..]))
  }

  function Weakest(xs: seq<Signal>): Signal
    requires xs != []
  {
    if |xs| == 1 then xs[0]
    else
      var w := Weakest(xs[1..]);
      if Weaker(xs[0], w) then xs[0] else w
  }

  /** list.remove: without the first element for a symbol. */
  function Without(xs: seq<Signal>, s: Symbol): seq<Signal> {
    if xs == [] then [] else if xs[0].symbol == s then xs[1..] else [xs[0]] + Without(xs[1..], s)
  }

  predicate Listed(xs: seq<Signal>, s: Symbol) {
    exists i :: 0 <= i < |xs| && xs[i].symbol == s
  }

  predicate OnePerSymbol(xs: seq<Signal>) {
    forall i, j :: 0 <= i < j < |xs| ==> xs[i].symbol != xs[j].symbol
  }

  // ----- The strategy

  datatype ConfirmedStrategy = ConfirmedStrategy(
    name: Name,
    maxPositions: nat,
    entryScore: real,
    retentionScore: real,
    replacementMargin: real,
    entryBars: nat,
    exitBars: nat,
    replacementBars: nat,
    /** The composite score of a symbol's bars, if there are enough of them. */
    score: (Symbol, seq<MarketBar>) -> Option<real>,
    /** The share of the portfolio the detected regime allows. */
    budget: StrategyContext -> real)
  {
    ghost predicate Valid() {
      && maxPositions > 0
      && retentionScore <= entryScore && 0.0 <= replacementMargin
      && entryBars > 0 && exitBars > 0 && replacementBars > 0
      && forall c :: 0.0 <= budget(c) <= 1.0
    }

    function Bars(c: StrategyContext, s: Symbol): seq<MarketBar> {
      if s in c.history then c.history[s] else []
    }

    /** The scores a symbol had when each of its last `count` bars was the newest. */
    function Series(s: Symbol, bars: seq<MarketBar>, count: nat): Option<seq<(Time, real)>> {
      if |bars| < count then None else Scored(s, bars, count, count)
    }

    /** The first `n` of them. */
    function Scored(s: Symbol, bars: seq<MarketBar>, count: nat, n: nat): Option<seq<(Time, real)>>
      requires n <= count <= |bars|
    {
      if n == 0 then Some([])
      else
        var before := Scored(s, bars, count, n - 1);
        var end := |bars| - count + n;
        if before.None? || score(s, bars[..end]).None? then None
        else Some(before.value + [(bars[end - 1].timestamp, score(s, bars[..end]).value)])
    }

    method RecentScoreSeries(s: Symbol, bars: seq<MarketBar>, count: nat) returns (r: Option<seq<(Time, real)>>)
      ensures r == Series(s, bars, count)
    {
      if |bars| < count {
        return None;
      }
      var series := [];
      for n := 0 to count
        invariant Scored(s, bars, count, n) == Some(series)
      {
        var end := |bars| - count + n + 1;
        var signal := score(s, bars[..end]);
        if signal.None? {
          UnscoredStays(s, bars, count, n + 1, count);
          return None;
        }
        series := series + [(bars[end - 1].timestamp, signal.value)];
      }
      return Some(series);
    }

    lemma UnscoredStays(s: Symbol, bars: seq<MarketBar>, count: nat, n: nat, m: nat)
      requires n <= m <= count <= |bars| && Scored(s, bars, count, n).None?
      ensures Scored(s, bars, count, m).None?
    {
      var f := (k: nat) => if k <= count then Scored(s, bars, count, k) else None;
      Stays(f, (v: Option<seq<(Time, real)>>) => v.None?, n, m);
    }

    predicate Below(s: Symbol, bars: seq<MarketBar>, count: nat, threshold: real) {
      var series := Series(s, bars, count);
      series.Some? && forall i :: 0 <= i < |series.value| ==> series.value[i].1 < threshold
    }

    predicate AtLeast(s: Symbol, bars: seq<MarketBar>, count: nat, threshold: real) {
      var series := Series(s, bars, count);
      series.Some? && forall i :: 0 <= i < |series.value| ==> series.value[i].1 >= threshold
    }

    /** The challenger beats the incumbent by the margin on every one of the same bars. */
    predicate Beats(c: StrategyContext, challenger: Symbol, incumbent: Symbol) {
      var x := Series(challenger, Bars(c, challenger), replacementBars);
      var y := Series(incumbent, Bars(c, incumbent), replacementBars);
      && x.Some? && y.Some? && |x.value| == |y.value|
      && (forall i :: 0 <= i < |x.value| ==> x.value[i].0 == y.value[i].0)
      && (forall i :: 0 <= i < |x.value| ==> x.value[i].1 >= y.value[i].1 + replacementMargin)
    }

    function Signals(c: StrategyContext): map<Symbol, real> {
      map s | s in c.referencePrices && Some(s) != c.benchmark && score(s, Bars(c, s)).Some? ::
        score(s, Bars(c, s)).value
    }

    function Incumbents(c: StrategyContext): set<Symbol> {
      set s | s in c.portfolio.positions && Some(s) != c.benchmark
    }

    // --- What decides the fate of a symbol

    predicate ExitConfirmed(c: StrategyContext, s: Symbol) {
      s in Signals(c) && Signals(c)[s] < retentionScore && Below(s, Bars(c, s), exitBars, retentionScore)
    }

    predicate EntryConfirmed(c: StrategyContext, s: Symbol) {
      s in Signals(c) && Signals(c)[s] >= entryScore && AtLeast(s, Bars(c, s), entryBars, entryScore)
    }

    /** An incumbent without a signal is carried with a placeholder. */
    function SignalFor(c: StrategyContext, s: Symbol): Signal {
      Signal(s, if s in Signals(c) then Signals(c)[s] else retentionScore)
    }

    // --- The four stages

    function Retained(c: StrategyContext, symbols: seq<Symbol>): seq<Signal> {
      if symbols == [] then []
      else
        var s := symbols[|symbols| - 1];
        var before := Retained(c, symbols[..|symbols| - 1]);
        if ExitConfirmed(c, s) then before else before + [SignalFor(c, s)]
    }

    function Kept(c: StrategyContext): seq<Signal> {
      var ranked := Ranked(Retained(c, Sorted(Incumbents(c))));
      if |ranked| > maxPositions then ranked[..maxPositions] else ranked
    }

    function Challengers(c: StrategyContext, symbols: seq<Symbol>): seq<Signal> {
      if symbols == [] then []
      else
        var s := symbols[|symbols| - 1];
        var before := Challengers(c, symbols[..|symbols| - 1]);
        if s in Incumbents(c) || !EntryConfirmed(c, s) then before else before + [SignalFor(c, s)]
    }

    function Ready(c: StrategyContext): seq<Signal> {
      Ranked(Challengers(c, Sorted(Signals(c).Keys)))
    }

    /** How many challengers find a free place. */
    function Free(kept: seq<Signal>, ready: seq<Signal>): nat {
      if |kept| >= maxPositions then 0 else if |ready| <= maxPositions - |kept| then |ready| else maxPositions - |kept|
    }

    /** Each remaining challenger in turn against the then-weakest. */
    function Replaced(c: StrategyContext, selected: seq<Signal>, challengers: seq<Signal>): seq<Signal> {
      if challengers == [] then selected
      else Challenged(c, Replaced(c, selected, challengers[..|challengers| - 1]), challengers[|challengers| - 1])
    }

    function Challenged(c: StrategyContext, selected: seq<Signal>, x: Signal): seq<Signal> {
      if selected == [] || !Beats(c, x.symbol, Weakest(selected).symbol) then selected
      else Without(selected, Weakest(selected).symbol) + [x]
    }

    function Selected(c: StrategyContext): seq<Signal> {
      var kept, ready := Kept(c), Ready(c);
      var free := Free(kept, ready);
      Ranked(Replaced(c, kept + ready[..free], ready[free..]))
    }

    function TargetOf(c: StrategyContext): TargetPortfolio {
      if budget(c) == 0.0 then CashTarget(name, c, 0.9)
      else
        var selected := Selected(c);
        if selected == [] then CashTarget(name, c, 0.5) else Shared(c, selected)
    }

    /** Equal shares of the budget; the confidence is the average score, cut to the unit interval. */
    function Shared(c: StrategyContext, selected: seq<Signal>): TargetPortfolio
      requires selected != []
    {
      var weight := budget(c) / |selected| as real;
      TargetPortfolio(c.asOf, c.currency, map s | s in Names(selected) :: weight, 1.0 - budget(c),
                      name.strategyId, name.version, c.stateHash,
                      Min(Max(ScoreSum(selected) / |selected| as real, 0.0), 1.0))
    }

    function ScoreSum(selected: seq<Signal>): real {
      if selected == [] then 0.0 else ScoreSum(selected[..|selected| - 1]) + selected[|selected| - 1].score
    }

    function Names(selected: seq<Signal>): set<Symbol> {
      set x | x in selected :: x.symbol
    }

    // --- The loops of the source

    method ThresholdBelow(s: Symbol, bars: seq<MarketBar>, count: nat, threshold: real) returns (r: bool)
      ensures r == Below(s, bars, count, threshold)
    {
      var series := RecentScoreSeries(s, bars, count);
      return series.Some? && forall i :: 0 <= i < |series.value| ==> series.value[i].1 < threshold;
    }

    method Retain(c: StrategyContext) returns (selected: seq<Signal>)
      ensures selected == Retained(c, Sorted(Incumbents(c)))
    {
      hide Below, Signals, Incumbents;
      selected := [];
      var symbols := Sorted(Incumbents(c));
      var signals := Signals(c);
      for i := 0 to |symbols|
        invariant selected == Retained(c, symbols[..i])
      {
        var s := symbols[i];
        assert symbols[..i + 1][..i] == symbols[..i];
        if s !in signals {
          selected := selected + [Signal(s, retentionScore)];
          continue;
        }
        if signals[s] >= retentionScore {
          selected := selected + [Signal(s, signals[s])];
          continue;
        }
        var confirmed := ThresholdBelow(s, Bars(c, s), exitBars, retentionScore);
        if confirmed {
          continue;
        }
        selected := selected + [Signal(s, signals[s])];
      }
      assert symbols[..|symbols|] == symbols;
    }

    method FindChallengers(c: StrategyContext, kept: seq<Signal>) returns (challengers: seq<Signal>)
      requires Names(kept) <= Incumbents(c)
      ensures challengers == Challengers(c, Sorted(Signals(c).Keys))
    {
      hide AtLeast, Signals, Incumbents, Sorted;
      challengers := [];
      var signals := Signals(c);
      var symbols := Sorted(signals.Keys);
      for i := 0 to |symbols|
        invariant challengers == Challengers(c, symbols[..i])
      {
        var s := symbols[i];
        assert symbols[..i + 1][..i] == symbols[..i];
        if s in Incumbents(c) || s in Names(kept) || signals[s] < entryScore
           || !AtLeast(s, Bars(c, s), entryBars, entryScore) {
          continue;
        }
        challengers := challengers + [Signal(s, signals[s])];
      }
      assert symbols[..|symbols|] == symbols;
    }

    method Fill(kept: seq<Signal>, ready: seq<Signal>) returns (selected: seq<Signal>, rest: seq<Signal>)
      ensures selected == kept + ready[..Free(kept, ready)] && rest == ready[Free(kept, ready)..]
    {
      selected, rest := kept, ready;
      ghost var n := 0;
      while rest != [] && |selected| < maxPositions
        invariant n <= Free(kept, ready) <= |ready| && rest == ready[n..] && selected == kept + ready[..n]
        decreases |rest|
      {
        assert ready[..n + 1] == ready[..n] + [rest[0]];
        selected := selected + [rest[0]];
        rest := rest[1..];
        n := n + 1;
      }
    }

    method Replace(c: StrategyContext, filled: seq<Signal>, rest: seq<Signal>) returns (selected: seq<Signal>)
      ensures selected == Replaced(c, filled, rest)
    {
      hide Beats, Weakest, Without;
      selected := filled;
      for i := 0 to |rest|
        invariant selected == Replaced(c, filled, rest[..i])
      {
        assert rest[..i + 1][..i] == rest[..i];
        if selected == [] {
          EmptyStays(c, filled, rest, i);
          break;
        }
        var weakest := Weakest(selected);
        if !Beats(c, rest[i].symbol, weakest.symbol) {
          continue;
        }
        selected := Without(selected, weakest.symbol) + [rest[i]];
      }
      if selected != [] {
        assert rest[..|rest|] == rest;
      }
    }

    lemma EmptyStays(c: StrategyContext, filled: seq<Signal>, rest: seq<Signal>, n: nat)
      requires n <= |rest| && Replaced(c, filled, rest[..n]) == []
      ensures Replaced(c, filled, rest) == []
    {
      hide Beats, Weakest, Without;
      PrefixDecides((xs: seq<Signal>) => Replaced(c, filled, xs), (v: seq<Signal>) => v == [], rest, n);
    }

    method GenerateTarget(c: StrategyContext) returns (t: TargetPortfolio)
      ensures t == TargetOf(c)
    {
      hide Beats, Replaced, Retained, Challengers, Ranked, Signals, Incumbents, Shared;
      if budget(c) == 0.0 {
        return CashTarget(name, c, 0.9);
      }
      var retained := Retain(c);
      var kept := Ranked(retained);
      if |kept| > maxPositions {
        kept := kept[..maxPositions];
      }
      KeptAreIncumbents(c);
      var challengers := FindChallengers(c, kept);
      var filled, rest := Fill(kept, Ranked(challengers));
      var selected := Replace(c, filled, rest);
      selected := Ranked(selected);
      if selected == [] {
        return CashTarget(name, c, 0.5);
      }
      return Shared(c, selected);
    }

    lemma {:induction false} RankedMembers(xs: seq<Signal>)
      ensures multiset(Ranked(xs)) == multiset(xs)
    {
      hide Ranks;
      if xs != [] {
        RankedMembers(xs[1..]);
        InsertedMembers(xs[0], Ranked(xs[1..]));
        assert xs == [xs[0]] + xs[1..];
      }
    }

    lemma {:induction false} InsertedMembers(x: Signal, xs: seq<Signal>)
      ensures multiset(InsertSignal(x, xs)) == multiset{x} + multiset(xs)
    {
      hide Ranks;
      if xs != [] && !Ranks(x, xs[0]) {
        InsertedMembers(x, xs[1..]);
        assert xs == [xs[0]] + xs[1..];
      }
    }

    lemma {:induction false} RetainedMembers(c: StrategyContext, symbols: seq<Symbol>)
      requires forall i, j :: 0 <= i < j < |symbols| ==> symbols[i] != symbols[j]
      ensures OnePerSymbol(Retained(c, symbols))
      ensures forall x :: x in Retained(c, symbols)
                          <==> x.symbol in symbols && x == SignalFor(c, x.symbol) && !ExitConfirmed(c, x.symbol)
    {
      hide ExitConfirmed, SignalFor;
      if symbols != [] {
        var front, s := symbols[..|symbols| - 1], symbols[|symbols| - 1];
        RetainedMembers(c, front);
        assert symbols == front + [s] && s !in front;
        NamedSignal(c, s);
      }
    }

    lemma NamedSignal(c: StrategyContext, s: Symbol)
      ensures SignalFor(c, s).symbol == s
    {
    }

    lemma KeptAreIncumbents(c: StrategyContext)
      ensures Names(Kept(c)) <= Incumbents(c)
    {
      hide Ranked, Retained, Signals, Incumbents, ExitConfirmed;
      var retained := Retained(c, Sorted(Incumbents(c)));
      RetainedMembers(c, Sorted(Incumbents(c)));
      RankedMembers(retained);
      forall x | x in Kept(c)
        ensures x.symbol in Incumbents(c)
      {
        assert x in multiset(Ranked(retained));
      }
    }
  }
}
