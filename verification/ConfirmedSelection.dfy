/**
  The selection as a procedure on sets of symbols: which incumbents stay, which challengers enter, and who replaces whom
  (strategies/confirmed.py:102-183).  It has one outcome, and that is what the strategy selects.
 */
module ConfirmedSelection {
  import opened Wrappers
  import opened Domain
  import opened Contracts
  import opened Symbols
  import opened Confirmed
  import opened ConfirmedTheorems
  import opened Arithmetic
  import MapSum

  // ----- Scores, now and then

  function BarsOf(c: StrategyContext, x: Symbol): seq<MarketBar> {
    if x in c.history then c.history[x] else []
  }

  /** The score a symbol had when the bar that many bars ago was its newest. */
  function PastScore(s: ConfirmedStrategy, c: StrategyContext, x: Symbol, back: nat): Option<real>
    requires back <= |BarsOf(c, x)|
  {
    s.score(x, BarsOf(c, x)[..|BarsOf(c, x)| - back])
  }

  predicate Scored(s: ConfirmedStrategy, c: StrategyContext, x: Symbol) {
    x in c.referencePrices && Some(x) != c.benchmark && PastScore(s, c, x, 0).Some?
  }

  /** A symbol without a score is carried at the retention score. */
  function ScoreOf(s: ConfirmedStrategy, c: StrategyContext, x: Symbol): real {
    if Scored(s, c, x) then PastScore(s, c, x, 0).value else s.retentionScore
  }

  /** The better score first, then the symbol. */
  predicate Ahead(s: ConfirmedStrategy, c: StrategyContext, x: Symbol, y: Symbol) {
    ScoreOf(s, c, x) > ScoreOf(s, c, y) || (ScoreOf(s, c, x) == ScoreOf(s, c, y) && LexLe(x, y))
  }

  /** Held, and its exit is not confirmed: some of the last bars has no score or one that is high enough. */
  predicate Stays(s: ConfirmedStrategy, c: StrategyContext, x: Symbol) {
    && x in c.portfolio.positions && Some(x) != c.benchmark
    && (!Scored(s, c, x) || ScoreOf(s, c, x) >= s.retentionScore || |BarsOf(c, x)| < s.exitBars
        || exists back: nat :: back < s.exitBars && !PastBelow(s, c, x, back))
  }

  predicate PastBelow(s: ConfirmedStrategy, c: StrategyContext, x: Symbol, back: nat) {
    back <= |BarsOf(c, x)| && PastScore(s, c, x, back).Some? && PastScore(s, c, x, back).value < s.retentionScore
  }

  /** Not held, scored high enough now and on each of the last bars. */
  predicate MayEnter(s: ConfirmedStrategy, c: StrategyContext, x: Symbol) {
    && (x !in c.portfolio.positions || Some(x) == c.benchmark)
    && Scored(s, c, x) && ScoreOf(s, c, x) >= s.entryScore
    && s.entryBars <= |BarsOf(c, x)| && forall back: nat :: back < s.entryBars ==> PastAtLeast(s, c, x, back)
  }

  predicate PastAtLeast(s: ConfirmedStrategy, c: StrategyContext, x: Symbol, back: nat) {
    back <= |BarsOf(c, x)| && PastScore(s, c, x, back).Some? && PastScore(s, c, x, back).value >= s.entryScore
  }

  /** Ahead by the margin on each of the last bars, which both have at the same times. */
  predicate Outdoes(s: ConfirmedStrategy, c: StrategyContext, x: Symbol, y: Symbol) {
    && s.replacementBars <= |BarsOf(c, x)| && s.replacementBars <= |BarsOf(c, y)|
    && forall back: nat :: back < s.replacementBars ==> PastOutdone(s, c, x, y, back)
  }

  predicate PastOutdone(s: ConfirmedStrategy, c: StrategyContext, x: Symbol, y: Symbol, back: nat) {
    var xs, ys := BarsOf(c, x), BarsOf(c, y);
    && back < |xs| && back < |ys| && xs[|xs| - 1 - back].timestamp == ys[|ys| - 1 - back].timestamp
    && PastScore(s, c, x, back).Some? && PastScore(s, c, y, back).Some?
    && PastScore(s, c, x, back).value >= PastScore(s, c, y, back).value + s.replacementMargin
  }

  // ----- These are what the strategy looks at

  /** The symbol has a score on its first `end` bars. */
  predicate HasScore(s: ConfirmedStrategy, x: Symbol, bars: seq<MarketBar>, end: int) {
    0 <= end <= |bars| && s.score(x, bars[..end]).Some?
  }

  lemma {:induction false} ScoredIs(s: ConfirmedStrategy, x: Symbol, bars: seq<MarketBar>, count: nat, n: nat)
    requires n <= count <= |bars|
    ensures var r, first := s.Scored(x, bars, count, n), |bars| - count;
            && (r.Some? <==> forall end :: first < end <= first + n ==> HasScore(s, x, bars, end))
            && (r.Some? ==>
                  && |r.value| == n
                  && forall i :: 0 <= i < n ==>
                       HasScore(s, x, bars, first + i + 1)
                       && r.value[i] == (bars[first + i].timestamp, s.score(x, bars[..first + i + 1]).value))
  {
    if n > 0 {
      ScoredIs(s, x, bars, count, n - 1);
      var before, end := s.Scored(x, bars, count, n - 1), |bars| - count + n;
      assert HasScore(s, x, bars, end) <==> s.score(x, bars[..end]).Some?;
      assert before.Some? ==>
          forall k :: |bars| - count < k <= end ==> k == end || HasScore(s, x, bars, k);
    }
  }

  lemma ScoreNow(s: ConfirmedStrategy, c: StrategyContext, x: Symbol)
    ensures BarsOf(c, x) == s.Bars(c, x) && BarsOf(c, x)[..|BarsOf(c, x)| - 0] == BarsOf(c, x)
    ensures x in s.Signals(c) <==> Scored(s, c, x)
    ensures s.SignalFor(c, x) == Signal(x, ScoreOf(s, c, x))
  {
    assert BarsOf(c, x)[..|BarsOf(c, x)|] == BarsOf(c, x);
  }

  predicate ScoredBack(s: ConfirmedStrategy, c: StrategyContext, x: Symbol, back: nat) {
    back <= |BarsOf(c, x)| && PastScore(s, c, x, back).Some?
  }

  /** The series of the last bars, counted backwards. */
  lemma SeriesBack(s: ConfirmedStrategy, c: StrategyContext, x: Symbol, count: nat)
    ensures var r := s.Series(x, s.Bars(c, x), count);
            && (r.Some? <==>
                  count <= |BarsOf(c, x)| && forall back: nat :: back < count ==> ScoredBack(s, c, x, back))
            && (r.Some? ==> |r.value| == count)
  {
    var bars := BarsOf(c, x);
    if count <= |bars| {
      ScoredIs(s, x, bars, count, count);
      forall back: nat | back < count
        ensures ScoredBack(s, c, x, back) <==> HasScore(s, x, bars, |bars| - back)
      {
      }
      if forall back: nat :: back < count ==> ScoredBack(s, c, x, back) {
        forall end | |bars| - count < end <= |bars|
          ensures HasScore(s, x, bars, end)
        {
          assert ScoredBack(s, c, x, |bars| - end);
        }
      }
    }
  }

  lemma SeriesAt(s: ConfirmedStrategy, c: StrategyContext, x: Symbol, count: nat, back: nat)
    requires s.Series(x, s.Bars(c, x), count).Some? && back < count
    ensures var r, bars := s.Series(x, s.Bars(c, x), count), BarsOf(c, x);
            && |r.value| == count <= |bars| && PastScore(s, c, x, back).Some?
            && r.value[count - 1 - back] == (bars[|bars| - 1 - back].timestamp, PastScore(s, c, x, back).value)
  {
    var bars, i := BarsOf(c, x), count - 1 - back;
    ScoredIs(s, x, bars, count, count);
    var r := s.Scored(x, bars, count, count);
    assert |bars| - count + i + 1 == |bars| - back;
    assert HasScore(s, x, bars, |bars| - count + i + 1);
  }

  lemma BelowMeans(s: ConfirmedStrategy, c: StrategyContext, x: Symbol)
    ensures s.Below(x, s.Bars(c, x), s.exitBars, s.retentionScore) <==>
              s.exitBars <= |BarsOf(c, x)| && forall back: nat :: back < s.exitBars ==> PastBelow(s, c, x, back)
  {
    hide ConfirmedStrategy.Series;
    var series, n := s.Series(x, s.Bars(c, x), s.exitBars), s.exitBars;
    SeriesBack(s, c, x, n);
    if series.Some? {
      forall back: nat | back < n
        ensures PastBelow(s, c, x, back) <==> series.value[n - 1 - back].1 < s.retentionScore
      {
        SeriesAt(s, c, x, n, back);
      }
      forall i | 0 <= i < n
        ensures series.value[i].1 < s.retentionScore <==> PastBelow(s, c, x, n - 1 - i)
      {
        assert n - 1 - (n - 1 - i) == i;
      }
    } else if n <= |BarsOf(c, x)| {
      var back: nat :| back < n && !ScoredBack(s, c, x, back);
      assert !PastBelow(s, c, x, back);
    }
  }

  lemma AtLeastMeans(s: ConfirmedStrategy, c: StrategyContext, x: Symbol)
    ensures s.AtLeast(x, s.Bars(c, x), s.entryBars, s.entryScore) <==>
              s.entryBars <= |BarsOf(c, x)| && forall back: nat :: back < s.entryBars ==> PastAtLeast(s, c, x, back)
  {
    hide ConfirmedStrategy.Series;
    var series, n := s.Series(x, s.Bars(c, x), s.entryBars), s.entryBars;
    SeriesBack(s, c, x, n);
    if series.Some? {
      forall back: nat | back < n
        ensures PastAtLeast(s, c, x, back) <==> series.value[n - 1 - back].1 >= s.entryScore
      {
        SeriesAt(s, c, x, n, back);
      }
      forall i | 0 <= i < n
        ensures series.value[i].1 >= s.entryScore <==> PastAtLeast(s, c, x, n - 1 - i)
      {
        assert n - 1 - (n - 1 - i) == i;
      }
    } else if n <= |BarsOf(c, x)| {
      var back: nat :| back < n && !ScoredBack(s, c, x, back);
      assert !PastAtLeast(s, c, x, back);
    }
  }

  lemma OutdoneAt(s: ConfirmedStrategy, c: StrategyContext, x: Symbol, y: Symbol, n: nat, back: nat)
    requires back < n && s.Series(x, s.Bars(c, x), n).Some? && s.Series(y, s.Bars(c, y), n).Some?
    ensures var xs, ys, i := s.Series(x, s.Bars(c, x), n).value, s.Series(y, s.Bars(c, y), n).value, n - 1 - back;
            && |xs| == |ys| == n
            && (PastOutdone(s, c, x, y, back) <==>
                  xs[i].0 == ys[i].0 && xs[i].1 >= ys[i].1 + s.replacementMargin)
  {
    hide ConfirmedStrategy.Series;
    SeriesAt(s, c, x, n, back);
    SeriesAt(s, c, y, n, back);
  }

  lemma BeatsMeans(s: ConfirmedStrategy, c: StrategyContext, x: Symbol, y: Symbol)
    ensures s.Beats(c, x, y) <==> Outdoes(s, c, x, y)
  {
    hide ConfirmedStrategy.Series, PastOutdone, ScoredBack, BarsOf, ConfirmedStrategy.Bars;
    var n := s.replacementBars;
    var xs, ys := s.Series(x, s.Bars(c, x), n), s.Series(y, s.Bars(c, y), n);
    SeriesBack(s, c, x, n);
    SeriesBack(s, c, y, n);
    if xs.Some? && ys.Some? {
      forall back: nat | back < n
        ensures PastOutdone(s, c, x, y, back) <==>
                  xs.value[n - 1 - back].0 == ys.value[n - 1 - back].0
                  && xs.value[n - 1 - back].1 >= ys.value[n - 1 - back].1 + s.replacementMargin
      {
        OutdoneAt(s, c, x, y, n, back);
      }
      forall i | 0 <= i < n
        ensures PastOutdone(s, c, x, y, n - 1 - i) <==>
                  xs.value[i].0 == ys.value[i].0 && xs.value[i].1 >= ys.value[i].1 + s.replacementMargin
      {
        OutdoneAt(s, c, x, y, n, n - 1 - i);
      }
    } else if n <= |BarsOf(c, x)| && n <= |BarsOf(c, y)| {
      var z := if xs.None? then x else y;
      var back: nat :| back < n && !ScoredBack(s, c, z, back);
      OutdoneIsScored(s, c, x, y, back);
    }
  }

  lemma OutdoneIsScored(s: ConfirmedStrategy, c: StrategyContext, x: Symbol, y: Symbol, back: nat)
    ensures PastOutdone(s, c, x, y, back) ==> ScoredBack(s, c, x, back) && ScoredBack(s, c, y, back)
  {
  }

  lemma MeaningOf(s: ConfirmedStrategy, c: StrategyContext, x: Symbol)
    ensures Stays(s, c, x) <==> x in s.Incumbents(c) && !s.ExitConfirmed(c, x)
    ensures MayEnter(s, c, x) <==> x !in s.Incumbents(c) && s.EntryConfirmed(c, x)
    ensures s.SignalFor(c, x) == Signal(x, ScoreOf(s, c, x))
  {
    hide ConfirmedStrategy.Below, ConfirmedStrategy.AtLeast, PastBelow, PastAtLeast, PastScore, BarsOf, ScoreOf,
      ConfirmedStrategy.Signals, Scored, ConfirmedStrategy.Bars;
    ScoreNow(s, c, x);
    if x in s.Signals(c) {
      SignalIs(s, c, x);
    }
    BelowMeans(s, c, x);
    AtLeastMeans(s, c, x);
  }

  lemma SignalIs(s: ConfirmedStrategy, c: StrategyContext, x: Symbol)
    requires x in s.Signals(c)
    ensures Scored(s, c, x) && s.Signals(c)[x] == ScoreOf(s, c, x)
  {
    ScoreNow(s, c, x);
  }

  // ----- The procedure

  function Stayers(s: ConfirmedStrategy, c: StrategyContext): set<Symbol> {
    set x | x in c.portfolio.positions && Stays(s, c, x)
  }

  function Entrants(s: ConfirmedStrategy, c: StrategyContext): set<Symbol> {
    set x | x in c.referencePrices && MayEnter(s, c, x)
  }

  /** As many as there are places, and the best of them. */
  predicate BestOf(s: ConfirmedStrategy, c: StrategyContext, places: int, candidates: set<Symbol>,
                   chosen: set<Symbol>) {
    && chosen <= candidates && |chosen| == (if |candidates| <= places then |candidates| else places)
    && forall x, y :: x in chosen && y in candidates && y !in chosen ==> Ahead(s, c, x, y)
  }

  /** The symbols in rank order, each once. */
  ghost predicate Listing(s: ConfirmedStrategy, c: StrategyContext, list: seq<Symbol>, symbols: set<Symbol>) {
    && (forall x :: x in list <==> x in symbols)
    && forall i, j :: 0 <= i < j < |list| ==> list[i] != list[j] && Ahead(s, c, list[i], list[j])
  }

  predicate Lowest(s: ConfirmedStrategy, c: StrategyContext, symbols: set<Symbol>, w: Symbol) {
    w in symbols && forall y :: y in symbols ==>
      ScoreOf(s, c, w) < ScoreOf(s, c, y) || (ScoreOf(s, c, w) == ScoreOf(s, c, y) && LexLe(w, y))
  }

  /** One challenger against the lowest of the selected: it takes that place if it outdoes it, and no other. */
  ghost predicate Turned(s: ConfirmedStrategy, c: StrategyContext, before: set<Symbol>, x: Symbol, after: set<Symbol>) {
    if before == {} then after == {}
    else exists w :: Lowest(s, c, before, w) && after == if Outdoes(s, c, x, w) then before - {w} + {x} else before
  }

  /**
    The best of those that stay keep their places; the best of those that may enter take the free ones; the others
    wait, and each in turn, in rank order, stands against the lowest of the selected.
   */
  ghost predicate Procedure(s: ConfirmedStrategy, c: StrategyContext, kept: set<Symbol>, entered: set<Symbol>,
                            waiting: seq<Symbol>, turns: seq<set<Symbol>>) {
    && BestOf(s, c, s.maxPositions, Stayers(s, c), kept)
    && BestOf(s, c, s.maxPositions - |kept|, Entrants(s, c), entered)
    && Listing(s, c, waiting, Entrants(s, c) - entered)
    && |turns| == |waiting| + 1 && turns[0] == kept + entered
    && forall n :: 0 <= n < |waiting| ==> Turned(s, c, turns[n], waiting[n], turns[n + 1])
  }

  // ----- It has one outcome

  lemma AheadOnce(s: ConfirmedStrategy, c: StrategyContext, x: Symbol, y: Symbol)
    requires Ahead(s, c, x, y) && Ahead(s, c, y, x)
    ensures x == y
  {
    hide ScoreOf;
    LexTotal(x, y);
  }

  lemma BestIsUnique(s: ConfirmedStrategy, c: StrategyContext, places: int, candidates: set<Symbol>, a: set<Symbol>,
                     b: set<Symbol>)
    requires BestOf(s, c, places, candidates, a) && BestOf(s, c, places, candidates, b)
    ensures a == b
  {
    hide Ahead;
    if a != b {
      EachHasItsOwn(a, b);
      var x :| x in a - b;
      var y :| y in b - a;
      AheadOnce(s, c, x, y);
    }
  }

  lemma EachHasItsOwn(a: set<Symbol>, b: set<Symbol>)
    requires |a| == |b| && a != b
    ensures a - b != {} && b - a != {}
  {
    assert a == (a * b) + (a - b) && b == (a * b) + (b - a);
    assert |a| == |a * b| + |a - b| && |b| == |a * b| + |b - a|;
  }

  lemma {:induction false} ListingIsUnique(s: ConfirmedStrategy, c: StrategyContext, a: seq<Symbol>, b: seq<Symbol>,
                                           symbols: set<Symbol>)
    requires Listing(s, c, a, symbols) && Listing(s, c, b, symbols)
    ensures a == b
  {
    hide Ahead;
    if a != [] && b != [] {
      FirstIsUnique(s, c, a, b, symbols);
      ListingRest(s, c, a, symbols);
      ListingRest(s, c, b, symbols);
      ListingIsUnique(s, c, a[1..], b[1..], symbols - {a[0]});
      assert a == [a[0]] + a[1..] && b == [b[0]] + b[1..];
    } else {
      EmptyListing(s, c, a, symbols);
      EmptyListing(s, c, b, symbols);
    }
  }

  lemma EmptyListing(s: ConfirmedStrategy, c: StrategyContext, a: seq<Symbol>, symbols: set<Symbol>)
    requires Listing(s, c, a, symbols)
    ensures a == [] <==> symbols == {}
  {
    if a != [] {
      assert a[0] in symbols;
    }
  }

  lemma FirstIsUnique(s: ConfirmedStrategy, c: StrategyContext, a: seq<Symbol>, b: seq<Symbol>, symbols: set<Symbol>)
    requires Listing(s, c, a, symbols) && Listing(s, c, b, symbols) && a != [] && b != []
    ensures a[0] == b[0]
  {
    hide Ahead;
    assert a[0] in b && b[0] in a;
    var i :| 0 <= i < |b| && b[i] == a[0];
    var j :| 0 <= j < |a| && a[j] == b[0];
    if i > 0 && j > 0 {
      AheadOnce(s, c, a[0], b[0]);
    }
  }

  lemma ListingRest(s: ConfirmedStrategy, c: StrategyContext, a: seq<Symbol>, symbols: set<Symbol>)
    requires Listing(s, c, a, symbols) && a != []
    ensures Listing(s, c, a[1..], symbols - {a[0]})
  {
    hide Ahead;
    forall x | x in a[1..]
      ensures x in symbols - {a[0]}
    {
      var i :| 0 <= i < |a[1..]| && a[1..][i] == x;
      assert a[i + 1] == x;
    }
    forall x | x in symbols - {a[0]}
      ensures x in a[1..]
    {
      var i :| 0 <= i < |a| && a[i] == x;
      assert a[1..][i - 1] == x;
    }
  }

  lemma TurnIsUnique(s: ConfirmedStrategy, c: StrategyContext, before: set<Symbol>, x: Symbol, a: set<Symbol>,
                     b: set<Symbol>)
    requires Turned(s, c, before, x, a) && Turned(s, c, before, x, b)
    ensures a == b
  {
    hide ScoreOf, Outdoes;
    if before != {} {
      var v :| Lowest(s, c, before, v) && a == if Outdoes(s, c, x, v) then before - {v} + {x} else before;
      var w :| Lowest(s, c, before, w) && b == if Outdoes(s, c, x, w) then before - {w} + {x} else before;
      LexTotal(v, w);
    }
  }

  lemma {:induction false} TurnsAreUnique(s: ConfirmedStrategy, c: StrategyContext, waiting: seq<Symbol>,
                                          t: seq<set<Symbol>>, u: seq<set<Symbol>>, n: nat)
    requires |t| == |u| == |waiting| + 1 && t[0] == u[0] && n <= |waiting|
    requires forall k :: 0 <= k < |waiting| ==> Turned(s, c, t[k], waiting[k], t[k + 1])
    requires forall k :: 0 <= k < |waiting| ==> Turned(s, c, u[k], waiting[k], u[k + 1])
    ensures t[n] == u[n]
  {
    hide Turned;
    if n > 0 {
      TurnsAreUnique(s, c, waiting, t, u, n - 1);
      assert Turned(s, c, t[n - 1], waiting[n - 1], t[n - 1 + 1])
             && Turned(s, c, u[n - 1], waiting[n - 1], u[n - 1 + 1]);
      TurnIsUnique(s, c, t[n - 1], waiting[n - 1], t[n], u[n]);
    }
  }

  lemma ProcedureIsUnique(s: ConfirmedStrategy, c: StrategyContext, k: set<Symbol>, e: set<Symbol>, w: seq<Symbol>,
                          t: seq<set<Symbol>>, k2: set<Symbol>, e2: set<Symbol>, w2: seq<Symbol>, t2: seq<set<Symbol>>)
    requires Procedure(s, c, k, e, w, t) && Procedure(s, c, k2, e2, w2, t2)
    ensures k == k2 && e == e2 && w == w2 && t[|w|] == t2[|w2|]
  {
    hide BestOf, Listing, Turned, Stayers, Entrants;
    BestIsUnique(s, c, s.maxPositions, Stayers(s, c), k, k2);
    BestIsUnique(s, c, s.maxPositions - |k|, Entrants(s, c), e, e2);
    ListingIsUnique(s, c, w, w2, Entrants(s, c) - e);
    TurnsAreUnique(s, c, w, t, t2, |w|);
  }

  // ----- The strategy carries it out

  lemma RanksIsAhead(s: ConfirmedStrategy, c: StrategyContext, x: Symbol, y: Symbol)
    ensures Ranks(s.SignalFor(c, x), s.SignalFor(c, y)) <==> Ahead(s, c, x, y)
  {
    ScoreNow(s, c, x);
    ScoreNow(s, c, y);
  }

  /** A list of the current signals of its symbols. */
  predicate Current(s: ConfirmedStrategy, c: StrategyContext, xs: seq<Signal>) {
    OnePerSymbol(xs) && forall x :: x in xs ==> x == s.SignalFor(c, x.symbol)
  }

  lemma NamesAre(s: ConfirmedStrategy, c: StrategyContext, xs: seq<Signal>, x: Symbol)
    requires Current(s, c, xs)
    ensures x in s.Names(xs) <==> s.SignalFor(c, x) in xs
    ensures |s.Names(xs)| == |xs|
  {
    hide ConfirmedStrategy.SignalFor;
    s.NamedSignal(c, x);
    AsManyNames(s, xs);
  }

  lemma KeptAreBest(s: ConfirmedStrategy, c: StrategyContext)
    ensures Current(s, c, s.Kept(c)) && BestOf(s, c, s.maxPositions, Stayers(s, c), s.Names(s.Kept(c)))
  {
    hide ConfirmedStrategy.Kept, ConfirmedStrategy.SignalFor, Ranks, Ahead, Stays, ConfirmedStrategy.ExitConfirmed,
      ConfirmedStrategy.Names;
    KeptAre(s, c);
    var kept, chosen, candidates := s.Kept(c), s.Names(s.Kept(c)), Stayers(s, c);
    forall x
      ensures x in chosen ==> x in candidates
      ensures x in candidates && x !in chosen ==> Outranked(s, c, x)
    {
      StayersAre(s, c, x);
      NamesAre(s, c, kept, x);
      s.NamedSignal(c, x);
    }
    forall x, y | x in chosen && y in candidates && y !in chosen
      ensures Ahead(s, c, x, y)
    {
      NamesAre(s, c, kept, x);
      RanksIsAhead(s, c, x, y);
      assert Outranked(s, c, y);
    }
    NamesAre(s, c, kept, "");
    if y :| y in candidates && y !in chosen {
      assert Outranked(s, c, y);
      assert |candidates| == |chosen| + |candidates - chosen|;
    } else {
      assert chosen == candidates;
    }
  }

  lemma StayersAre(s: ConfirmedStrategy, c: StrategyContext, x: Symbol)
    ensures x in Stayers(s, c) <==> x in s.Incumbents(c) && !s.ExitConfirmed(c, x)
  {
    hide ConfirmedStrategy.ExitConfirmed;
    MeaningOf(s, c, x);
  }

  lemma EntrantsAre(s: ConfirmedStrategy, c: StrategyContext, x: Symbol)
    ensures x in Entrants(s, c) <==> s.SignalFor(c, x) in s.Ready(c)
  {
    hide ConfirmedStrategy.EntryConfirmed, ConfirmedStrategy.Ready, ConfirmedStrategy.SignalFor;
    MeaningOf(s, c, x);
    ReadyAre(s, c);
    s.NamedSignal(c, x);
  }

  lemma PartIsCurrent(s: ConfirmedStrategy, c: StrategyContext, xs: seq<Signal>, from: nat, to: nat)
    requires Current(s, c, xs) && from <= to <= |xs|
    ensures Current(s, c, xs[from..to])
  {
    hide ConfirmedStrategy.SignalFor;
    forall x | x in xs[from..to]
      ensures x in xs
    {
    }
  }

  lemma AtFront(xs: seq<Signal>, n: nat, j: nat)
    requires n <= |xs| && j < |xs|
    ensures j < n ==> xs[j] in xs[..n]
  {
  }

  /** The first of a ranked list are the best. */
  lemma FirstAreBest(s: ConfirmedStrategy, c: StrategyContext, xs: seq<Signal>, n: nat, candidates: set<Symbol>)
    requires Current(s, c, xs) && InRank(xs) && n <= |xs| && s.Names(xs) == candidates
    ensures s.Names(xs[..n]) <= candidates && |s.Names(xs[..n])| == n && |candidates| == |xs|
    ensures forall x, y :: x in s.Names(xs[..n]) && y in candidates && y !in s.Names(xs[..n]) ==> Ahead(s, c, x, y)
  {
    hide ConfirmedStrategy.SignalFor, Ranks, Ahead, Current;
    PartIsCurrent(s, c, xs, 0, n);
    NamesAre(s, c, xs[0..n], "");
    NamesAre(s, c, xs, "");
    assert xs[0..n] == xs[..n];
    forall x, y | x in s.Names(xs[..n]) && y in candidates && y !in s.Names(xs[..n])
      ensures Ahead(s, c, x, y)
    {
      NamesAre(s, c, xs[0..n], x);
      NamesAre(s, c, xs[0..n], y);
      NamesAre(s, c, xs, y);
      var i :| 0 <= i < n && xs[i] == s.SignalFor(c, x);
      var j :| 0 <= j < |xs| && xs[j] == s.SignalFor(c, y);
      AtFront(xs, n, j);
      RanksIsAhead(s, c, x, y);
    }
  }

  lemma ReadyIsCurrent(s: ConfirmedStrategy, c: StrategyContext)
    ensures Current(s, c, s.Ready(c)) && InRank(s.Ready(c)) && s.Names(s.Ready(c)) == Entrants(s, c)
  {
    hide ConfirmedStrategy.SignalFor, ConfirmedStrategy.EntryConfirmed, ConfirmedStrategy.Challengers, Ranks, Entrants,
      Ranked;
    ReadyAre(s, c);
    RankedInRank(s.Challengers(c, Sorted(s.Signals(c).Keys)));
    forall x
      ensures x in s.Names(s.Ready(c)) <==> x in Entrants(s, c)
    {
      NamesAre(s, c, s.Ready(c), x);
      EntrantsAre(s, c, x);
    }
  }

  function SymbolsOf(xs: seq<Signal>): (r: seq<Symbol>)
    ensures |r| == |xs| && forall i :: 0 <= i < |r| ==> r[i] == xs[i].symbol
  {
    seq(|xs|, i requires 0 <= i < |xs| => xs[i].symbol)
  }

  lemma RestIsListed(s: ConfirmedStrategy, c: StrategyContext, xs: seq<Signal>, n: nat)
    requires Current(s, c, xs) && InRank(xs) && n <= |xs|
    ensures Listing(s, c, SymbolsOf(xs[n..]), s.Names(xs) - s.Names(xs[..n]))
  {
    hide ConfirmedStrategy.SignalFor, Ranks, Ahead;
    var list := SymbolsOf(xs[n..]);
    forall i, j | 0 <= i < j < |list|
      ensures list[i] != list[j] && Ahead(s, c, list[i], list[j])
    {
      assert xs[n + i] == xs[n..][i] && xs[n + j] == xs[n..][j];
      RanksIsAhead(s, c, list[i], list[j]);
    }
    forall x | x in list
      ensures x in s.Names(xs) - s.Names(xs[..n])
    {
      var i :| 0 <= i < |list| && list[i] == x;
      assert xs[n + i].symbol == x;
      forall y | y in xs[..n]
        ensures y.symbol != x
      {
        var j :| 0 <= j < n && xs[j] == y;
      }
    }
    forall x | x in s.Names(xs) - s.Names(xs[..n])
      ensures x in list
    {
      var y :| y in xs && y.symbol == x;
      var j :| 0 <= j < |xs| && xs[j] == y;
      AtFront(xs, n, j);
      assert list[j - n] == x;
    }
  }

  /** The loop's step is a turn. */
  lemma ChallengeIsTurn(s: ConfirmedStrategy, c: StrategyContext, selected: seq<Signal>, x: Signal)
    requires Current(s, c, selected) && x == s.SignalFor(c, x.symbol) && !Listed(selected, x.symbol)
    ensures Turned(s, c, s.Names(selected), x.symbol, s.Names(s.Challenged(c, selected, x)))
    ensures Current(s, c, s.Challenged(c, selected, x))
  {
    hide ConfirmedStrategy.SignalFor, ConfirmedStrategy.Beats, Outdoes, Weakest, ScoreOf, Without;
    ChallengedIs(s, c, selected, x);
    if selected != [] {
      var w := Weakest(selected);
      WeakestIs(selected);
      BeatsMeans(s, c, x.symbol, w.symbol);
      WeakestIsLowest(s, c, selected);
      assert Listed(selected, w.symbol) by {
        InMeansListed(selected, w);
      }
      WithoutIs(selected, w.symbol);
      NamesWithout(s, selected, w.symbol, x);
    } else {
      assert s.Names(selected) == {};
    }
  }

  lemma WeakestIsLowest(s: ConfirmedStrategy, c: StrategyContext, selected: seq<Signal>)
    requires Current(s, c, selected) && selected != []
    ensures Lowest(s, c, s.Names(selected), Weakest(selected).symbol)
  {
    hide ConfirmedStrategy.SignalFor, ScoreOf;
    WeakestIs(selected);
    var w := Weakest(selected);
    ScoreNow(s, c, w.symbol);
    forall y | y in s.Names(selected)
      ensures ScoreOf(s, c, w.symbol) < ScoreOf(s, c, y)
              || (ScoreOf(s, c, w.symbol) == ScoreOf(s, c, y) && LexLe(w.symbol, y))
    {
      NamesAre(s, c, selected, y);
      ScoreNow(s, c, y);
      assert Weaker(w, s.SignalFor(c, y));
    }
  }

  lemma NamesWithout(s: ConfirmedStrategy, selected: seq<Signal>, w: Symbol, x: Signal)
    requires OnePerSymbol(selected) && Listed(selected, w)
    ensures s.Names(Without(selected, w) + [x]) == s.Names(selected) - {w} + {x.symbol}
  {
    hide Without;
    WithoutIs(selected, w);
    forall y
      ensures y in s.Names(Without(selected, w) + [x]) <==> y in s.Names(selected) - {w} + {x.symbol}
    {
      if y == x.symbol {
        assert x in Without(selected, w) + [x];
      } else if z :| z in selected && z.symbol == y && y != w {
        assert z in Without(selected, w) + [x];
      }
    }
  }

  /** The lists the loop goes through, as sets. */
  function TurnsOf(s: ConfirmedStrategy, c: StrategyContext, filled: seq<Signal>, rest: seq<Signal>)
    : (r: seq<set<Symbol>>)
    ensures |r| == |rest| + 1
    ensures forall n :: 0 <= n <= |rest| ==> r[n] == s.Names(s.Replaced(c, filled, rest[..n]))
  {
    seq(|rest| + 1, n requires 0 <= n <= |rest| => s.Names(s.Replaced(c, filled, rest[..n])))
  }

  lemma {:induction false} ReplacedIsCurrent(s: ConfirmedStrategy, c: StrategyContext, filled: seq<Signal>,
                                             rest: seq<Signal>, n: nat)
    requires Current(s, c, filled + rest) && n < |rest|
    ensures var before := s.Replaced(c, filled, rest[..n]);
            && Current(s, c, before) && !Listed(before, rest[n].symbol) && rest[n] == s.SignalFor(c, rest[n].symbol)
            && s.Replaced(c, filled, rest[..n + 1]) == s.Challenged(c, before, rest[n])
  {
    hide ConfirmedStrategy.SignalFor, ConfirmedStrategy.Challenged, Displaced;
    var front := rest[..n];
    var all := filled + rest;
    assert filled + front == all[..|filled| + n] && all[|filled| + n] == rest[n] && rest[..n + 1][..n] == front;
    PartIsCurrent(s, c, all, 0, |filled| + n);
    assert all[0..|filled| + n] == filled + front;
    ReplacedIs(s, c, filled, front);
    var before := s.Replaced(c, filled, front);
    forall y | y in before
      ensures y.symbol != rest[n].symbol && y == s.SignalFor(c, y.symbol)
    {
      var i :| 0 <= i < |filled + front| && (filled + front)[i] == y;
      assert all[i] == y;
    }
    forall i | 0 <= i < |before|
      ensures before[i].symbol != rest[n].symbol
    {
      assert before[i] in before;
    }
  }

  /** What the strategy computes is one run of the procedure. */
  lemma SelectionIsProcedure(s: ConfirmedStrategy, c: StrategyContext)
    ensures exists k, e, w, t :: Procedure(s, c, k, e, w, t) && t[|w|] == s.Names(s.Selected(c))
  {
    hide ConfirmedStrategy.Kept, ConfirmedStrategy.Ready, ConfirmedStrategy.Replaced, Stayers, Entrants, Turned,
      ConfirmedStrategy.Names, Listing, Current, Ranks, Ahead, OnePerSymbol, Displaced;
    var kept, ready := s.Kept(c), s.Ready(c);
    var n := s.Free(kept, ready);
    var filled, rest := kept + ready[..n], ready[n..];
    KeptAreBest(s, c);
    NamesAre(s, c, kept, "");
    ReadyIsCurrent(s, c);
    FirstAreBest(s, c, ready, n, Entrants(s, c));
    RestIsListed(s, c, ready, n);
    SplitIsCurrent(s, c, n);
    var k, e, w, t := s.Names(kept), s.Names(ready[..n]), SymbolsOf(rest), TurnsOf(s, c, filled, rest);
    NamesOfBoth(s, kept, ready[..n]);
    assert rest[..0] == [] && rest[..|rest|] == rest;
    forall i | 0 <= i < |w|
      ensures Turned(s, c, t[i], w[i], t[i + 1])
    {
      ReplacedIsCurrent(s, c, filled, rest, i);
      ChallengeIsTurn(s, c, s.Replaced(c, filled, rest[..i]), rest[i]);
    }
    NothingReplaced(s, c, filled);
    assert Procedure(s, c, k, e, w, t);
    SelectedNames(s, c, s.Replaced(c, filled, rest));
  }

  lemma NothingReplaced(s: ConfirmedStrategy, c: StrategyContext, filled: seq<Signal>)
    ensures s.Replaced(c, filled, []) == filled
  {
  }

  lemma SplitIsCurrent(s: ConfirmedStrategy, c: StrategyContext, n: nat)
    requires n <= |s.Ready(c)|
    ensures Current(s, c, s.Kept(c) + s.Ready(c)[..n] + s.Ready(c)[n..])
  {
    hide ConfirmedStrategy.Kept, ConfirmedStrategy.Ready, ConfirmedStrategy.SignalFor, ConfirmedStrategy.ExitConfirmed,
      ConfirmedStrategy.EntryConfirmed, Outranked;
    KeptAre(s, c);
    ReadyAre(s, c);
    var kept, ready := s.Kept(c), s.Ready(c);
    assert kept + ready[..n] + ready[n..] == kept + ready;
    forall i, j | 0 <= i < |kept| && 0 <= j < |ready|
      ensures kept[i].symbol != ready[j].symbol
    {
      assert kept[i] in kept && ready[j] in ready;
    }
  }

  lemma NamesOfBoth(s: ConfirmedStrategy, xs: seq<Signal>, ys: seq<Signal>)
    ensures s.Names(xs + ys) == s.Names(xs) + s.Names(ys)
  {
    forall x | x in xs
      ensures x in xs + ys
    {
    }
    forall y | y in ys
      ensures y in xs + ys
    {
    }
  }

  lemma SelectedNames(s: ConfirmedStrategy, c: StrategyContext, xs: seq<Signal>)
    ensures s.Names(Ranked(xs)) == s.Names(xs)
  {
    hide Ranked;
    RankedKeeps(s, xs);
  }

  /** However the procedure is carried out, its outcome is the strategy's selection. */
  lemma SelectionIs(s: ConfirmedStrategy, c: StrategyContext, k: set<Symbol>, e: set<Symbol>, w: seq<Symbol>,
                    t: seq<set<Symbol>>)
    requires Procedure(s, c, k, e, w, t)
    ensures s.Names(s.Selected(c)) == t[|w|]
  {
    hide BestOf, Listing, Turned, Stayers, Entrants, ConfirmedStrategy.Selected;
    SelectionIsProcedure(s, c);
    var k2, e2, w2, t2 :| Procedure(s, c, k2, e2, w2, t2) && t2[|w2|] == s.Names(s.Selected(c));
    ProcedureIsUnique(s, c, k, e, w, t, k2, e2, w2, t2);
  }

  // ----- The target

  lemma {:induction false} ScoresAddUp(s: ConfirmedStrategy, c: StrategyContext, xs: seq<Signal>)
    requires Current(s, c, xs)
    ensures s.ScoreSum(xs) == MapSum.Sum(map x | x in s.Names(xs) :: ScoreOf(s, c, x))
  {
    hide MapSum.Sum, ScoreOf, ConfirmedStrategy.SignalFor;
    if xs == [] {
      MapSum.Empty<Symbol>();
      assert (map x | x in s.Names(xs) :: ScoreOf(s, c, x)) == map[];
    } else {
      var front, last := xs[..|xs| - 1], xs[|xs| - 1];
      PartIsCurrent(s, c, xs, 0, |xs| - 1);
      assert xs[0..|xs| - 1] == front;
      ScoresAddUp(s, c, front);
      NamesOfLast(s, c, xs);
      OneMoreScore(s, c, s.Names(front), last.symbol);
    }
  }

  lemma NamesOfLast(s: ConfirmedStrategy, c: StrategyContext, xs: seq<Signal>)
    requires Current(s, c, xs) && xs != []
    ensures var front, last := xs[..|xs| - 1], xs[|xs| - 1];
            && s.Names(xs) == s.Names(front) + {last.symbol} && last.symbol !in s.Names(front)
            && last.score == ScoreOf(s, c, last.symbol)
  {
    hide ScoreOf, ConfirmedStrategy.SignalFor;
    var front, last := xs[..|xs| - 1], xs[|xs| - 1];
    assert xs == front + [last];
    ScoreNow(s, c, last.symbol);
    NamesOfBoth(s, front, [last]);
    assert s.Names([last]) == {last.symbol};
    forall y | y in front
      ensures y.symbol != last.symbol
    {
      var i :| 0 <= i < |front| && front[i] == y;
      assert xs[i] == y;
    }
  }

  lemma OneMoreScore(s: ConfirmedStrategy, c: StrategyContext, names: set<Symbol>, x: Symbol)
    requires x !in names
    ensures MapSum.Sum(map y | y in names + {x} :: ScoreOf(s, c, y))
            == MapSum.Sum(map y | y in names :: ScoreOf(s, c, y)) + ScoreOf(s, c, x)
  {
    hide MapSum.Sum, ScoreOf;
    var before, after := map y | y in names :: ScoreOf(s, c, y), map y | y in names + {x} :: ScoreOf(s, c, y);
    assert after == before[x := ScoreOf(s, c, x)];
    MapSum.Updated(before, x, ScoreOf(s, c, x));
  }

  lemma SelectedIsCurrent(s: ConfirmedStrategy, c: StrategyContext)
    ensures Current(s, c, s.Selected(c))
  {
    hide ConfirmedStrategy.Selected, ConfirmedStrategy.Kept, ConfirmedStrategy.Ready, ConfirmedStrategy.SignalFor,
      ConfirmedStrategy.ExitConfirmed, ConfirmedStrategy.EntryConfirmed, Outranked, Displaced, Filled, Waiting;
    SelectedAre(s, c);
    KeptAre(s, c);
    ReadyAre(s, c);
  }

  lemma ShareIs(budget: real, n: nat)
    requires n > 0
    ensures budget / n as real * n as real == budget
  {
  }

  /**
    The target of a run of the procedure: without a budget, or with nothing selected, all cash; otherwise the same share
    of the budget for each, and the average score, cut to the unit interval, as confidence.
   */
  lemma TargetIs(s: ConfirmedStrategy, c: StrategyContext, k: set<Symbol>, e: set<Symbol>, w: seq<Symbol>,
                 t: seq<set<Symbol>>)
    requires s.Valid() && Procedure(s, c, k, e, w, t)
    ensures s.TargetOf(c).strategyId == s.name.strategyId && s.TargetOf(c).strategyVersion == s.name.version
    ensures var target, selected := s.TargetOf(c), t[|w|];
            if s.budget(c) == 0.0 || selected == {} then
              target.weights == map[] && target.cashWeight == 1.0
              && target.confidence == if s.budget(c) == 0.0 then 0.9 else 0.5
            else
              var scores := MapSum.Sum(map x | x in selected :: ScoreOf(s, c, x));
              && target.weights.Keys == selected && target.cashWeight == 1.0 - s.budget(c)
              && (forall x :: x in selected ==> target.weights[x] * |selected| as real == s.budget(c))
              && (scores <= 0.0 ==> target.confidence == 0.0)
              && (scores >= |selected| as real ==> target.confidence == 1.0)
              && (0.0 <= scores <= |selected| as real ==> target.confidence * |selected| as real == scores)
  {
    hide ConfirmedStrategy.Selected, ConfirmedStrategy.Names, BestOf, Listing, Turned, Stayers, Entrants, MapSum.Sum,
      ScoreOf, ConfirmedStrategy.ScoreSum,
      Current;
    SelectionIs(s, c, k, e, w, t);
    var selected, names := s.Selected(c), t[|w|];
    SelectedIsCurrent(s, c);
    NamesAre(s, c, selected, "");
    ScoresAddUp(s, c, selected);
    if s.budget(c) != 0.0 && names != {} {
      ShareIs(s.budget(c), |names|);
      Average(s.ScoreSum(selected), |names|);
    }
  }

  lemma Average(sum: real, n: nat)
    requires n > 0
    ensures var average := Min(Max(sum / n as real, 0.0), 1.0);
            && (sum <= 0.0 ==> average == 0.0) && (sum >= n as real ==> average == 1.0)
            && (0.0 <= sum <= n as real ==> average * n as real == sum)
  {
    var share := sum / n as real;
    assert share * n as real == sum;
    Sign(share, n as real);
    Sign(share - 1.0, n as real);
    assert (share - 1.0) * n as real == sum - n as real;
  }

  lemma Sign(a: real, b: real)
    requires b > 0.0
    ensures (a * b > 0.0 <==> a > 0.0) && (a * b < 0.0 <==> a < 0.0)
  {
    if a > 0.0 {
      PositiveProduct(a, b);
    } else if a < 0.0 {
      PositiveProduct(-a, b);
      assert (-a) * b == -(a * b);
    }
  }
}
