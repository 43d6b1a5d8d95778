/** Who is selected, who is not, and why (strategies/confirmed.py:102-210). */
module ConfirmedTheorems {
  import opened Domain
  import opened Contracts
  import opened Symbols
  import opened ProposalTheorems
  import opened Confirmed
  import opened Arithmetic
  import MapSum

  // ----- Lists

  lemma RanksIsAnOrder(a: Signal, b: Signal, c: Signal)
    ensures Ranks(a, b) || Ranks(b, a)
    ensures Ranks(a, b) && Ranks(b, c) ==> Ranks(a, c)
    ensures Weaker(a, b) || Weaker(b, a)
    ensures Weaker(a, b) && Weaker(b, c) ==> Weaker(a, c)
  {
    LexTotal(a.symbol, b.symbol);
    if LexLe(a.symbol, b.symbol) && LexLe(b.symbol, c.symbol) {
      LexTransitive(a.symbol, b.symbol, c.symbol);
    }
  }

  predicate InRank(xs: seq<Signal>) {
    forall i, j :: 0 <= i < j < |xs| ==> Ranks(xs[i], xs[j])
  }

  lemma {:induction false} InsertRanks(x: Signal, xs: seq<Signal>)
    requires InRank(xs)
    ensures InRank(InsertSignal(x, xs))
    ensures forall y :: y in InsertSignal(x, xs) ==> y == x || y in xs
  {
    hide Ranks;
    if xs == [] {
      assert InsertSignal(x, xs) == [x];
    } else if Ranks(x, xs[0]) {
      forall k | 0 <= k < |xs|
        ensures Ranks(x, xs[k])
      {
        RanksIsAnOrder(x, xs[0], xs[k]);
      }
    } else {
      RanksIsAnOrder(x, xs[0], x);
      InsertRanks(x, xs[1..]);
      FirstRanks(xs[0], InsertSignal(x, xs[1..]));
    }
  }

  lemma FirstRanks(x: Signal, rest: seq<Signal>)
    requires InRank(rest) && forall y :: y in rest ==> Ranks(x, y)
    ensures InRank([x] + rest)
  {
    hide Ranks;
  }

  lemma {:induction false} RankedInRank(xs: seq<Signal>)
    ensures InRank(Ranked(xs))
  {
    if xs != [] {
      RankedInRank(xs[1..]);
      InsertRanks(xs[0], Ranked(xs[1..]));
    }
  }

  /** Ranking permutes: the same elements, as many, still one per symbol. */
  lemma RankedKeeps(s: ConfirmedStrategy, xs: seq<Signal>)
    ensures |Ranked(xs)| == |xs| && forall x :: x in Ranked(xs) <==> x in xs
    ensures OnePerSymbol(xs) ==> OnePerSymbol(Ranked(xs))
  {
    hide Ranked;
    s.RankedMembers(xs);
    assert |multiset(Ranked(xs))| == |multiset(xs)|;
    forall x
      ensures x in Ranked(xs) <==> x in xs
    {
      assert x in multiset(Ranked(xs)) <==> x in multiset(xs);
    }
    if OnePerSymbol(xs) {
      DistinctPermuted(xs, Ranked(xs), (x: Signal) => x.symbol);
    }
  }

  lemma {:induction false} WeakestIs(xs: seq<Signal>)
    requires xs != []
    ensures Weakest(xs) in xs && forall x :: x in xs ==> Weaker(Weakest(xs), x)
  {
    hide Weaker;
    if |xs| == 1 {
      RanksIsAnOrder(xs[0], xs[0], xs[0]);
    } else {
      var w := Weakest(xs[1..]);
      WeakestIs(xs[1..]);
      RanksIsAnOrder(xs[0], w, w);
      forall x | x in xs
        ensures Weaker(Weakest(xs), x)
      {
        if x == xs[0] {
          RanksIsAnOrder(x, w, x);
          RanksIsAnOrder(x, x, x);
        } else {
          assert x in xs[1..];
          RanksIsAnOrder(xs[0], w, x);
        }
      }
    }
  }

  lemma {:induction false} WithoutIs(xs: seq<Signal>, s: Symbol)
    requires OnePerSymbol(xs) && Listed(xs, s)
    ensures |Without(xs, s)| == |xs| - 1 && OnePerSymbol(Without(xs, s))
    ensures forall x :: x in Without(xs, s) <==> x in xs && x.symbol != s
  {
    hide OnePerSymbol, Listed;
    OnePerTail(xs, s);
    if xs[0].symbol != s {
      WithoutIs(xs[1..], s);
      WithoutLater(xs[0], xs[1..], Without(xs[1..], s), s);
    } else {
      WithoutFirst(xs, s);
    }
  }

  lemma OnePerTail(xs: seq<Signal>, s: Symbol)
    requires OnePerSymbol(xs) && Listed(xs, s)
    ensures xs != [] && OnePerSymbol(xs[1..]) && xs == [xs[0]] + xs[1..]
    ensures xs[0].symbol != s ==> Listed(xs[1..], s)
  {
    var i :| 0 <= i < |xs| && xs[i].symbol == s;
    if i > 0 {
      assert xs[1..][i - 1].symbol == s;
    }
  }

  lemma WithoutFirst(xs: seq<Signal>, s: Symbol)
    requires OnePerSymbol(xs) && xs != [] && xs[0].symbol == s
    ensures OnePerSymbol(xs[1..]) && forall x :: x in xs[1..] <==> x in xs && x.symbol != s
  {
    forall x | x in xs[1..]
      ensures x.symbol != s
    {
      var i :| 0 <= i < |xs| - 1 && xs[1..][i] == x;
      assert xs[i + 1] == x;
    }
  }

  lemma WithoutLater(x: Signal, xs: seq<Signal>, ys: seq<Signal>, s: Symbol)
    requires OnePerSymbol([x] + xs) && OnePerSymbol(ys) && x.symbol != s
    requires forall y :: y in ys <==> y in xs && y.symbol != s
    ensures OnePerSymbol([x] + ys) && forall y :: y in [x] + ys <==> y in [x] + xs && y.symbol != s
  {
    forall y | y in ys
      ensures y.symbol != x.symbol
    {
      var i :| 0 <= i < |xs| && xs[i] == y;
      assert ([x] + xs)[i + 1] == y && ([x] + xs)[0] == x;
    }
  }

  lemma {:induction false} ChallengerMembers(s: ConfirmedStrategy, c: StrategyContext, symbols: seq<Symbol>)
    requires forall i, j :: 0 <= i < j < |symbols| ==> symbols[i] != symbols[j]
    ensures OnePerSymbol(s.Challengers(c, symbols))
    ensures forall x :: x in s.Challengers(c, symbols)
                        <==> x.symbol in symbols && x.symbol !in s.Incumbents(c) && s.EntryConfirmed(c, x.symbol)
                             && x == s.SignalFor(c, x.symbol)
  {
    hide ConfirmedStrategy.EntryConfirmed, ConfirmedStrategy.SignalFor, ConfirmedStrategy.Incumbents;
    if symbols != [] {
      var front, last := symbols[..|symbols| - 1], symbols[|symbols| - 1];
      ChallengerMembers(s, c, front);
      assert symbols == front + [last] && last !in front;
      s.NamedSignal(c, last);
    }
  }

  // ----- The stages

  /** Everything known about the list after ranking and cutting the incumbents. */
  lemma KeptAre(s: ConfirmedStrategy, c: StrategyContext)
    ensures |s.Kept(c)| <= s.maxPositions && OnePerSymbol(s.Kept(c))
    ensures forall x :: x in s.Kept(c) ==>
              x.symbol in s.Incumbents(c) && x == s.SignalFor(c, x.symbol) && !s.ExitConfirmed(c, x.symbol)
    ensures forall i :: i in s.Incumbents(c) && !s.ExitConfirmed(c, i) && s.SignalFor(c, i) !in s.Kept(c) ==>
              Outranked(s, c, i)
  {
    hide ConfirmedStrategy.ExitConfirmed, ConfirmedStrategy.SignalFor, ConfirmedStrategy.Incumbents,
      ConfirmedStrategy.Retained, Ranked, Ranks;
    var symbols := Sorted(s.Incumbents(c));
    var retained := s.Retained(c, symbols);
    s.RetainedMembers(c, symbols);
    RankedKeeps(s, retained);
    RankedInRank(retained);
    forall i | i in s.Incumbents(c) && !s.ExitConfirmed(c, i) && s.SignalFor(c, i) !in s.Kept(c)
      ensures Outranked(s, c, i)
    {
      s.NamedSignal(c, i);
      assert s.SignalFor(c, i) in Ranked(retained);
    }
  }

  /** All places are taken by incumbents that rank before this one. */
  predicate Outranked(s: ConfirmedStrategy, c: StrategyContext, i: Symbol) {
    |s.Kept(c)| == s.maxPositions && forall x :: x in s.Kept(c) ==> Ranks(x, s.SignalFor(c, i))
  }

  lemma ReadyAre(s: ConfirmedStrategy, c: StrategyContext)
    ensures OnePerSymbol(s.Ready(c))
    ensures forall x :: x in s.Ready(c)
                        <==> x.symbol !in s.Incumbents(c) && s.EntryConfirmed(c, x.symbol)
                             && x == s.SignalFor(c, x.symbol)
  {
    hide ConfirmedStrategy.SignalFor, ConfirmedStrategy.Incumbents, ConfirmedStrategy.Challengers, Ranked;
    var symbols := Sorted(s.Signals(c).Keys);
    ChallengerMembers(s, c, symbols);
    RankedKeeps(s, s.Challengers(c, symbols));
  }

  // ----- Replacement

  /** At some point of the loop this symbol was the weakest, and a confirmed challenger beat it. */
  predicate Displaced(s: ConfirmedStrategy, c: StrategyContext, filled: seq<Signal>, rest: seq<Signal>, y: Symbol) {
    exists n :: 0 <= n < |rest| && DisplacedAt(s, c, s.Replaced(c, filled, rest[..n]), rest[n], y)
  }

  predicate DisplacedAt(s: ConfirmedStrategy, c: StrategyContext, selected: seq<Signal>, x: Signal, y: Symbol) {
    selected != [] && Weakest(selected).symbol == y && s.Beats(c, x.symbol, y)
  }

  lemma ChallengedIs(s: ConfirmedStrategy, c: StrategyContext, selected: seq<Signal>, x: Signal)
    requires OnePerSymbol(selected) && !Listed(selected, x.symbol)
    ensures var next := s.Challenged(c, selected, x);
            && OnePerSymbol(next) && |next| == |selected|
            && (forall y :: y in next ==> y in selected || y == x)
            && (forall y :: y in selected && y !in next ==> DisplacedAt(s, c, selected, x, y.symbol))
  {
    hide Weakest, ConfirmedStrategy.Beats;
    if s.Challenged(c, selected, x) != selected {
      var w := Weakest(selected);
      WeakestIs(selected);
      var i :| 0 <= i < |selected| && selected[i] == w;
      WithoutIs(selected, w.symbol);
      forall y | y in Without(selected, w.symbol)
        ensures y.symbol != x.symbol
      {
        var j :| 0 <= j < |selected| && selected[j] == y;
      }
    }
  }

  lemma {:induction false} ReplacedIs(s: ConfirmedStrategy, c: StrategyContext, filled: seq<Signal>, rest: seq<Signal>)
    requires OnePerSymbol(filled + rest)
    ensures var r := s.Replaced(c, filled, rest);
            && OnePerSymbol(r) && |r| == |filled|
            && (forall y :: y in r ==> y in filled + rest)
            && (forall y :: y in filled && y !in r ==> Displaced(s, c, filled, rest, y.symbol))
  {
    hide ConfirmedStrategy.Challenged, DisplacedAt;
    if rest != [] {
      var n := |rest| - 1;
      var front, x := rest[..n], rest[n];
      FrontIsUnique(filled, rest);
      ReplacedIs(s, c, filled, front);
      var before := s.Replaced(c, filled, front);
      if i :| 0 <= i < |before| && before[i].symbol == x.symbol {
        LastIsNew(filled, rest, before[i]);
      }
      ChallengedIs(s, c, before, x);
      var r := s.Replaced(c, filled, rest);
      forall y | y in filled && y !in r
        ensures Displaced(s, c, filled, rest, y.symbol)
      {
        if y in before {
          assert DisplacedAt(s, c, s.Replaced(c, filled, rest[..n]), rest[n], y.symbol);
        } else {
          EarlierDisplaced(s, c, filled, rest, y.symbol);
        }
      }
    } else {
      assert filled + rest == filled;
    }
  }

  lemma FrontIsUnique(filled: seq<Signal>, rest: seq<Signal>)
    requires OnePerSymbol(filled + rest) && rest != []
    ensures OnePerSymbol(filled + rest[..|rest| - 1])
  {
    assert filled + rest[..|rest| - 1] == (filled + rest)[..|filled| + |rest| - 1];
  }

  lemma LastIsNew(filled: seq<Signal>, rest: seq<Signal>, y: Signal)
    requires OnePerSymbol(filled + rest) && rest != [] && y in filled + rest[..|rest| - 1]
    ensures y.symbol != rest[|rest| - 1].symbol
  {
    var all := filled + rest;
    var front := filled + rest[..|rest| - 1];
    var i :| 0 <= i < |front| && front[i] == y;
    assert all[i] == y && all[|all| - 1] == rest[|rest| - 1];
  }

  lemma EarlierDisplaced(s: ConfirmedStrategy, c: StrategyContext, filled: seq<Signal>, rest: seq<Signal>, y: Symbol)
    requires rest != [] && Displaced(s, c, filled, rest[..|rest| - 1], y)
    ensures Displaced(s, c, filled, rest, y)
  {
    hide DisplacedAt, ConfirmedStrategy.Replaced;
    var front := rest[..|rest| - 1];
    var n :| 0 <= n < |front| && DisplacedAt(s, c, s.Replaced(c, filled, front[..n]), front[n], y);
    assert front[..n] == rest[..n] && front[n] == rest[n];
  }

  // ----- The selection

  function Filled(s: ConfirmedStrategy, c: StrategyContext): seq<Signal> {
    s.Kept(c) + s.Ready(c)[..s.Free(s.Kept(c), s.Ready(c))]
  }

  function Waiting(s: ConfirmedStrategy, c: StrategyContext): seq<Signal> {
    s.Ready(c)[s.Free(s.Kept(c), s.Ready(c))..]
  }

  lemma FilledAre(s: ConfirmedStrategy, c: StrategyContext)
    ensures OnePerSymbol(Filled(s, c) + Waiting(s, c)) && |Filled(s, c)| <= s.maxPositions
    ensures forall x :: x in Filled(s, c) + Waiting(s, c) <==> x in s.Kept(c) || x in s.Ready(c)
  {
    hide ConfirmedStrategy.Kept, ConfirmedStrategy.Ready, ConfirmedStrategy.EntryConfirmed,
      ConfirmedStrategy.ExitConfirmed, Outranked;
    KeptAre(s, c);
    ReadyAre(s, c);
    var kept, ready := s.Kept(c), s.Ready(c);
    assert Filled(s, c) + Waiting(s, c) == kept + ready;
    forall i, j | 0 <= i < |kept| && 0 <= j < |ready|
      ensures kept[i].symbol != ready[j].symbol
    {
      assert kept[i] in kept && ready[j] in ready;
    }
  }

  /** The list that comes out of the replacements, before it is ranked again. */
  lemma SelectedAre(s: ConfirmedStrategy, c: StrategyContext)
    ensures OnePerSymbol(s.Selected(c)) && |s.Selected(c)| == |Filled(s, c)| <= s.maxPositions
    ensures forall x :: x in s.Selected(c) ==> x in s.Kept(c) || x in s.Ready(c)
    ensures forall x :: x in Filled(s, c) && x !in s.Selected(c) ==>
              Displaced(s, c, Filled(s, c), Waiting(s, c), x.symbol)
  {
    hide Filled, Waiting, ConfirmedStrategy.Kept, ConfirmedStrategy.Ready, ConfirmedStrategy.Replaced, Ranked,
      Displaced;
    FilledAre(s, c);
    ReplacedIs(s, c, Filled(s, c), Waiting(s, c));
    SelectedIsReplaced(s, c);
    RankedKeeps(s, s.Replaced(c, Filled(s, c), Waiting(s, c)));
  }

  lemma SelectedIsReplaced(s: ConfirmedStrategy, c: StrategyContext)
    ensures s.Selected(c) == Ranked(s.Replaced(c, Filled(s, c), Waiting(s, c)))
  {
    hide ConfirmedStrategy.Kept, ConfirmedStrategy.Ready, ConfirmedStrategy.Replaced, Ranked;
  }

  /**
    The selection: at most `maxPositions` distinct symbols.  A new one has passed every entry-confirmation bar,
    and no incumbent whose exit is confirmed is among them.
   */
  lemma SelectionIsConfirmed(s: ConfirmedStrategy, c: StrategyContext)
    ensures OnePerSymbol(s.Selected(c)) && |s.Selected(c)| <= s.maxPositions
    ensures forall x :: x in s.Selected(c) ==>
              if x.symbol in s.Incumbents(c) then !s.ExitConfirmed(c, x.symbol) else s.EntryConfirmed(c, x.symbol)
  {
    hide ConfirmedStrategy.Selected, ConfirmedStrategy.Kept, ConfirmedStrategy.Ready, ConfirmedStrategy.EntryConfirmed,
      ConfirmedStrategy.ExitConfirmed, Outranked, Displaced, Filled, Waiting;
    SelectedAre(s, c);
    KeptAre(s, c);
    ReadyAre(s, c);
  }

  /**
    An incumbent is dropped only by a confirmed exit, by rank, or by a challenger that beat it while it was the
    weakest.
   */
  lemma DroppedForAReason(s: ConfirmedStrategy, c: StrategyContext, i: Symbol)
    requires i in s.Incumbents(c) && !Listed(s.Selected(c), i)
    ensures s.ExitConfirmed(c, i) || Outranked(s, c, i) || Displaced(s, c, Filled(s, c), Waiting(s, c), i)
  {
    hide ConfirmedStrategy.Selected, ConfirmedStrategy.Kept, ConfirmedStrategy.Ready, ConfirmedStrategy.EntryConfirmed,
      ConfirmedStrategy.ExitConfirmed, Outranked, Displaced, Waiting;
    SelectedAre(s, c);
    KeptAre(s, c);
    s.NamedSignal(c, i);
    InMeansListed(s.Selected(c), s.SignalFor(c, i));
  }

  lemma InMeansListed(xs: seq<Signal>, x: Signal)
    ensures x in xs ==> Listed(xs, x.symbol)
  {
  }

  /** A free place is never left empty while a confirmed challenger waits. */
  lemma NoPlaceIsWasted(s: ConfirmedStrategy, c: StrategyContext, x: Symbol)
    requires |s.Selected(c)| < s.maxPositions && x !in s.Incumbents(c) && s.EntryConfirmed(c, x)
    ensures s.SignalFor(c, x) in s.Selected(c)
  {
    hide ConfirmedStrategy.Selected, ConfirmedStrategy.Kept, ConfirmedStrategy.Ready, ConfirmedStrategy.EntryConfirmed;
    SelectedAre(s, c);
    ReadyAre(s, c);
    s.NamedSignal(c, x);
    assert s.SignalFor(c, x) in s.Ready(c);
    assert Waiting(s, c) == [];
  }

  // ----- The target

  lemma {:induction false} ConstantSum(m: map<Symbol, real>, w: real)
    requires forall s :: s in m ==> m[s] == w
    ensures MapSum.Sum(m) == |m| as real * w
    decreases |m|
  {
    hide MapSum.Sum;
    if m == map[] {
      MapSum.Empty<Symbol>();
    } else {
      var s :| s in m;
      MapSum.Take(m, s);
      assert |m - {s}| == |m| - 1 by {
        assert (m - {s}).Keys == m.Keys - {s};
      }
      ConstantSum(m - {s}, w);
    }
  }

  lemma {:induction false} AsManyNames(s: ConfirmedStrategy, xs: seq<Signal>)
    requires OnePerSymbol(xs)
    ensures |s.Names(xs)| == |xs|
  {
    if xs == [] {
      assert s.Names(xs) == {};
    } else {
      var front, last := xs[..|xs| - 1], xs[|xs| - 1];
      AsManyNames(s, front);
      assert s.Names(xs) == s.Names(front) + {last.symbol};
    }
  }

  lemma EqualShares(budget: real, n: nat)
    requires 0.0 <= budget <= 1.0 && n > 0
    ensures n as real * (budget / n as real) == budget && 0.0 <= budget / n as real <= 1.0
  {
    var share := budget / n as real;
    assert n as real * share == budget;
    FactorNotNegative(share, n as real);
    AtMost(share, 1.0, n as real);
  }

  /** The target is one its own validators accept: the budget is shared out equally and completely. */
  lemma TargetIsValid(s: ConfirmedStrategy, c: StrategyContext)
    requires s.Valid()
    ensures s.TargetOf(c).Valid() && Answers(s.TargetOf(c), c)
    ensures |s.TargetOf(c).weights| <= s.maxPositions
    ensures s.budget(c) > 0.0 && s.Selected(c) != [] ==>
              s.TargetOf(c).weights.Keys == s.Names(s.Selected(c)) && MapSum.Sum(s.TargetOf(c).weights) == s.budget(c)
  {
    hide ConfirmedStrategy.Selected, MapSum.Sum;
    MapSum.Empty<Symbol>();
    var t, selected := s.TargetOf(c), s.Selected(c);
    SelectionIsConfirmed(s, c);
    if s.budget(c) != 0.0 && selected != [] {
      AsManyNames(s, selected);
      EqualShares(s.budget(c), |selected|);
      assert t.weights.Keys == s.Names(selected);
      assert |t.weights| == |t.weights.Keys|;
      ConstantSum(t.weights, s.budget(c) / |selected| as real);
    }
  }

  predicate Answers(t: TargetPortfolio, c: StrategyContext) {
    t.currency == c.currency && t.stateHash == c.stateHash && t.asOf == c.asOf
  }
}
