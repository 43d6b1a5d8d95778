/** Fetching bars in one range or in windows and batches (market_data/alpaca.py:157-297). */
module MarketData {
  import opened Wrappers
  import opened Domain
  import opened Contracts
  import opened Symbols

  const DAY: int := 86400

  // ----- Bars by time

  predicate IsFirst(times: set<Time>, t: Time) {
    t in times && forall u :: u in times ==> t <= u
  }

  lemma FirstExists(times: set<Time>)
    requires times != {}
    ensures exists t :: IsFirst(times, t)
  {
    assert (forall u :: u !in times) ==> times == {};
    var u :| u in times;
    if times - {u} == {} {
      assert forall v :: v in times ==> v in times - {u} || v == u;
      assert IsFirst(times, u);
    } else {
      FirstExists(times - {u});
      var t :| IsFirst(times - {u}, t);
      assert forall v :: v in times ==> v in times - {u} || v == u;
      assert IsFirst(times, if t <= u then t else u);
    }
  }

  function FirstTime(times: set<Time>): (t: Time)
    requires times != {}
    ensures IsFirst(times, t)
  {
    FirstExists(times);
    var t :| IsFirst(times, t);
    t
  }

  /** sorted(items.values(), key=timestamp) */
  function InOrder(bars: map<Time, MarketBar>): (r: seq<MarketBar>)
    requires Dated(bars)
    ensures StrictlyIncreasing(r)
    ensures forall b :: b in r <==> b.timestamp in bars && bars[b.timestamp] == b
    decreases |bars|
  {
    if bars == map[] then []
    else
      var t := FirstTime(bars.Keys);
      var rest := InOrder(bars - {t});
      assert forall b :: b in rest ==> b.timestamp in bars && b.timestamp != t;
      [bars[t]] + rest
  }

  predicate Dated(bars: map<Time, MarketBar>) {
    forall t :: t in bars ==> bars[t].timestamp == t
  }

  function InRange(bars: map<Time, MarketBar>, start: Time, end: Time): map<Time, MarketBar> {
    map t | t in bars && start <= t <= end :: bars[t]
  }

  predicate PartOf(m: map<Time, MarketBar>, all: map<Time, MarketBar>) {
    forall t :: t in m ==> t in all && m[t] == all[t]
  }

  // ----- The server

  /** One page of an answer, or an HTTP failure. */
  datatype Reply = Page(bars: map<Symbol, seq<MarketBar>>) | Failed

  /** The bars there are, and the pages of the answer to every request. */
  datatype Server = Server(bars: Symbol -> map<Time, MarketBar>, answer: (set<Symbol>, Time, Time, int) -> seq<Reply>) {

    /** A page shows only bars that exist, none from before the range; bars after its end are the client's to refuse. */
    ghost predicate Truthful(p: Reply, symbols: set<Symbol>, start: Time) {
      p.Page? ==> Genuine(p.bars, symbols, start)
    }

    ghost predicate Genuine(page: map<Symbol, seq<MarketBar>>, symbols: set<Symbol>, start: Time) {
      forall s, b :: s in symbols && s in page && b in page[s] ==> Exists(s, b) && start <= b.timestamp
    }

    predicate Exists(s: Symbol, b: MarketBar) {
      b.timestamp in bars(s) && bars(s)[b.timestamp] == b
    }

    predicate Shows(p: Reply, s: Symbol, b: MarketBar) {
      p.Page? && s in p.bars && b in p.bars[s]
    }

    /** All pages together show every bar of the range. */
    ghost predicate Whole(pages: seq<Reply>, symbols: set<Symbol>, start: Time, end: Time) {
      forall s, t :: s in symbols && t in bars(s) && start <= t <= end ==>
        exists i :: 0 <= i < |pages| && Shows(pages[i], s, bars(s)[t])
    }

    ghost predicate Answers(symbols: set<Symbol>, start: Time, end: Time, limit: int) {
      var pages := answer(symbols, start, end, limit);
      && pages != []
      && (forall i :: 0 <= i < |pages| ==> Truthful(pages[i], symbols, start))
      && ((forall i :: 0 <= i < |pages| ==> pages[i].Page?) ==> Whole(pages, symbols, start, end))
    }

    /** The server is a function of symbol and closed range, however it cuts its answers into pages. */
    ghost predicate Honest() {
      && (forall s :: Dated(bars(s)))
      && forall symbols, start, end, limit :: Answers(symbols, start, end, limit)
    }

    lemma AnswersTruly(symbols: set<Symbol>, start: Time, end: Time, limit: int)
      requires Honest()
      ensures Answers(symbols, start, end, limit)
    {
    }

    lemma RangeIsDated(s: Symbol, start: Time, end: Time)
      requires Honest()
      ensures Dated(InRange(bars(s), start, end))
    {
      assert Dated(bars(s));
    }
  }

  /** What one undivided request would give. */
  ghost predicate IsFetch(server: Server, symbols: set<Symbol>, start: Time, end: Time,
                          r: map<Symbol, seq<MarketBar>>) {
    && r.Keys == symbols
    && forall s :: s in symbols ==> IsRange(server, s, start, end, r[s])
  }

  ghost predicate IsRange(server: Server, s: Symbol, start: Time, end: Time, bars: seq<MarketBar>) {
    StrictlyIncreasing(bars) && forall b :: b in bars <==> server.Exists(s, b) && start <= b.timestamp <= end
  }

  /** There is only one such answer. */
  lemma {:induction false} RangeIsUnique(xs: seq<MarketBar>, ys: seq<MarketBar>)
    requires StrictlyIncreasing(xs) && StrictlyIncreasing(ys) && forall b :: b in xs <==> b in ys
    ensures xs == ys
  {
    assert ys != [] ==> ys[0] in ys;
    if xs != [] {
      assert xs[0] in ys;
      assert ys[0] in xs;
      assert xs[0] == ys[0] by {
        var i :| 0 <= i < |ys| && ys[i] == xs[0];
        var j :| 0 <= j < |xs| && xs[j] == ys[0];
      }
      forall b
        ensures b in xs[1..] <==> b in ys[1..]
      {
        TailMembers(xs, b);
        TailMembers(ys, b);
      }
      RangeIsUnique(xs[1..], ys[1..]);
      assert xs == [xs[0]] + xs[1..] && ys == [ys[0]] + ys[1..];
    }
  }

  /** So every way of asking, in whatever windows and batches, gives the same bars. */
  lemma FetchIsUnique(server: Server, symbols: set<Symbol>, start: Time, end: Time,
                      a: map<Symbol, seq<MarketBar>>, b: map<Symbol, seq<MarketBar>>)
    requires IsFetch(server, symbols, start, end, a) && IsFetch(server, symbols, start, end, b)
    ensures a == b
  {
    forall s | s in symbols
      ensures a[s] == b[s]
    {
      RangeIsUnique(a[s], b[s]);
    }
  }

  lemma TailMembers(xs: seq<MarketBar>, b: MarketBar)
    requires StrictlyIncreasing(xs) && xs != []
    ensures b in xs[1..] <==> b in xs && b != xs[0]
  {
    if b in xs[1..] {
      var i :| 0 <= i < |xs| - 1 && xs[1..][i] == b;
      assert xs[i + 1] == b;
    }
  }

  // ----- Symbols

  predicate IsSpace(c: char) {
    c == ' ' || c == '\t' || c == '\n' || c == '\r'
  }

  function StripLeft(s: string): string {
    if s != "" && IsSpace(s[0]) then StripLeft(s[1..]) else s
  }

  function StripRight(s: string): string {
    if s != "" && IsSpace(s[|s| - 1]) then StripRight(s[..|s| - 1]) else s
  }

  function UpperChar(c: char): char {
    if 'a' <= c <= 'z' then c - 'a' + 'A' else c
  }

  function Upper(s: string): string {
    seq(|s|, i requires 0 <= i < |s| => UpperChar(s[i]))
  }

  /** strip().upper() */
  function CleanSymbol(s: Symbol): Symbol {
    Upper(StripRight(StripLeft(s)))
  }

  /** _symbols: stripped, in upper case, without blanks and repetitions. */
  function Clean(symbols: set<Symbol>): set<Symbol> {
    set s | s in symbols && CleanSymbol(s) != "" :: CleanSymbol(s)
  }

  predicate Trimmed(s: string) {
    s != "" ==> !IsSpace(s[0]) && !IsSpace(s[|s| - 1])
  }

  lemma {:induction false} StripLeftStops(s: string)
    ensures StripLeft(s) != "" ==> !IsSpace(StripLeft(s)[0])
  {
    if s != "" && IsSpace(s[0]) {
      StripLeftStops(s[1..]);
    }
  }

  lemma {:induction false} StripRightStops(s: string)
    ensures StripRight(s) != "" ==> !IsSpace(StripRight(s)[|StripRight(s)| - 1]) && StripRight(s)[0] == s[0]
  {
    if s != "" && IsSpace(s[|s| - 1]) {
      StripRightStops(s[..|s| - 1]);
    }
  }

  lemma CleanIsTrimmed(s: string)
    ensures Trimmed(CleanSymbol(s)) && Upper(CleanSymbol(s)) == CleanSymbol(s)
  {
    StripLeftStops(s);
    StripRightStops(StripLeft(s));
  }

  ghost predicate Cleaned(symbols: set<Symbol>) {
    forall s :: s in symbols ==> CleanSymbol(s) == s && s != ""
  }

  lemma CleanIsCleaned(symbols: set<Symbol>)
    ensures Cleaned(Clean(symbols))
  {
    forall t | t in Clean(symbols)
      ensures CleanSymbol(t) == t && t != ""
    {
      var s :| s in symbols && CleanSymbol(s) != "" && CleanSymbol(s) == t;
      CleanIsTrimmed(s);
      assert StripLeft(t) == t && StripRight(t) == t;
    }
  }

  /** What has been cleaned stays as it is when it is cleaned again, so batches name the same symbols. */
  lemma CleanAgain(batch: set<Symbol>)
    requires Cleaned(batch)
    ensures Clean(batch) == batch
  {
    hide CleanSymbol;
    forall s
      ensures s in Clean(batch) <==> s in batch
    {
      if s in batch {
        assert CleanSymbol(s) == s;
      }
    }
  }

  // ----- The client

  /** The bars collected for one symbol lie in the range and are the server's. */
  ghost predicate Collects(server: Server, s: Symbol, start: Time, end: Time, m: map<Time, MarketBar>) {
    PartOf(m, InRange(server.bars(s), start, end))
  }

  method Absorb(server: Server, s: Symbol, items: seq<MarketBar>, start: Time, end: Time,
                collected: map<Time, MarketBar>)
      returns (res: Result<map<Time, MarketBar>, Error>)
    requires Collects(server, s, start, end, collected)
    requires forall b :: b in items ==> server.Exists(s, b) && start <= b.timestamp
    ensures res.Err? <==> exists b :: b in items && b.timestamp > end
    ensures res.Err? ==> res == Err(OutOfBounds)
    ensures res.Ok? ==> Collects(server, s, start, end, res.value)
    ensures res.Ok? ==> forall t :: t in collected ==> t in res.value
    ensures res.Ok? ==> forall b :: b in items ==> b.timestamp in res.value
  {
    var m := collected;
    for i := 0 to |items|
      invariant Collects(server, s, start, end, m)
      invariant forall t :: t in collected ==> t in m
      invariant forall j :: 0 <= j < i ==> items[j].timestamp in m && items[j].timestamp <= end
    {
      assert items[i] in items;
      if items[i].timestamp > end {
        return Err(OutOfBounds);
      }
      m := m[items[i].timestamp := items[i]];
    }
    return Ok(m);
  }

  ghost predicate Collected(server: Server, symbols: set<Symbol>, start: Time, end: Time,
                            all: map<Symbol, map<Time, MarketBar>>) {
    all.Keys == symbols && forall s :: s in symbols ==> Collects(server, s, start, end, all[s])
  }

  lemma NothingCollected(server: Server, symbols: set<Symbol>, start: Time, end: Time)
    ensures Collected(server, symbols, start, end, map s | s in symbols :: map[])
  {
  }

  predicate Grown(before: map<Symbol, map<Time, MarketBar>>, after: map<Symbol, map<Time, MarketBar>>) {
    forall s, t :: s in before && t in before[s] ==> s in after && t in after[s]
  }

  predicate Absorbed(page: map<Symbol, seq<MarketBar>>, symbols: set<Symbol>, all: map<Symbol, map<Time, MarketBar>>) {
    forall s, b :: s in symbols && s in page && b in page[s] ==> s in all && b.timestamp in all[s]
  }

  /** The page shows a bar of a requested symbol from after the end of the range. */
  ghost predicate Late(page: map<Symbol, seq<MarketBar>>, symbols: set<Symbol>, end: Time) {
    exists s, b :: s in symbols && s in page && b in page[s] && b.timestamp > end
  }

  method AbsorbPage(server: Server, page: map<Symbol, seq<MarketBar>>, symbols: set<Symbol>, start: Time, end: Time,
                    collected: map<Symbol, map<Time, MarketBar>>)
                      returns (res: Result<map<Symbol, map<Time, MarketBar>>, Error>)
    requires Collected(server, symbols, start, end, collected)
    requires server.Genuine(page, symbols, start)
    ensures res.Ok? ==> Collected(server, symbols, start, end, res.value)
    ensures res.Ok? ==> Grown(collected, res.value) && Absorbed(page, symbols, res.value)
    ensures res.Err? <==> Late(page, symbols, end)
    ensures res.Err? ==> res == Err(OutOfBounds)
  {
    var all := collected;
    var todo := page.Keys;
    while todo != {}
      invariant todo <= page.Keys
      invariant Collected(server, symbols, start, end, all) && Grown(collected, all)
      invariant forall s, b :: s in symbols && s in page && s !in todo && b in page[s] ==> b.timestamp in all[s]
      invariant forall s, b :: s in symbols && s in page && s !in todo && b in page[s] ==> b.timestamp <= end
      decreases todo
    {
      var s :| s in todo;
      todo := todo - {s};
      if s !in symbols {
        continue;
      }
      var m :- Absorb(server, s, page[s], start, end, all[s]);
      all := all[s := m];
    }
    return Ok(all);
  }

  function SortedBars(all: map<Symbol, map<Time, MarketBar>>): map<Symbol, seq<MarketBar>>
    requires forall s :: s in all ==> Dated(all[s])
  {
    map s | s in all :: InOrder(all[s])
  }

  lemma CollectedAll(server: Server, symbols: set<Symbol>, start: Time, end: Time,
                     all: map<Symbol, map<Time, MarketBar>>)
    requires server.Honest() && Collected(server, symbols, start, end, all)
    requires forall s, t :: s in symbols && t in server.bars(s) && start <= t <= end ==> t in all[s]
    ensures forall s :: s in all ==> Dated(all[s])
    ensures IsFetch(server, symbols, start, end, SortedBars(all))
  {
    forall s | s in symbols
      ensures Dated(all[s]) && IsRange(server, s, start, end, InOrder(all[s]))
    {
      server.RangeIsDated(s, start, end);
      assert Dated(all[s]);
      var r := InOrder(all[s]);
      forall b
        ensures b in r <==> server.Exists(s, b) && start <= b.timestamp <= end
      {
      }
    }
  }

  datatype Client = Client(server: Server, maxPages: nat) {

    function Cost(start: Time, end: Time): nat {
      if end - start > 45 * DAY then 2 else 0
    }

    /** The answer to one request: every page arrives, there are not too many, and none shows a later bar. */
    ghost predicate Answered(pages: seq<Reply>, symbols: set<Symbol>, end: Time) {
      && (|pages| <= maxPages || |pages| == 1)
      && forall i :: 0 <= i < |pages| ==> pages[i].Page? && !Late(pages[i].bars, symbols, end)
    }

    /** The server answers every request. */
    ghost predicate Prompt() {
      forall symbols, start, end, limit :: Answered(server.answer(symbols, start, end, limit), symbols, end)
    }

    /** The page loop of one request. */
    method FetchPages(symbols: set<Symbol>, start: Time, end: Time, limit: int)
      returns (res: Result<map<Symbol, seq<MarketBar>>, Error>)
      requires server.Honest()
      ensures res.Ok? ==> IsFetch(server, symbols, start, end, res.value)
      ensures res.Ok? <==> Answered(server.answer(symbols, start, end, limit), symbols, end)
    {
      hide IsFetch, Server.Honest, Server.Genuine, Server.Whole, Collected, Late;
      var pages := server.answer(symbols, start, end, limit);
      server.AnswersTruly(symbols, start, end, limit);
      NothingCollected(server, symbols, start, end);
      var all: map<Symbol, map<Time, MarketBar>> := map s | s in symbols :: map[];
      var n := 0;
      while true
        invariant n < |pages| && (n == 0 || n < maxPages)
        invariant Collected(server, symbols, start, end, all)
        invariant forall i :: 0 <= i < n ==>
                    pages[i].Page? && Absorbed(pages[i].bars, symbols, all) && !Late(pages[i].bars, symbols, end)
        decreases |pages| - n
      {
        if pages[n].Failed? {
          return Err(BrokerRaised);
        }
        assert server.Truthful(pages[n], symbols, start);
        var grown :- AbsorbPage(server, pages[n].bars, symbols, start, end, all);
        all := grown;
        n := n + 1;
        if n == |pages| {
          break;
        }
        if n >= maxPages {
          return Err(OutOfBounds);
        }
      }
      PagesAreAll(pages, symbols, start, end, all);
      CollectedAll(server, symbols, start, end, all);
      return Ok(SortedBars(all));
    }

    lemma PagesAreAll(pages: seq<Reply>, symbols: set<Symbol>, start: Time, end: Time,
                      all: map<Symbol, map<Time, MarketBar>>)
      requires server.Honest() && server.Whole(pages, symbols, start, end)
      requires Collected(server, symbols, start, end, all)
      requires forall i :: 0 <= i < |pages| ==> pages[i].Page? && Absorbed(pages[i].bars, symbols, all)
      ensures forall s, t :: s in symbols && t in server.bars(s) && start <= t <= end ==> t in all[s]
    {
      forall s, t | s in symbols && t in server.bars(s) && start <= t <= end
        ensures t in all[s]
      {
        var i :| 0 <= i < |pages| && server.Shows(pages[i], s, server.bars(s)[t]);
        assert Dated(server.bars(s));
      }
    }

    /** get_bars: one range, or windows of thirty days when it is longer than forty-five. */
    method GetBars(symbols: set<Symbol>, start: Time, end: Time, limit: int)
      returns (res: Result<map<Symbol, seq<MarketBar>>, Error>)
      requires server.Honest()
      ensures res.Ok? ==> IsFetch(server, Clean(symbols), start, end, res.value)
      ensures Clean(symbols) == {} || end <= start || limit <= 0 || limit > 10000 ==> res.Err?
      ensures Prompt() ==> (res.Ok? <==> Clean(symbols) != {} && start < end && 0 < limit <= 10000)
      decreases Cost(start, end), 0, 0
    {
      var clean := Clean(symbols);
      CleanIsCleaned(symbols);
      if clean == {} || end <= start || limit <= 0 || limit > 10000 {
        return Err(ValidationError);
      }
      if end - start > 45 * DAY {
        res := GetBarsWindowed(clean, start, end, 30 * DAY, 4, limit);
        CleanAgain(clean);
        return res;
      }
      res := FetchPages(clean, start, end, limit);
    }

    /** How deep the mutual recursion still goes. */
    function Depth(chunk: int): nat {
      if chunk > 45 * DAY then 3 else 1
    }

    method GetBarsWindowed(symbols: set<Symbol>, start: Time, end: Time, chunk: int, batchSize: int, limit: int)
        returns (res: Result<map<Symbol, seq<MarketBar>>, Error>)
      requires server.Honest()
      ensures res.Ok? ==> IsFetch(server, Clean(symbols), start, end, res.value)
      ensures Clean(symbols) == {} || end <= start || chunk <= 0 || batchSize <= 0 ==> res.Err?
      ensures Prompt() && 0 < limit <= 10000 ==>
                (res.Ok? <==> Clean(symbols) != {} && start < end && chunk > 0 && batchSize > 0)
      decreases Depth(chunk), 1, 0
    {
      var clean := Clean(symbols);
      CleanIsCleaned(symbols);
      if clean == {} || end <= start || chunk <= 0 || batchSize <= 0 {
        return Err(ValidationError);
      }
      var all: map<Symbol, map<Time, MarketBar>> := map s | s in clean :: map[];
      var cursor := start;
      while cursor < end
        invariant start <= cursor <= end
        invariant Collected(server, clean, start, end, all)
        invariant cursor > start ==> Covers(clean, start, cursor, all)
        decreases end - cursor
      {
        var windowEnd := if cursor + chunk <= end then cursor + chunk else end;
        var grown :- FetchWindow(clean, start, end, cursor, windowEnd, chunk, batchSize, limit, all);
        all := grown;
        cursor := windowEnd;
      }
      CollectedAll(server, clean, start, end, all);
      return Ok(SortedBars(all));
    }

    ghost predicate Covers(symbols: set<Symbol>, start: Time, end: Time, all: map<Symbol, map<Time, MarketBar>>) {
      forall s :: s in symbols ==> Covered(s, start, end, all)
    }

    /** The symbols at some places of the list. */
    function Batch(symbols: seq<Symbol>, from: nat, to: nat): (r: set<Symbol>)
      requires from < to <= |symbols|
      ensures r != {} && (forall s :: s in r ==> s in symbols) && forall j :: from <= j < to ==> symbols[j] in r
    {
      assert symbols[from..to][0] == symbols[from];
      assert forall j :: from <= j < to ==> symbols[j] == symbols[from..to][j - from];
      var r := set s | s in symbols[from..to];
      assert symbols[from] in r;
      r
    }

    /** All batches of one window. */
    method FetchWindow(clean: set<Symbol>, start: Time, end: Time, cursor: Time, windowEnd: Time, chunk: int,
                       batchSize: int, limit: int,
                       collected: map<Symbol, map<Time, MarketBar>>)
                         returns (res: Result<map<Symbol, map<Time, MarketBar>>, Error>)
      requires server.Honest() && batchSize > 0 && Cleaned(clean) && start <= cursor < windowEnd <= end
               && windowEnd <= cursor + chunk
      requires Collected(server, clean, start, end, collected)
      ensures res.Ok? ==> Collected(server, clean, start, end, res.value) && Grown(collected, res.value)
      ensures res.Ok? ==> Covers(clean, cursor, windowEnd, res.value)
      ensures Prompt() && 0 < limit <= 10000 ==> res.Ok?
      decreases Depth(chunk), 0, 1
    {
      hide IsFetch, Collected, Sorted, Server.Honest, Cleaned, Prompt;
      var symbols := Sorted(clean);
      var all := collected;
      var offset := 0;
      while offset < |symbols|
        invariant 0 <= offset
        invariant Collected(server, clean, start, end, all) && Grown(collected, all)
        invariant forall j :: 0 <= j < offset && j < |symbols| ==> Covered(symbols[j], cursor, windowEnd, all)
        decreases |symbols| - offset
      {
        var upTo := if offset + batchSize <= |symbols| then offset + batchSize else |symbols|;
        var batch := Batch(symbols, offset, upTo);
        var grown :- FetchBatch(clean, batch, start, end, cursor, windowEnd, chunk, limit, all);
        forall j | 0 <= j < offset + batchSize && j < |symbols|
          ensures Covered(symbols[j], cursor, windowEnd, grown)
        {
          assert j >= offset ==> symbols[j] in batch;
        }
        all := grown;
        offset := offset + batchSize;
      }
      forall s | s in clean
        ensures Covered(s, cursor, windowEnd, all)
      {
        var j :| 0 <= j < |symbols| && symbols[j] == s;
      }
      return Ok(all);
    }

    ghost predicate Covered(s: Symbol, start: Time, end: Time, all: map<Symbol, map<Time, MarketBar>>) {
      s in all && forall t :: t in server.bars(s) && start <= t <= end ==> t in all[s]
    }

    /** One request of one batch, merged into what there is. */
    method FetchBatch(clean: set<Symbol>, batch: set<Symbol>, start: Time, end: Time, cursor: Time, windowEnd: Time,
                      chunk: int, limit: int,
                      collected: map<Symbol, map<Time, MarketBar>>)
                        returns (res: Result<map<Symbol, map<Time, MarketBar>>, Error>)
      requires server.Honest() && start <= cursor < windowEnd <= end && windowEnd <= cursor + chunk
      requires Collected(server, clean, start, end, collected) && batch <= clean && Cleaned(clean)
      ensures res.Ok? ==> Collected(server, clean, start, end, res.value) && Grown(collected, res.value)
      ensures res.Ok? ==> forall s :: s in batch ==> Covered(s, cursor, windowEnd, res.value)
      ensures Prompt() && 0 < limit <= 10000 && batch != {} ==> res.Ok?
      ensures res.Ok? ==> forall s :: s in clean && Covered(s, cursor, windowEnd, collected) ==>
                Covered(s, cursor, windowEnd, res.value)
      decreases Depth(chunk), 0, 0
    {
      hide IsFetch, Collects, Server.Honest, Server.Genuine, Absorbed, Prompt;
      CleanAgain(batch);
      var bars :- GetBars(batch, cursor, windowEnd, limit);
      FetchedIsGenuine(clean, batch, start, cursor, windowEnd, bars);
      assert !Late(bars, clean, end);
      res := AbsorbPage(server, bars, clean, start, end, collected);
      if res.Ok? {
        BatchCovered(clean, batch, cursor, windowEnd, bars, res.value);
      }
    }

    lemma FetchedIsGenuine(clean: set<Symbol>, batch: set<Symbol>, start: Time, cursor: Time, windowEnd: Time,
                           bars: map<Symbol, seq<MarketBar>>)
      requires IsFetch(server, batch, cursor, windowEnd, bars) && start <= cursor
      ensures server.Genuine(bars, clean, start) && !Late(bars, clean, windowEnd)
    {
    }

    lemma BatchCovered(clean: set<Symbol>, batch: set<Symbol>, cursor: Time, windowEnd: Time,
                       bars: map<Symbol, seq<MarketBar>>,
                       all: map<Symbol, map<Time, MarketBar>>)
      requires server.Honest() && batch <= clean && batch <= all.Keys
               && IsFetch(server, batch, cursor, windowEnd, bars) && Absorbed(bars, clean, all)
      ensures forall s :: s in batch ==> Covered(s, cursor, windowEnd, all)
    {
      forall s | s in batch
        ensures Covered(s, cursor, windowEnd, all)
      {
        assert Dated(server.bars(s));
        forall t | t in server.bars(s) && cursor <= t <= windowEnd
          ensures t in all[s]
        {
          assert server.bars(s)[t] in bars[s];
        }
      }
    }
  }
}
