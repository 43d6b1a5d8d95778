/** One rebalance of the replay engine: sales, then purchases (backtest/engine.py:237-364). */
module Rebalancing {
  import opened Wrappers
  import opened Folds
  import opened Domain
  import opened Symbols
  import opened RebalancePolicy
  import opened Arithmetic
  import MapSum

  const CASH_EPSILON := 0.000000000001

  datatype Rates = Rates(slippage: real, fee: real) {
    predicate Valid() {
      0.0 <= slippage < 1.0 && 0.0 <= fee < 1.0
    }

    /** Cost per unit of turnover, at worst. */
    function Worst(): real
      requires Valid()
    {
      fee + slippage / (1.0 - slippage)
    }
  }

  /** What a rebalance is asked to do. */
  datatype Request = Request(rates: Rates, nav: real, weights: map<Symbol, real>, prices: map<Symbol, real>,
                             plan: Option<RebalancePlan>) {
    predicate Valid() {
      && rates.Valid()
      && nav >= 0.0
      && (forall s :: s in weights ==> weights[s] >= 0.0)
      && forall s :: s in prices ==> prices[s] > 0.0
    }

    predicate Allows(s: Symbol) {
      plan.None? || Executes(plan.value, s)
    }

    function TargetValue(s: Symbol): real {
      nav * if s in weights then weights[s] else 0.0
    }
  }

  /** The running totals of one rebalance. */
  datatype Trading = Trading(cash: real, positions: map<Symbol, Position>, turnover: real, costs: real, trades: nat)

  predicate Sound(cash: real, positions: map<Symbol, Position>) {
    cash >= 0.0 && forall s :: s in positions ==> positions[s].quantity > 0.0 && positions[s].averagePrice >= 0.0
  }

  // ----- The two loops, one symbol at a time

  /** The money side of one simulated fill: what is paid, the fee on it, and the slippage against the quoted price. */
  datatype Fill = Fill(quantity: real, price: real, notional: real, fee: real, impact: real)

  function SaleFill(rates: Rates, quantity: real, price: real): Fill {
    var fillPrice := price * (1.0 - rates.slippage);
    var notional := quantity * fillPrice;
    Fill(quantity, fillPrice, notional, notional * rates.fee, quantity * (price - fillPrice))
  }

  function PurchaseFill(rates: Rates, quantity: real, price: real): Fill {
    var fillPrice := price * (1.0 + rates.slippage);
    var notional := quantity * fillPrice;
    Fill(quantity, fillPrice, notional, notional * rates.fee, quantity * (fillPrice - price))
  }

  function SellStep(r: Request, t: Trading, s: Symbol): Trading {
    if !r.Allows(s) || s !in r.prices then t else SellTowards(r.rates, t, s, r.prices[s], r.TargetValue(s))
  }

  function SellTowards(rates: Rates, t: Trading, s: Symbol, price: real, target: real): Trading {
    var held := QuantityOf(t.positions, s);
    if s !in t.positions || price <= 0.0 || held * price <= target then t
    else Sell(t, s, SaleFill(rates, SaleQuantity(held, price, target), price))
  }

  function SaleQuantity(held: real, price: real, target: real): real
    requires price > 0.0
  {
    Min((held * price - target) / price, held)
  }

  function Sell(t: Trading, s: Symbol, f: Fill): Trading
    requires s in t.positions
  {
    var remainder := t.positions[s].quantity - f.quantity;
    Trading(t.cash + (f.notional - f.fee),
            if remainder <= 0.0 then t.positions - {s}
               else t.positions[s := Position(remainder, t.positions[s].averagePrice)],
            t.turnover + f.notional,
            t.costs + (f.fee + f.impact),
            t.trades + 1)
  }

  function ClampCash(value: real): Result<real, Error> {
    if value >= 0.0 then Ok(value)
    else if value >= -CASH_EPSILON then Ok(0.0)
    else Err(OutOfBounds)
  }

  function BuyQuantity(rates: Rates, cash: real, held: real, price: real, target: real): real {
    WithinMeans(target - held * price, cash, price * (1.0 + rates.slippage), rates.fee)
  }

  /** The quantity that closes the gap, or what the cash can pay with the fee on top. */
  function WithinMeans(gap: real, cash: real, fillPrice: real, fee: real): real {
    var denominator := fillPrice * (1.0 + fee);
    Min(if fillPrice == 0.0 then 0.0 else gap / fillPrice, if denominator > 0.0 then cash / denominator else 0.0)
  }

  function BuyStep(r: Request, t: Trading, s: Symbol): Result<Trading, Error> {
    if !r.Allows(s) || s !in r.prices || s !in r.weights || r.weights[s] <= 0.0 then Ok(t)
    else BuyTowards(r.rates, t, s, r.prices[s], r.TargetValue(s))
  }

  function BuyTowards(rates: Rates, t: Trading, s: Symbol, price: real, target: real): Result<Trading, Error> {
    var held := QuantityOf(t.positions, s);
    if held * price >= target then Ok(t)
    else
      var quantity := BuyQuantity(rates, t.cash, held, price, target);
      if quantity <= 0.0 then Ok(t) else Buy(t, s, PurchaseFill(rates, quantity, price))
  }

  function Buy(t: Trading, s: Symbol, f: Fill): Result<Trading, Error> {
    var cash :- ClampCash(t.cash - (f.notional + f.fee));
    Ok(Trading(cash, t.positions[s := Merged(t.positions, s, f)], t.turnover + f.notional,
               t.costs + (f.fee + f.impact), t.trades + 1))
  }

  function Merged(positions: map<Symbol, Position>, s: Symbol, f: Fill): Position {
    if s !in positions then Position(f.quantity, f.price)
    else
      var held := positions[s];
      var total := held.quantity + f.quantity;
      Position(total, if total == 0.0 then 0.0 else (held.quantity * held.averagePrice + f.quantity * f.price) / total)
  }

  function Sells(r: Request, t: Trading, symbols: seq<Symbol>): Trading {
    if symbols == [] then t
    else SellStep(r, Sells(r, t, symbols[..|symbols| - 1]), symbols[|symbols| - 1])
  }

  function Buys(r: Request, t: Trading, symbols: seq<Symbol>): Result<Trading, Error> {
    if symbols == [] then Ok(t)
    else
      var before :- Buys(r, t, symbols[..|symbols| - 1]);
      BuyStep(r, before, symbols[|symbols| - 1])
  }

  function Rebalanced(r: Request, cash: real, positions: map<Symbol, Position>): Result<Trading, Error> {
    var symbols := Sorted(Universe(positions, r.weights));
    Buys(r, Sells(r, Trading(cash, positions, 0.0, 0.0, 0), symbols), symbols)
  }

  lemma BuysFailEarly(r: Request, t: Trading, symbols: seq<Symbol>, n: nat)
    requires n <= |symbols| && Buys(r, t, symbols[..n]).Err?
    ensures Buys(r, t, symbols) == Buys(r, t, symbols[..n])
  {
    hide BuyStep;
    PrefixDecides((xs: seq<Symbol>) => Buys(r, t, xs), (v: Result<Trading, Error>) => v.Err?, symbols, n);
  }

  method SellDown(r: Request, t: Trading, symbols: seq<Symbol>) returns (sold: Trading)
    ensures sold == Sells(r, t, symbols)
  {
    sold := t;
    for i := 0 to |symbols|
      invariant sold == Sells(r, t, symbols[..i])
    {
      assert symbols[..i + 1][..i] == symbols[..i];
      sold := SellStep(r, sold, symbols[i]);
    }
    assert symbols[..|symbols|] == symbols;
  }

  method BuyUp(r: Request, t: Trading, symbols: seq<Symbol>) returns (res: Result<Trading, Error>)
    ensures res == Buys(r, t, symbols)
  {
    var bought := t;
    for i := 0 to |symbols|
      invariant Ok(bought) == Buys(r, t, symbols[..i])
    {
      assert symbols[..i + 1][..i] == symbols[..i];
      var next := BuyStep(r, bought, symbols[i]);
      if next.Err? {
        BuysFailEarly(r, t, symbols, i + 1);
        return next;
      }
      bought := next.value;
    }
    assert symbols[..|symbols|] == symbols;
    return Ok(bought);
  }

  method Rebalance(r: Request, cash: real, positions: map<Symbol, Position>) returns (res: Result<Trading, Error>)
    ensures res == Rebalanced(r, cash, positions)
  {
    var symbols := Sorted(Universe(positions, r.weights));
    var sold := SellDown(r, Trading(cash, positions, 0.0, 0.0, 0), symbols);
    res := BuyUp(r, sold, symbols);
  }

  // ----- Value

  function Mark(prices: map<Symbol, real>, s: Symbol, p: Position): real {
    if s in prices then prices[s] else p.averagePrice
  }

  function MarkedValue(prices: map<Symbol, real>, s: Symbol, p: Position): real {
    p.quantity * Mark(prices, s, p)
  }

  function Values(prices: map<Symbol, real>, positions: map<Symbol, Position>): map<Symbol, real> {
    map s | s in positions :: MarkedValue(prices, s, positions[s])
  }

  ghost function Nav(cash: real, positions: map<Symbol, Position>, prices: map<Symbol, real>): real {
    cash + Total(prices, positions)
  }

  predicate Untouched(m: map<Symbol, Position>, n: map<Symbol, Position>, s: Symbol) {
    (s in m <==> s in n) && (s in m ==> m[s] == n[s])
  }

  ghost predicate SameElsewhere(m: map<Symbol, Position>, n: map<Symbol, Position>, s: Symbol) {
    forall x :: x != s ==> Untouched(m, n, x)
  }

  ghost function Total(prices: map<Symbol, real>, positions: map<Symbol, Position>): real {
    MapSum.Sum(Values(prices, positions))
  }

  lemma ValuesMove(prices: map<Symbol, real>, m: map<Symbol, Position>, n: map<Symbol, Position>, s: Symbol)
    requires SameElsewhere(m, n, s)
    ensures Total(prices, n) == Total(prices, m) - MapSum.Get(Values(prices, m), s) + MapSum.Get(Values(prices, n), s)
  {
    var before, after := Values(prices, m), Values(prices, n);
    forall x | x != s
      ensures x in before <==> x in after
      ensures x in before ==> after[x] == before[x]
    {
      assert Untouched(m, n, x);
    }
    MapSum.ChangedAt(before, after, s);
  }

  lemma ValueOfPriced(prices: map<Symbol, real>, m: map<Symbol, Position>, s: Symbol)
    requires s in prices
    ensures MapSum.Get(Values(prices, m), s) == QuantityOf(m, s) * prices[s]
  {
  }

  lemma Balance(before: real, after: real, held: real, moved: real, price: real, amount: real)
    requires before == held * price && after == (held + moved) * price && amount == moved * price
    ensures after == before + amount
  {
    Distribute(price, held, moved);
  }

  lemma OneSymbolMoves(prices: map<Symbol, real>, m: map<Symbol, Position>, n: map<Symbol, Position>, s: Symbol,
                       moved: real, amount: real)
    requires SameElsewhere(m, n, s) && s in prices
    requires QuantityOf(n, s) == QuantityOf(m, s) + moved && amount == moved * prices[s]
    ensures Total(prices, n) == Total(prices, m) + amount
  {
    ValuesMove(prices, m, n, s);
    ValueMoves(prices, m, n, s, moved, amount);
  }

  lemma ValueMoves(prices: map<Symbol, real>, m: map<Symbol, Position>, n: map<Symbol, Position>, s: Symbol,
                   moved: real, amount: real)
    requires s in prices
    requires QuantityOf(n, s) == QuantityOf(m, s) + moved && amount == moved * prices[s]
    ensures MapSum.Get(Values(prices, n), s) == MapSum.Get(Values(prices, m), s) + amount
  {
    ValueOfPriced(prices, m, s);
    ValueOfPriced(prices, n, s);
    Balance(MapSum.Get(Values(prices, m), s), MapSum.Get(Values(prices, n), s), QuantityOf(m, s), moved, prices[s],
            amount);
  }

  // ----- Arithmetic of one trade

  lemma SoldToTarget(held: real, price: real, target: real)
    requires price > 0.0 && 0.0 <= target < held * price
    ensures 0.0 < SaleQuantity(held, price, target) <= held
    ensures (held - SaleQuantity(held, price, target)) * price == target
  {
    var sold := (held * price - target) / price;
    assert sold * price == held * price - target;
    QuotientOrder(held * price - target, held, price);
    if sold <= 0.0 {
      Scale(price, sold, 0.0);
    }
    assert (held - sold) * price == held * price - sold * price;
  }

  /** Slippage per unit of turnover: `price - fill` over `fill`. */
  lemma SaleCost(rates: Rates, quantity: real, price: real)
    requires rates.Valid()
    ensures var fill := price * (1.0 - rates.slippage);
            quantity * fill * rates.fee + quantity * (price - fill) == quantity * fill * rates.Worst()
  {
    var left := 1.0 - rates.slippage;
    var fill := price * left;
    assert left * (rates.slippage / left) == rates.slippage;
    assert price - fill == price * rates.slippage;
    calc {
      quantity * fill * (rates.slippage / left);
      quantity * (price * left) * (rates.slippage / left);
      quantity * price * (left * (rates.slippage / left));
      quantity * price * rates.slippage;
      quantity * (price - fill);
    }
    Distribute(quantity * fill, rates.fee, rates.slippage / left);
  }

  lemma PurchaseCost(rates: Rates, quantity: real, price: real)
    requires rates.Valid() && quantity >= 0.0 && price >= 0.0
    ensures var fill := price * (1.0 + rates.slippage);
            quantity * fill * rates.fee + quantity * (fill - price) <= quantity * fill * rates.Worst()
  {
    var fill := price * (1.0 + rates.slippage);
    var left := 1.0 - rates.slippage;
    var share := rates.slippage / left;
    assert share >= 0.0 && share * left == rates.slippage;
    assert share * (1.0 - rates.slippage) == share - share * rates.slippage;
    ShareOrder(share, rates.slippage);
    Distribute(price, 1.0, rates.slippage);
    Scale(price, rates.slippage, (1.0 + rates.slippage) * share);
    assert price * ((1.0 + rates.slippage) * share) == fill * share;
    Scale(quantity, fill - price, fill * share);
    assert quantity * (fill * share) == quantity * fill * share;
    Distribute(quantity * fill, rates.fee, share);
  }

  lemma ShareOrder(share: real, slippage: real)
    requires share >= 0.0 && slippage >= 0.0 && share - share * slippage == slippage
    ensures slippage <= (1.0 + slippage) * share
  {
    assert share * slippage >= 0.0;
    assert (1.0 + slippage) * share == share + slippage * share;
  }

  lemma BoughtWithinMeans(rates: Rates, cash: real, held: real, price: real, target: real)
    requires rates.Valid() && cash >= 0.0 && held >= 0.0 && price > 0.0 && held * price < target
    ensures var fill := price * (1.0 + rates.slippage);
            var quantity := BuyQuantity(rates, cash, held, price, target);
            && fill >= price && quantity >= 0.0
            && quantity * fill + quantity * fill * rates.fee <= cash
            && (held + quantity) * price <= target
            && (quantity * fill == target - held * price || quantity * fill + quantity * fill * rates.fee == cash)
            && (cash > 0.0 ==> quantity > 0.0)
  {
    hide WithinMeans;
    FillAbove(price, rates.slippage);
    var fill := price * (1.0 + rates.slippage);
    Affordable(fill, rates.fee, cash, target - held * price);
    NoFurther(WithinMeans(target - held * price, cash, fill, rates.fee), held, price, fill, target);
  }

  lemma NoFurther(quantity: real, held: real, price: real, fill: real, target: real)
    requires quantity >= 0.0 && fill >= price && quantity * fill <= target - held * price
    ensures (held + quantity) * price <= target
  {
    Scale(quantity, price, fill);
    Distribute(price, held, quantity);
  }

  lemma FillAbove(price: real, slippage: real)
    requires price > 0.0 && slippage >= 0.0
    ensures price * (1.0 + slippage) >= price
  {
    Scale(price, 1.0, 1.0 + slippage);
  }

  lemma Affordable(fill: real, fee: real, cash: real, wanted: real)
    requires fill > 0.0 && fee >= 0.0 && cash >= 0.0 && wanted > 0.0
    ensures var quantity := WithinMeans(wanted, cash, fill, fee);
            && quantity >= 0.0
            && quantity * fill + quantity * fill * fee <= cash
            && quantity * fill <= wanted
            && (quantity * fill == wanted || quantity * fill + quantity * fill * fee == cash)
            && (cash > 0.0 ==> quantity > 0.0)
  {
    FillAbove(fill, fee);
    var denominator := fill * (1.0 + fee);
    var desired, affordable := wanted / fill, cash / denominator;
    assert desired * fill == wanted && affordable * denominator == cash;
    var quantity := Min(desired, affordable);
    WithFee(quantity, fill, fee);
    Scale(denominator, quantity, affordable);
    Scale(fill, quantity, desired);
  }

  lemma WithFee(quantity: real, fill: real, fee: real)
    ensures quantity * (fill * (1.0 + fee)) == quantity * fill + quantity * fill * fee
  {
    Distribute(quantity * fill, 1.0, fee);
    assert quantity * (fill * (1.0 + fee)) == quantity * fill * (1.0 + fee);
  }

  // ----- What one step does

  predicate CostBound(rates: Rates, costs: real, turnover: real)
    requires rates.Valid()
  {
    costs <= turnover * rates.Worst()
  }

  /**
    One trade between two books: nothing is lost but what is reported as cost, the cost is bounded by what is
    turned over, and only one symbol moves.
   */
  ghost predicate Traded(rates: Rates, prices: map<Symbol, real>, t: Trading, u: Trading, s: Symbol)
    requires rates.Valid()
  {
    && Nav(u.cash, u.positions, prices) + u.costs == Nav(t.cash, t.positions, prices) + t.costs
    && CostBound(rates, u.costs - t.costs, u.turnover - t.turnover)
    && SameElsewhere(t.positions, u.positions, s)
  }

  /** A sale ends exactly at the target. */
  predicate SoldTo(before: real, after: real, price: real, target: real) {
    after < before && after * price == target
  }

  /** Either the whole gap to the target is bought, at the slipped price, or all cash is spent. */
  predicate BoughtTowards(rates: Rates, before: real, after: real, price: real, target: real, cash: real) {
    && before <= after
    && after * price <= target
    && ((after - before) * (price * (1.0 + rates.slippage)) == target - before * price || cash == 0.0)
  }

  lemma TargetIsNonNegative(r: Request, s: Symbol)
    requires r.Valid()
    ensures r.TargetValue(s) >= 0.0
    ensures r.TargetValue(s) > 0.0 ==> s in r.weights && r.weights[s] > 0.0
  {
  }

  lemma SaleFillFacts(rates: Rates, quantity: real, price: real)
    requires rates.Valid() && quantity >= 0.0 && price >= 0.0
    ensures var f := SaleFill(rates, quantity, price);
            && f.notional - f.fee >= 0.0
            && f.notional + f.impact == quantity * price
            && CostBound(rates, f.fee + f.impact, f.notional)
  {
    var fill := price * (1.0 - rates.slippage);
    SaleCost(rates, quantity, price);
    Scale(price, 0.0, 1.0 - rates.slippage);
    Scale(quantity, 0.0, fill);
    Scale(quantity * fill, rates.fee, 1.0);
    Distribute(quantity, price, -fill);
  }

  lemma PurchaseFillFacts(rates: Rates, quantity: real, price: real)
    requires rates.Valid() && quantity >= 0.0 && price >= 0.0
    ensures var f := PurchaseFill(rates, quantity, price);
            && f.price >= 0.0 && f.notional >= 0.0 && f.fee >= 0.0
            && f.notional - f.impact == quantity * price
            && CostBound(rates, f.fee + f.impact, f.notional)
  {
    var fill := price * (1.0 + rates.slippage);
    PurchaseCost(rates, quantity, price);
    Scale(price, 0.0, 1.0 + rates.slippage);
    Scale(quantity, 0.0, fill);
    Scale(quantity * fill, 0.0, rates.fee);
    Distribute(quantity, fill, -price);
  }

  lemma SellChanges(t: Trading, s: Symbol, f: Fill)
    requires s in t.positions && Sound(t.cash, t.positions)
    requires 0.0 < f.quantity <= t.positions[s].quantity && f.notional - f.fee >= 0.0
    ensures var u := Sell(t, s, f);
            && Sound(u.cash, u.positions) && u.cash >= t.cash
            && SameElsewhere(t.positions, u.positions, s)
            && QuantityOf(u.positions, s) == QuantityOf(t.positions, s) - f.quantity
  {
  }

  lemma MergedIsSound(t: Trading, s: Symbol, f: Fill)
    requires Sound(t.cash, t.positions) && f.quantity > 0.0 && f.price >= 0.0
    ensures var p := Merged(t.positions, s, f);
            p.quantity == QuantityOf(t.positions, s) + f.quantity > 0.0 && p.averagePrice >= 0.0
  {
    if s in t.positions {
      Scale(t.positions[s].quantity, 0.0, t.positions[s].averagePrice);
      Scale(f.quantity, 0.0, f.price);
    }
  }

  lemma BuyChanges(t: Trading, s: Symbol, f: Fill)
    requires Sound(t.cash, t.positions)
    requires f.quantity > 0.0 && f.price >= 0.0 && f.notional + f.fee <= t.cash && f.notional >= 0.0 && f.fee >= 0.0
    ensures Buy(t, s, f).Ok?
    ensures var u := Buy(t, s, f).value;
            && Sound(u.cash, u.positions) && u.cash == t.cash - (f.notional + f.fee)
               && u.costs == t.costs + (f.fee + f.impact)
            && SameElsewhere(t.positions, u.positions, s)
            && QuantityOf(u.positions, s) == QuantityOf(t.positions, s) + f.quantity
            && u.trades == t.trades + 1 && u.turnover == t.turnover + f.notional
  {
    MergedIsSound(t, s, f);
  }

  lemma FillIsTrade(rates: Rates, prices: map<Symbol, real>, t: Trading, u: Trading, s: Symbol, f: Fill, moved: real,
                    amount: real)
    requires rates.Valid() && s in prices && SameElsewhere(t.positions, u.positions, s)
    requires QuantityOf(u.positions, s) == QuantityOf(t.positions, s) + moved && amount == moved * prices[s]
    requires u.cash + u.costs + amount == t.cash + t.costs
    requires u.costs == t.costs + (f.fee + f.impact) && u.turnover == t.turnover + f.notional
    requires CostBound(rates, f.fee + f.impact, f.notional)
    ensures Traded(rates, prices, t, u, s)
  {
    OneSymbolMoves(prices, t.positions, u.positions, s, moved, amount);
    SameBound(rates, f, u.costs - t.costs, u.turnover - t.turnover);
  }

  lemma SameBound(rates: Rates, f: Fill, costs: real, turnover: real)
    requires rates.Valid() && CostBound(rates, f.fee + f.impact, f.notional)
    requires costs == f.fee + f.impact && turnover == f.notional
    ensures CostBound(rates, costs, turnover)
  {
  }

  lemma NoTrade(rates: Rates, prices: map<Symbol, real>, t: Trading, s: Symbol)
    requires rates.Valid()
    ensures Traded(rates, prices, t, t, s)
  {
    assert t.turnover - t.turnover == 0.0;
  }

  /** The numbers of a sale. */
  lemma SaleOf(rates: Rates, t: Trading, s: Symbol, price: real, target: real) returns (f: Fill, now: real)
    requires rates.Valid() && price > 0.0 && 0.0 <= target < QuantityOf(t.positions, s) * price && s in t.positions
    ensures SellTowards(rates, t, s, price, target) == Sell(t, s, f)
    ensures 0.0 < f.quantity <= t.positions[s].quantity && now == t.positions[s].quantity - f.quantity
    ensures SoldTo(t.positions[s].quantity, now, price, target)
    ensures f.notional - f.fee >= 0.0
    ensures f.notional + f.impact == f.quantity * price
    ensures CostBound(rates, f.fee + f.impact, f.notional)
  {
    f, now := SaleNumbers(rates, QuantityOf(t.positions, s), price, target);
  }

  lemma SaleNumbers(rates: Rates, held: real, price: real, target: real) returns (f: Fill, now: real)
    requires rates.Valid() && price > 0.0 && 0.0 <= target < held * price
    ensures f == SaleFill(rates, SaleQuantity(held, price, target), price)
    ensures 0.0 < f.quantity <= held && now == held - f.quantity && SoldTo(held, now, price, target)
    ensures f.notional - f.fee >= 0.0
    ensures f.notional + f.impact == f.quantity * price
    ensures CostBound(rates, f.fee + f.impact, f.notional)
  {
    SoldToTarget(held, price, target);
    f := SaleFill(rates, SaleQuantity(held, price, target), price);
    SaleFillFacts(rates, f.quantity, price);
    now := held - f.quantity;
  }

  lemma SaleIsTrade(rates: Rates, prices: map<Symbol, real>, t: Trading, s: Symbol, f: Fill)
    requires rates.Valid() && Sound(t.cash, t.positions) && s in prices && s in t.positions
    requires 0.0 < f.quantity <= t.positions[s].quantity && f.notional - f.fee >= 0.0
    requires f.notional + f.impact == f.quantity * prices[s]
    requires CostBound(rates, f.fee + f.impact, f.notional)
    ensures var u := Sell(t, s, f);
            Sound(u.cash, u.positions) && u.cash >= t.cash && Traded(rates, prices, t, u, s)
            && QuantityOf(u.positions, s) == QuantityOf(t.positions, s) - f.quantity
  {
    SellChanges(t, s, f);
    FillIsTrade(rates, prices, t, Sell(t, s, f), s, f, -f.quantity, -(f.notional + f.impact));
  }

  ghost predicate SellOutcome(rates: Rates, prices: map<Symbol, real>, t: Trading, u: Trading, s: Symbol, price: real,
                              target: real)
    requires rates.Valid()
  {
    && Sound(u.cash, u.positions) && u.cash >= t.cash
    && Traded(rates, prices, t, u, s)
    && if QuantityOf(t.positions, s) * price > target
       then SoldTo(QuantityOf(t.positions, s), QuantityOf(u.positions, s), price, target) && u.trades == t.trades + 1
       else u == t
  }

  lemma SaleOutcome(rates: Rates, prices: map<Symbol, real>, t: Trading, s: Symbol, target: real, f: Fill, now: real)
    requires rates.Valid() && Sound(t.cash, t.positions) && s in prices && s in t.positions
    requires 0.0 < f.quantity <= t.positions[s].quantity && f.notional - f.fee >= 0.0
    requires now == t.positions[s].quantity - f.quantity && SoldTo(t.positions[s].quantity, now, prices[s], target)
    requires QuantityOf(t.positions, s) * prices[s] > target
    requires f.notional + f.impact == f.quantity * prices[s]
    requires CostBound(rates, f.fee + f.impact, f.notional)
    ensures SellOutcome(rates, prices, t, Sell(t, s, f), s, prices[s], target)
  {
    SaleIsTrade(rates, prices, t, s, f);
    assert QuantityOf(Sell(t, s, f).positions, s) == now;
  }

  lemma HeldIfAbove(positions: map<Symbol, Position>, s: Symbol, price: real, target: real)
    requires QuantityOf(positions, s) * price > target >= 0.0
    ensures s in positions
  {
  }

  lemma SellTowardsFacts(rates: Rates, prices: map<Symbol, real>, t: Trading, s: Symbol, target: real)
    requires rates.Valid() && Sound(t.cash, t.positions) && s in prices && prices[s] > 0.0 && target >= 0.0
    ensures SellOutcome(rates, prices, t, SellTowards(rates, t, s, prices[s], target), s, prices[s], target)
  {
    if QuantityOf(t.positions, s) * prices[s] > target {
      HeldIfAbove(t.positions, s, prices[s], target);
      var f, now := SaleOf(rates, t, s, prices[s], target);
      SaleOutcome(rates, prices, t, s, target, f, now);
    } else {
      NoTrade(rates, prices, t, s);
    }
  }

  /** The numbers of a purchase. */
  lemma PurchaseOf(rates: Rates, t: Trading, s: Symbol, price: real, target: real)
    returns (f: Fill, now: real, left: real)
    requires rates.Valid() && Sound(t.cash, t.positions) && t.cash > 0.0 && price > 0.0
             && QuantityOf(t.positions, s) * price < target
    ensures BuyTowards(rates, t, s, price, target) == Buy(t, s, f)
    ensures f.quantity > 0.0 && f.price >= 0.0 && f.notional >= 0.0 && f.fee >= 0.0 && f.notional + f.fee <= t.cash
    ensures f.notional - f.impact == f.quantity * price
    ensures CostBound(rates, f.fee + f.impact, f.notional)
    ensures now == QuantityOf(t.positions, s) + f.quantity && left == t.cash - (f.notional + f.fee)
    ensures BoughtTowards(rates, QuantityOf(t.positions, s), now, price, target, left)
  {
    f, now, left := PurchaseNumbers(rates, t.cash, QuantityOf(t.positions, s), price, target);
  }

  lemma PurchaseNumbers(rates: Rates, cash: real, held: real, price: real, target: real)
    returns (f: Fill, now: real, left: real)
    requires rates.Valid() && cash > 0.0 && held >= 0.0 && price > 0.0 && held * price < target
    ensures f == PurchaseFill(rates, BuyQuantity(rates, cash, held, price, target), price)
    ensures f.quantity > 0.0 && f.price >= 0.0 && f.notional >= 0.0 && f.fee >= 0.0 && f.notional + f.fee <= cash
    ensures f.notional - f.impact == f.quantity * price
    ensures CostBound(rates, f.fee + f.impact, f.notional)
    ensures now == held + f.quantity && left == cash - (f.notional + f.fee)
            && BoughtTowards(rates, held, now, price, target, left)
  {
    f, now, left := PurchaseReach(rates, cash, held, price, target);
    PurchaseFillFacts(rates, f.quantity, price);
  }

  lemma PurchaseReach(rates: Rates, cash: real, held: real, price: real, target: real)
    returns (f: Fill, now: real, left: real)
    requires rates.Valid() && cash > 0.0 && held >= 0.0 && price > 0.0 && held * price < target
    ensures f == PurchaseFill(rates, BuyQuantity(rates, cash, held, price, target), price)
    ensures f.quantity > 0.0 && f.notional + f.fee <= cash
    ensures now == held + f.quantity && left == cash - (f.notional + f.fee)
            && BoughtTowards(rates, held, now, price, target, left)
  {
    BoughtWithinMeans(rates, cash, held, price, target);
    f := PurchaseFill(rates, BuyQuantity(rates, cash, held, price, target), price);
    now, left := held + f.quantity, cash - (f.notional + f.fee);
    Towards(rates, held, f.quantity, now, price, target, left);
  }

  lemma Towards(rates: Rates, held: real, quantity: real, now: real, price: real, target: real, left: real)
    requires now == held + quantity && quantity >= 0.0 && (held + quantity) * price <= target
    requires quantity * (price * (1.0 + rates.slippage)) == target - held * price || left == 0.0
    ensures BoughtTowards(rates, held, now, price, target, left)
  {
    assert now - held == quantity;
  }

  lemma PurchaseIsTrade(rates: Rates, prices: map<Symbol, real>, t: Trading, s: Symbol, f: Fill)
    requires rates.Valid() && Sound(t.cash, t.positions) && s in prices
    requires f.quantity > 0.0 && f.price >= 0.0 && f.notional + f.fee <= t.cash && f.notional >= 0.0 && f.fee >= 0.0
    requires f.notional - f.impact == f.quantity * prices[s]
    requires CostBound(rates, f.fee + f.impact, f.notional)
    ensures Buy(t, s, f).Ok?
    ensures var u := Buy(t, s, f).value;
            && Sound(u.cash, u.positions) && u.cash == t.cash - (f.notional + f.fee) && u.trades == t.trades + 1
            && Traded(rates, prices, t, u, s)
            && QuantityOf(u.positions, s) == QuantityOf(t.positions, s) + f.quantity
  {
    BuyChanges(t, s, f);
    FillIsTrade(rates, prices, t, Buy(t, s, f).value, s, f, f.quantity, f.notional - f.impact);
  }

  ghost predicate BuyOutcome(rates: Rates, prices: map<Symbol, real>, t: Trading, u: Trading, s: Symbol, price: real,
                             target: real)
    requires rates.Valid()
  {
    var held, now := QuantityOf(t.positions, s), QuantityOf(u.positions, s);
    && Sound(u.cash, u.positions) && u.cash <= t.cash
    && Traded(rates, prices, t, u, s)
    && (held * price < target ==> BoughtTowards(rates, held, now, price, target, u.cash))
    && if held * price < target && t.cash > 0.0 then held < now && u.trades == t.trades + 1 else u == t
  }

  lemma PurchaseOutcome(rates: Rates, prices: map<Symbol, real>, t: Trading, s: Symbol, target: real, f: Fill,
                        now: real, left: real)
    requires rates.Valid() && Sound(t.cash, t.positions) && s in prices && t.cash > 0.0
    requires f.quantity > 0.0 && f.price >= 0.0 && f.notional + f.fee <= t.cash && f.notional >= 0.0 && f.fee >= 0.0
    requires now == QuantityOf(t.positions, s) + f.quantity && left == t.cash - (f.notional + f.fee)
    requires BoughtTowards(rates, QuantityOf(t.positions, s), now, prices[s], target, left)
    requires QuantityOf(t.positions, s) * prices[s] < target
    requires f.notional - f.impact == f.quantity * prices[s]
    requires CostBound(rates, f.fee + f.impact, f.notional)
    ensures Buy(t, s, f).Ok? && BuyOutcome(rates, prices, t, Buy(t, s, f).value, s, prices[s], target)
  {
    PurchaseIsTrade(rates, prices, t, s, f);
    assert QuantityOf(Buy(t, s, f).value.positions, s) == now && Buy(t, s, f).value.cash == left;
  }

  lemma BuyTowardsFacts(rates: Rates, prices: map<Symbol, real>, t: Trading, s: Symbol, target: real)
    requires rates.Valid() && Sound(t.cash, t.positions) && s in prices && prices[s] > 0.0
    ensures BuyTowards(rates, t, s, prices[s], target).Ok?
    ensures BuyOutcome(rates, prices, t, BuyTowards(rates, t, s, prices[s], target).value, s, prices[s], target)
  {
    hide BuyTowards, Traded;
    if QuantityOf(t.positions, s) * prices[s] < target && t.cash > 0.0 {
      var f, now, left := PurchaseOf(rates, t, s, prices[s], target);
      PurchaseOutcome(rates, prices, t, s, target, f, now, left);
    } else {
      NothingBought(rates, t, s, prices[s], target);
      NothingBoughtOutcome(rates, prices, t, s, target);
    }
  }

  lemma NothingBought(rates: Rates, t: Trading, s: Symbol, price: real, target: real)
    requires rates.Valid() && price > 0.0 && (t.cash == 0.0 || QuantityOf(t.positions, s) * price >= target)
    ensures BuyTowards(rates, t, s, price, target) == Ok(t)
  {
    if t.cash == 0.0 {
      assert BuyQuantity(rates, 0.0, QuantityOf(t.positions, s), price, target) <= 0.0;
    }
  }

  lemma NothingBoughtOutcome(rates: Rates, prices: map<Symbol, real>, t: Trading, s: Symbol, target: real)
    requires rates.Valid() && Sound(t.cash, t.positions) && s in prices
    requires t.cash == 0.0 || QuantityOf(t.positions, s) * prices[s] >= target
    ensures BuyOutcome(rates, prices, t, t, s, prices[s], target)
  {
    NoTrade(rates, prices, t, s);
  }
}
