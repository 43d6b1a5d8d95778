/** The simulated broker, which keeps books of its own (brokers/simulated/broker.py). */
module SimulatedBrokers {
  import opened Wrappers
  import opened Domain
  import Reconciler

  class SimulatedBroker {
    const currency: string
    const feeRate: real
    const slippageRate: real
    const failWithUnknown: bool

    var cash: real
    var positions: map<Symbol, Position>
    var ordersByKey: map<Key, ExecutionReport>
    var brokerOrders: map<OrderId, BrokerOrder>
    var lastPrice: map<Symbol, real>

    constructor (startingCash: real, currency: string, feeRate: real, slippageRate: real, failWithUnknown: bool)
      ensures cash == startingCash && positions == map[] && ordersByKey == map[] && brokerOrders == map[]
      ensures this.currency == currency && this.feeRate == feeRate && this.slippageRate == slippageRate
      ensures this.failWithUnknown == failWithUnknown && lastPrice == map["TEST" := 1.0]
    {
      this.currency, this.feeRate, this.slippageRate := currency, feeRate, slippageRate;
      this.failWithUnknown := failWithUnknown;
      cash, positions := startingCash, map[];
      ordersByKey, brokerOrders, lastPrice := map[], map[], map["TEST" := 1.0];
    }

    function FillPrice(i: OrderIntent): real {
      i.referencePrice * (if i.side == SellSide then 1.0 - slippageRate else 1.0 + slippageRate)
    }

    function Fee(i: OrderIntent): real {
      FillPrice(i) * i.quantity * feeRate
    }

    function FilledReport(i: OrderIntent, orderId: OrderId, reportId: string): ExecutionReport {
      ExecutionReport(reportId, orderId, i.key, i.symbol, i.side, FILLED, i.quantity, FillPrice(i), Fee(i),
                      Abs(FillPrice(i) - i.referencePrice) * i.quantity, currency)
    }

    function UnknownReport(i: OrderIntent, orderId: OrderId, reportId: string): ExecutionReport {
      ExecutionReport(reportId, orderId, i.key, i.symbol, i.side, UNKNOWN, 0.0, i.referencePrice, 0.0, 0.0, currency)
    }

    /** Insufficient cash for a purchase, or a sale beyond the position. */
    function Refused(i: OrderIntent, cash: real, positions: map<Symbol, Position>): Option<Error> {
      if i.side == BuySide then
        if FillPrice(i) * i.quantity + Fee(i) > cash then Some(ValidationError) else None
      else if i.symbol !in positions || i.quantity > positions[i.symbol].quantity then Some(ShortPosition)
      else None
    }

    /** The books after an order has been filled, in the broker's own terms. */
    ghost predicate Booked(i: OrderIntent, cash: real, positions: map<Symbol, Position>, cash': real,
                           positions': map<Symbol, Position>) {
      var notional := FillPrice(i) * i.quantity;
      if i.side == BuySide then
        cash' == cash - (notional + Fee(i)) && Averaged(positions, positions', i.symbol, i.quantity, notional)
      else
        && cash' == cash + (notional - Fee(i))
        && i.symbol in positions && Reduced(positions, positions', i.symbol, i.quantity)
    }

    /** submit: a known key is answered from memory; the two refusals leave the books alone. */
    method Submit(i: OrderIntent, orderId: OrderId, reportId: string) returns (res: Result<ExecutionReport, Error>)
      requires i.WellFormed() && Reconciler.LongOnly(positions)
      modifies this
      ensures Reconciler.LongOnly(positions)
      ensures i.key in old(ordersByKey) ==> res == Ok(old(ordersByKey)[i.key])
      ensures i.key !in old(ordersByKey) && failWithUnknown ==> res == Ok(UnknownReport(i, orderId, reportId))
      ensures i.key !in old(ordersByKey) && res.Ok? ==>
                && ordersByKey == old(ordersByKey)[i.key := res.value]
                && var order := BrokerOrder(orderId, i.key, i.symbol, i.side, i.quantity, res.value.status);
                   brokerOrders == old(brokerOrders)[orderId := order]
      ensures i.key !in old(ordersByKey) && !failWithUnknown ==>
                var refusal := Refused(i, old(cash), old(positions));
                if refusal.Some? then res == Err(refusal.value)
                else res == Ok(FilledReport(i, orderId, reportId))
                     && Booked(i, old(cash), old(positions), cash, positions)
      ensures res.Err? || i.key in old(ordersByKey) || failWithUnknown ==>
                cash == old(cash) && positions == old(positions)
      ensures res.Err? || i.key in old(ordersByKey) ==>
                ordersByKey == old(ordersByKey) && brokerOrders == old(brokerOrders)
      ensures lastPrice == if res.Ok? && i.key !in old(ordersByKey) && !failWithUnknown
                           then old(lastPrice)[i.symbol := FillPrice(i)] else old(lastPrice)
    {
      if i.key in ordersByKey {
        return Ok(ordersByKey[i.key]);
      }
      if failWithUnknown {
        brokerOrders := brokerOrders[orderId := BrokerOrder(orderId, i.key, i.symbol, i.side, i.quantity, UNKNOWN)];
        ordersByKey := ordersByKey[i.key := UnknownReport(i, orderId, reportId)];
        return Ok(ordersByKey[i.key]);
      }
      var refusal := Fill(i);
      if refusal.Some? {
        return Err(refusal.value);
      }
      brokerOrders := brokerOrders[orderId := BrokerOrder(orderId, i.key, i.symbol, i.side, i.quantity, FILLED)];
      ordersByKey := ordersByKey[i.key := FilledReport(i, orderId, reportId)];
      lastPrice := lastPrice[i.symbol := FillPrice(i)];
      return Ok(ordersByKey[i.key]);
    }

    /** The cash and position part of a submission. */
    method Fill(i: OrderIntent) returns (refusal: Option<Error>)
      requires i.WellFormed() && Reconciler.LongOnly(positions)
      modifies this`cash, this`positions
      ensures Reconciler.LongOnly(positions)
      ensures refusal == Refused(i, old(cash), old(positions))
      ensures refusal.None? ==> Booked(i, old(cash), old(positions), cash, positions)
      ensures refusal.Some? ==> cash == old(cash) && positions == old(positions)
    {
      hide Purchase, Sale;
      var fillPrice := FillPrice(i);
      var notional := fillPrice * i.quantity;
      var fee := Fee(i);
      if i.side == BuySide {
        if notional + fee > cash {
          return Some(ValidationError);
        }
        cash := cash - (notional + fee);
        PurchaseAverages(positions, i.symbol, i.quantity, fillPrice);
        positions := Purchase(positions, i.symbol, i.quantity, fillPrice);
      } else {
        if i.symbol !in positions || i.quantity > positions[i.symbol].quantity {
          return Some(ShortPosition);
        }
        cash := cash + (notional - fee);
        SaleReduces(positions, i.symbol, i.quantity);
        positions := Sale(positions, i.symbol, i.quantity);
      }
      return None;
    }

    /** cancel: an unknown identifier is a lookup failure; a filled or cancelled order stays as it is. */
    method Cancel(orderId: OrderId) returns (res: Result<BrokerOrder, Error>)
      modifies this`brokerOrders
      ensures res.Err? <==> orderId !in old(brokerOrders)
      ensures res.Ok? ==>
                var order := old(brokerOrders)[orderId];
                && res.value == (if order.status == FILLED then order else order.(status := CANCELLED))
                && brokerOrders == old(brokerOrders)[orderId := res.value]
      ensures res.Err? ==> brokerOrders == old(brokerOrders)
    {
      if orderId !in brokerOrders {
        return Err(BrokerRaised);
      }
      var order := brokerOrders[orderId];
      if order.status == FILLED || order.status == CANCELLED {
        assert brokerOrders[orderId := order] == brokerOrders;
        return Ok(order);
      }
      brokerOrders := brokerOrders[orderId := order.(status := CANCELLED)];
      return Ok(brokerOrders[orderId]);
    }
  }

  /** The broker enters a purchase at the fill price, and averages it in when shares are already held. */
  function Purchase(positions: map<Symbol, Position>, s: Symbol, quantity: real, price: real): map<Symbol, Position>
    requires quantity > 0.0
    requires s in positions ==> positions[s].quantity > 0.0
  {
    if s !in positions then positions[s := Position(quantity, price)]
    else
      var c := positions[s];
      positions[s := Position(c.quantity + quantity,
                              (c.quantity * c.averagePrice + quantity * price) / (c.quantity + quantity))]
  }

  /** A sale keeps the average price of what remains and deletes a position that is sold out. */
  function Sale(positions: map<Symbol, Position>, s: Symbol, quantity: real): map<Symbol, Position>
    requires s in positions
  {
    var position := positions[s];
    var remainder := position.quantity - quantity;
    if remainder == 0.0 then map k | k in positions && k != s :: positions[k]
    else positions[s := Position(remainder, position.averagePrice)]
  }

  /** Shares are added and the cost basis becomes the mean of the old basis and the new notional. */
  ghost predicate Averaged(positions: map<Symbol, Position>, after: map<Symbol, Position>, s: Symbol, quantity: real,
                           notional: real) {
    var held := if s in positions then positions[s] else Position(0.0, 0.0);
    && s in after && after - {s} == positions - {s}
    && after[s].quantity == held.quantity + quantity
    && after[s].averagePrice * after[s].quantity == held.quantity * held.averagePrice + notional
  }

  /** Shares are taken away at an unchanged cost basis, and a position is listed as long as it has any. */
  ghost predicate Reduced(positions: map<Symbol, Position>, after: map<Symbol, Position>, s: Symbol, quantity: real)
    requires s in positions
  {
    var held := positions[s];
    && after - {s} == positions - {s}
    && (s in after <==> quantity != held.quantity)
    && (s in after ==> after[s].quantity + quantity == held.quantity && after[s].averagePrice == held.averagePrice)
  }

  lemma Mean(a: real, b: real)
    requires b > 0.0
    ensures (a / b) * b == a
  {
  }

  lemma PurchaseAverages(positions: map<Symbol, Position>, s: Symbol, quantity: real, price: real)
    requires quantity > 0.0 && (s in positions ==> positions[s].quantity > 0.0)
    ensures Averaged(positions, Purchase(positions, s, quantity, price), s, quantity, price * quantity)
    ensures Reconciler.LongOnly(positions) ==> Reconciler.LongOnly(Purchase(positions, s, quantity, price))
  {
    var after := Purchase(positions, s, quantity, price);
    assert after - {s} == positions - {s};
    if s in positions {
      var c := positions[s];
      Mean(c.quantity * c.averagePrice + quantity * price, c.quantity + quantity);
    }
  }

  lemma BoughtAverages(positions: map<Symbol, Position>, s: Symbol, quantity: real, notional: real)
    requires quantity > 0.0 && (s in positions ==> positions[s].quantity > 0.0)
    ensures Averaged(positions, Reconciler.Bought(positions, s, quantity, notional), s, quantity, notional)
  {
    var after := Reconciler.Bought(positions, s, quantity, notional);
    assert after - {s} == positions - {s};
    if s in positions {
      var c := positions[s];
      Mean(c.quantity * c.averagePrice + notional, c.quantity + quantity);
    } else {
      Mean(notional, quantity);
    }
  }

  lemma SameMean(a: real, b: real, q: real)
    requires q > 0.0 && a * q == b * q
    ensures a == b
  {
    assert (a - b) * q == 0.0;
  }

  /** The description determines the result. */
  lemma AveragedOnce(positions: map<Symbol, Position>, a: map<Symbol, Position>, b: map<Symbol, Position>,
                     s: Symbol, quantity: real, notional: real)
    requires quantity > 0.0 && (s in positions ==> positions[s].quantity > 0.0)
    requires Averaged(positions, a, s, quantity, notional) && Averaged(positions, b, s, quantity, notional)
    ensures a == b
  {
    SameMean(a[s].averagePrice, b[s].averagePrice, a[s].quantity);
    assert a[s] == b[s];
    assert a == (a - {s})[s := a[s]];
    assert b == (b - {s})[s := b[s]];
  }

  lemma SaleReduces(positions: map<Symbol, Position>, s: Symbol, quantity: real)
    requires s in positions && 0.0 < quantity <= positions[s].quantity && Reconciler.LongOnly(positions)
    ensures Reduced(positions, Sale(positions, s, quantity), s, quantity)
    ensures Reconciler.LongOnly(Sale(positions, s, quantity))
  {
    assert Sale(positions, s, quantity) - {s} == positions - {s};
  }

  lemma SoldReduces(positions: map<Symbol, Position>, s: Symbol, quantity: real)
    requires s in positions
    ensures Reduced(positions, Reconciler.Sold(positions, s, quantity), s, quantity)
  {
    assert Reconciler.Sold(positions, s, quantity) - {s} == positions - {s};
  }

  lemma ReducedOnce(positions: map<Symbol, Position>, a: map<Symbol, Position>, b: map<Symbol, Position>, s: Symbol,
                    quantity: real)
    requires s in positions && Reduced(positions, a, s, quantity) && Reduced(positions, b, s, quantity)
    ensures a == b
  {
    if s in a {
      assert a == (a - {s})[s := a[s]];
      assert b == (b - {s})[s := b[s]];
    } else {
      assert a == a - {s} && b == b - {s};
    }
  }

  /**
    An order never fills better than its reference price: a purchase pays the slippage on top, a sale loses it; the fee
    is taken on what is paid, and the report shows all of it.
   */
  lemma FillsAreWorse(broker: SimulatedBroker, i: OrderIntent, orderId: OrderId, reportId: string)
    requires i.WellFormed() && broker.slippageRate >= 0.0
    ensures var r, slipped := broker.FilledReport(i, orderId, reportId), i.referencePrice * broker.slippageRate;
            && (i.side == BuySide ==> r.fillPrice == i.referencePrice + slipped)
            && (i.side == SellSide ==> r.fillPrice == i.referencePrice - slipped)
            && slipped >= 0.0 && r.slippage == slipped * i.quantity && r.fee == r.Gross() * broker.feeRate
            && r.status == FILLED && r.fillQuantity == i.quantity && r.currency == broker.currency
            && r.key == i.key && r.symbol == i.symbol && r.side == i.side
            && r.reportId == reportId && r.brokerOrderId == orderId
  {
    var rate := broker.slippageRate;
    assert i.referencePrice * (1.0 + rate) == i.referencePrice + i.referencePrice * rate;
    assert i.referencePrice * (1.0 - rate) == i.referencePrice - i.referencePrice * rate;
    assert i.referencePrice * rate >= 0.0;
  }

  /** A refused order is a purchase that costs more than the cash, or a sale of more than is held. */
  lemma RefusedIs(broker: SimulatedBroker, i: OrderIntent, cash: real, positions: map<Symbol, Position>)
    requires i.WellFormed()
    ensures var r := broker.FilledReport(i, "", "");
            && (broker.Refused(i, cash, positions) == Some(ValidationError) <==>
                  i.side == BuySide && r.Gross() + r.fee > cash)
            && (broker.Refused(i, cash, positions) == Some(ShortPosition) <==>
                  i.side == SellSide && i.quantity > QuantityOf(positions, i.symbol))
  {
  }
}
