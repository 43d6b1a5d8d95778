/** Typed records shared by the kernel, the brokers and the replay engine (domain/models.py). */
module Domain {
  import opened Wrappers

  type Symbol = string
  type Key = string
  type OrderId = string

  datatype TradeAction = BUY | SELL | HOLD | ADD | REDUCE | CANCEL | EXIT

  datatype ExperimentMode = NORMAL | DEFENSIVE | SAFE | DEAD

  datatype OrderSide = BuySide | SellSide

  datatype OrderStatus =
    | CREATED
    | VALIDATED
    | SUBMITTING
    | ACKNOWLEDGED
    | PARTIALLY_FILLED
    | FILLED
    | REJECTED
    | CANCEL_PENDING
    | CANCELLED
    | UNKNOWN

  datatype RejectionReason =
    | APPROVED
    | INVALID_SCHEMA
    | INSUFFICIENT_CASH
    | SHORT_POSITION_FORBIDDEN
    | ORDER_NOTIONAL_LIMIT
    | STALE_REFERENCE_PRICE
    | DUPLICATE_IDEMPOTENCY_KEY
    | MODE_RESTRICTION
    | KILL_SWITCH_ACTIVE
    | ESTIMATED_COST_INVALID
    | NOTIONAL_QUANTITY_MISMATCH
    | CURRENCY_MISMATCH
    | CANCEL_TARGET_REQUIRED
    | ACTION_NOT_PERMITTED
    | INSTRUMENT_NOT_PERMITTED
    | INVALID_ORDER_STATE_TRANSITION

  datatype Error =
    | ValidationError
    | CurrencyMismatch
    | QuantityRegressed
    | NotionalRegressed
    | FeeRegressed
    | ShortPosition
    | MissingPrice
    | FillExceedsOrder
    | InvalidTransition
    | UnknownLogicalOrder
    | BrokerIdentityChanged
    | TerminalMode
    | BrokerRaised
    | InsufficientHistory
    | InvalidHistory
    | InvalidTarget
    | ChainBroken
    | OutOfBounds

  datatype Position = Position(quantity: real, averagePrice: real)

  /** Shares held, zero for a symbol without a position. */
  function QuantityOf(positions: map<Symbol, Position>, s: Symbol): real {
    if s in positions then positions[s].quantity else 0.0
  }

  datatype PortfolioState = PortfolioState(cash: real, positions: map<Symbol, Position>, nav: real)

  datatype TradeProposal = TradeProposal(
    proposalId: string,
    key: Key,
    symbol: Symbol,
    action: TradeAction,
    quantity: Option<real>,
    notional: Option<real>,
    reduceFraction: Option<real>,
    referencePrice: real,
    referenceTime: real,
    estimatedFee: real,
    estimatedSlippage: real,
    currency: string,
    cancelOrderId: Option<string>)
  {
    function EstimatedCost(): real {
      estimatedFee + estimatedSlippage
    }

    /** The field validators: every amount non-negative, the price positive, the fraction at most one. */
    predicate Valid() {
      && referencePrice > 0.0
      && estimatedFee >= 0.0
      && estimatedSlippage >= 0.0
      && (quantity.Some? ==> quantity.value >= 0.0)
      && (notional.Some? ==> notional.value >= 0.0)
      && (reduceFraction.Some? ==> 0.0 <= reduceFraction.value <= 1.0)
    }
  }

  datatype OrderIntent = OrderIntent(
    intentId: string,
    key: Key,
    proposalId: string,
    symbol: Symbol,
    side: OrderSide,
    quantity: real,
    referencePrice: real,
    notional: real,
    currency: string)
  {
    predicate WellFormed() {
      quantity > 0.0 && referencePrice > 0.0 && notional == quantity * referencePrice
    }
  }

  /** OrderIntent.create: the notional is computed and every amount must be strictly positive. */
  function CreateIntent(intentId: string, p: TradeProposal, side: OrderSide, quantity: real)
    : (i: Result<OrderIntent, Error>)
    ensures i.Ok? ==>
              i.value.WellFormed() && i.value.key == p.key && i.value.intentId == intentId && i.value.side == side
  {
    var notional := quantity * p.referencePrice;
    if quantity <= 0.0 || p.referencePrice <= 0.0 || notional <= 0.0 then Err(ValidationError)
    else Ok(OrderIntent(intentId, p.key, p.proposalId, p.symbol, side, quantity, p.referencePrice, notional,
                        p.currency))
  }

  datatype BrokerOrder = BrokerOrder(
    brokerOrderId: OrderId,
    key: Key,
    symbol: Symbol,
    side: OrderSide,
    quantity: real,
    status: OrderStatus)

  datatype ExecutionReport = ExecutionReport(
    reportId: string,
    brokerOrderId: OrderId,
    key: Key,
    symbol: Symbol,
    side: OrderSide,
    status: OrderStatus,
    fillQuantity: real,
    fillPrice: real,
    fee: real,
    slippage: real,
    currency: string)
  {
    predicate IsFill() {
      status == PARTIALLY_FILLED || status == FILLED
    }

    function Gross(): real {
      fillQuantity * fillPrice
    }
  }

  datatype RiskDecision = RiskDecision(approved: bool, reason: RejectionReason)

  predicate IsTerminal(status: OrderStatus) {
    status == FILLED || status == REJECTED || status == CANCELLED
  }

  function Max(a: real, b: real): real {
    if a >= b then a else b
  }

  function Min(a: real, b: real): real {
    if a <= b then a else b
  }

  function Abs(a: real): real {
    if a >= 0.0 then a else -a
  }
}
