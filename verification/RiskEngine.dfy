/** The gate every order passes (risk/engine.py): a chain of early refusals. */
module RiskEngine {
  import opened Wrappers
  import opened Domain

  datatype Settings = Settings(
    currency: string,
    startingCash: real,
    maxStaleSeconds: real,
    maxOrderNotional: real,
    permittedSymbols: set<Symbol>)

  predicate IsOpening(action: TradeAction) {
    action == BUY || action == ADD
  }

  predicate IsClosing(action: TradeAction) {
    action == SELL || action == REDUCE || action == EXIT
  }

  predicate Exposes(mode: ExperimentMode) {
    mode != SAFE && mode != DEAD
  }

  function Refuse(reason: RejectionReason): RiskDecision {
    RiskDecision(false, reason)
  }

  /**
    A proposal is approved exactly if nothing speaks against it; a refusal names something that does.
   */
  function Evaluate(settings: Settings, p: TradeProposal, intent: Option<OrderIntent>, authorizedCash: real,
                    positionQuantity: real, mode: ExperimentMode, killSwitch: bool, known: set<Key>, now: real)
    : (d: RiskDecision)
    ensures d.approved <==> d.reason == APPROVED
    ensures d.approved <==>
            && p.symbol in settings.permittedSymbols && p.currency == settings.currency
            && (intent.Some? ==> intent.value.currency == settings.currency)
            && p.key !in known
            && p.estimatedFee >= 0.0 && p.estimatedSlippage >= 0.0
            && now - p.referenceTime <= settings.maxStaleSeconds
            && (IsOpening(p.action) ==> !killSwitch && mode != SAFE && mode != DEAD)
            && (p.action == CANCEL ==> p.cancelOrderId.Some? && p.cancelOrderId.value != "")
            && (p.action != HOLD && p.action != CANCEL ==>
                  && intent.Some? && intent.value.referencePrice == p.referencePrice
                  && (p.notional.Some? && p.quantity.Some? ==>
                        p.quantity.value * p.referencePrice == p.notional.value)
                  && intent.value.notional <= settings.maxOrderNotional
                  && (IsClosing(p.action) ==>
                        intent.value.side == SellSide && 0.0 < intent.value.quantity <= positionQuantity)
                  && (IsOpening(p.action) ==>
                        intent.value.side == BuySide && intent.value.notional + p.EstimatedCost() <= authorizedCash))
  {
    if p.symbol !in settings.permittedSymbols then Refuse(INSTRUMENT_NOT_PERMITTED)
    else if p.currency != settings.currency then Refuse(CURRENCY_MISMATCH)
    else if intent.Some? && intent.value.currency != settings.currency then Refuse(CURRENCY_MISMATCH)
    else if p.key in known then Refuse(DUPLICATE_IDEMPOTENCY_KEY)
    else if p.estimatedFee < 0.0 || p.estimatedSlippage < 0.0 then Refuse(ESTIMATED_COST_INVALID)
    else if now - p.referenceTime > settings.maxStaleSeconds then Refuse(STALE_REFERENCE_PRICE)
    else if killSwitch && IsOpening(p.action) then Refuse(KILL_SWITCH_ACTIVE)
    else if !Exposes(mode) && IsOpening(p.action) then Refuse(MODE_RESTRICTION)
    else if p.action == CANCEL && (p.cancelOrderId.None? || p.cancelOrderId.value == "")
    then Refuse(CANCEL_TARGET_REQUIRED)
    else if p.action == HOLD || p.action == CANCEL then RiskDecision(true, APPROVED)
    else if intent.None? then Refuse(INVALID_SCHEMA)
    else
      var i := intent.value;
      if p.notional.Some? && p.quantity.Some? && p.quantity.value * p.referencePrice != p.notional.value
      then Refuse(NOTIONAL_QUANTITY_MISMATCH)
      else if p.referencePrice != i.referencePrice then Refuse(NOTIONAL_QUANTITY_MISMATCH)
      else if IsOpening(p.action) && i.side != BuySide then Refuse(ACTION_NOT_PERMITTED)
      else if IsClosing(p.action) && i.side != SellSide then Refuse(ACTION_NOT_PERMITTED)
      else if IsClosing(p.action) && (i.quantity <= 0.0 || i.quantity > positionQuantity)
      then Refuse(SHORT_POSITION_FORBIDDEN)
      else if i.notional > settings.maxOrderNotional then Refuse(ORDER_NOTIONAL_LIMIT)
      else if i.side == BuySide && i.notional + p.estimatedFee + p.estimatedSlippage > authorizedCash
      then Refuse(INSUFFICIENT_CASH)
      else RiskDecision(true, APPROVED)
  }

  /** What speaks against a proposal, one reason at a time. */
  predicate Objects(reason: RejectionReason, settings: Settings, p: TradeProposal, intent: Option<OrderIntent>,
                    authorizedCash: real, positionQuantity: real, mode: ExperimentMode, killSwitch: bool,
                    known: set<Key>, now: real)
  {
    var trades := p.action != HOLD && p.action != CANCEL;
    match reason
    case INSTRUMENT_NOT_PERMITTED => p.symbol !in settings.permittedSymbols
    case CURRENCY_MISMATCH =>
      p.currency != settings.currency || (intent.Some? && intent.value.currency != settings.currency)
    case DUPLICATE_IDEMPOTENCY_KEY => p.key in known
    case ESTIMATED_COST_INVALID => p.estimatedFee < 0.0 || p.estimatedSlippage < 0.0
    case STALE_REFERENCE_PRICE => now > p.referenceTime + settings.maxStaleSeconds
    case KILL_SWITCH_ACTIVE => IsOpening(p.action) && killSwitch
    case MODE_RESTRICTION => IsOpening(p.action) && (mode == SAFE || mode == DEAD)
    case CANCEL_TARGET_REQUIRED => p.action == CANCEL && (p.cancelOrderId == None || p.cancelOrderId == Some(""))
    case INVALID_SCHEMA => trades && intent.None?
    case NOTIONAL_QUANTITY_MISMATCH =>
      trades && intent.Some?
      && (intent.value.referencePrice != p.referencePrice
          || (p.quantity.Some? && p.notional.Some? && p.notional.value != p.quantity.value * p.referencePrice))
    case ACTION_NOT_PERMITTED =>
      trades && intent.Some? && intent.value.side != (if IsOpening(p.action) then BuySide else SellSide)
    case SHORT_POSITION_FORBIDDEN =>
      IsClosing(p.action) && intent.Some? && !(0.0 < intent.value.quantity <= positionQuantity)
    case ORDER_NOTIONAL_LIMIT => trades && intent.Some? && intent.value.notional > settings.maxOrderNotional
    case INSUFFICIENT_CASH =>
      IsOpening(p.action) && intent.Some? && intent.value.notional + p.EstimatedCost() > authorizedCash
    case APPROVED => false
    case INVALID_ORDER_STATE_TRANSITION => false
  }

  /** The order in which the reasons are looked at. */
  function Turn(reason: RejectionReason): nat {
    match reason
    case INSTRUMENT_NOT_PERMITTED => 0
    case CURRENCY_MISMATCH => 1
    case DUPLICATE_IDEMPOTENCY_KEY => 2
    case ESTIMATED_COST_INVALID => 3
    case STALE_REFERENCE_PRICE => 4
    case KILL_SWITCH_ACTIVE => 5
    case MODE_RESTRICTION => 6
    case CANCEL_TARGET_REQUIRED => 7
    case INVALID_SCHEMA => 8
    case NOTIONAL_QUANTITY_MISMATCH => 9
    case ACTION_NOT_PERMITTED => 10
    case SHORT_POSITION_FORBIDDEN => 11
    case ORDER_NOTIONAL_LIMIT => 12
    case INSUFFICIENT_CASH => 13
    case APPROVED => 14
    case INVALID_ORDER_STATE_TRANSITION => 14
  }

  /** A refusal gives the first reason that speaks against the proposal; without any, it is approved. */
  lemma RefusedForTheFirstReason(settings: Settings, p: TradeProposal, intent: Option<OrderIntent>,
                                 authorizedCash: real, positionQuantity: real, mode: ExperimentMode, killSwitch: bool,
                                 known: set<Key>, now: real, other: RejectionReason)
    ensures var d := Evaluate(settings, p, intent, authorizedCash, positionQuantity, mode, killSwitch, known, now);
            && (!d.approved ==> Objects(d.reason, settings, p, intent, authorizedCash, positionQuantity, mode,
                                        killSwitch, known, now))
            && (Turn(other) < Turn(d.reason) ==> !Objects(other, settings, p, intent, authorizedCash, positionQuantity,
                                                          mode, killSwitch, known, now))
            && (d.approved ==> !Objects(other, settings, p, intent, authorizedCash, positionQuantity, mode, killSwitch,
                                        known, now))
  {
    var d := Evaluate(settings, p, intent, authorizedCash, positionQuantity, mode, killSwitch, known, now);
    assert d.reason == APPROVED || Turn(d.reason) < 14;
  }
}
