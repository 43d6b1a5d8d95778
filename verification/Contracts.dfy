/** What a strategy is given and what it returns (strategies/contracts.py). */
module Contracts {
  import opened Wrappers
  import opened Domain
  import MapSum

  type Time = int

  datatype MarketBar = MarketBar(timestamp: Time, open: real, high: real, low: real, close: real, volume: real) {
    predicate Valid() {
      open > 0.0 && high > 0.0 && low > 0.0 && close > 0.0 && volume >= 0.0
      && low <= open <= high && low <= close <= high
    }
  }

  predicate StrictlyIncreasing(bars: seq<MarketBar>) {
    forall i, j :: 0 <= i < j < |bars| ==> bars[i].timestamp < bars[j].timestamp
  }

  type History = map<Symbol, seq<MarketBar>>

  datatype StrategyContext = StrategyContext(
    asOf: Time,
    currency: string,
    portfolio: PortfolioState,
    referencePrices: map<Symbol, real>,
    referenceTimes: map<Symbol, Time>,
    stateHash: string,
    history: History,
    benchmark: Option<Symbol>)
  {
    /** The validators: prices positive and dated, and no bar from after the decision. */
    predicate Valid() {
      && (forall s :: s in referencePrices ==> referencePrices[s] > 0.0)
      && referencePrices.Keys == referenceTimes.Keys
      && (forall s :: s in referenceTimes ==> referenceTimes[s] <= asOf)
      && (forall s :: s in history ==> StrictlyIncreasing(history[s]))
      && (forall s, i :: s in history && 0 <= i < |history[s]| ==> history[s][i].timestamp <= asOf)
      && (benchmark.Some? ==> benchmark.value in history)
      && portfolio.cash >= 0.0 && portfolio.nav >= 0.0
      && forall s :: s in portfolio.positions ==>
           portfolio.positions[s].quantity >= 0.0 && portfolio.positions[s].averagePrice >= 0.0
    }
  }

  datatype TargetPortfolio = TargetPortfolio(
    asOf: Time,
    currency: string,
    weights: map<Symbol, real>,
    cashWeight: real,
    strategyId: string,
    strategyVersion: string,
    stateHash: string,
    confidence: real)
  {
    /** Weights, cash and confidence in [0, 1]; weights and cash add up to exactly one. */
    ghost predicate Valid() {
      && 0.0 <= cashWeight <= 1.0 && 0.0 <= confidence <= 1.0
      && (forall s :: s in weights ==> 0.0 <= weights[s] <= 1.0)
      && MapSum.Sum(weights) + cashWeight == 1.0
    }

    function Weight(s: Symbol): real {
      if s in weights then weights[s] else 0.0
    }
  }
}
