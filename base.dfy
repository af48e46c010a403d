/** What every strategy sets up when it is created: the fixed rate and
    volatility, the time to expiration derived from the configured time frame,
    and, for the single-option strategies, the strike derived from the
    configured moneyness. The fields are set once and never updated. */
module Base {
  import opened Text
  import opened Models
  import opened Analytic
  import opened BlackScholes

  const RiskFreeRate: real := 0.05
  const Volatility: real := 0.25

  /** Year fraction of the longest configured time frame, 120 days. */
  const LongestExpiry: real := 120.0 / 365.0

  /** The state of a single-option strategy (long or short, call or put). */
  datatype OptionStrategy = OptionStrategy(
    config: StrategyConfig,
    basePrice: real,
    riskFreeRate: real,
    volatility: real,
    timeToExpiration: real,
    strikePrice: real)

  /** `_get_time_to_expiration`: days of the time frame over 365; an unknown frame counts as "Near". */
  function TimeToExpiration(timeFrame: string): (t: real)
    ensures 0.0 < t <= LongestExpiry
    ensures timeFrame != "Medium" && timeFrame != "Long" ==> t == 30.0 / 365.0
  {
    if timeFrame == "Near" then 30.0 / 365.0
    else if timeFrame == "Medium" then 60.0 / 365.0
    else if timeFrame == "Long" then 120.0 / 365.0
    else 30.0 / 365.0
  }

  /** Longer time frames give strictly longer expiries. */
  lemma TimeFramesOrdered()
    ensures TimeToExpiration("Near") < TimeToExpiration("Medium") < TimeToExpiration("Long")
  {
  }

  /** A strategy type is priced off the call table when its lower-cased text contains "call". */
  predicate IsCallType(strategyType: string)
  {
    Contains(Lower(strategyType), "call")
  }

  /** The five moneyness labels of the strike table. */
  predicate IsTabulated(moneyness: string)
  {
    moneyness == "Deep OTM" || moneyness == "Shallow OTM" || moneyness == "ATM"
    || moneyness == "Shallow ITM" || moneyness == "Deep ITM"
  }

  /** The strike multiplier of `_get_strike_price`. */
  function StrikeMultiplier(strategyType: string, moneyness: string): (k: real)
    ensures 0.90 <= k <= 1.10
    ensures !IsTabulated(moneyness) ==> k == 1.00
  {
    var call := IsCallType(strategyType);
    if moneyness == "Deep OTM" then (if call then 0.90 else 1.10)
    else if moneyness == "Shallow OTM" then (if call then 0.95 else 1.05)
    else if moneyness == "ATM" then 1.00
    else if moneyness == "Shallow ITM" then (if call then 1.05 else 0.95)
    else if moneyness == "Deep ITM" then (if call then 1.10 else 0.90)
    else 1.00
  }

  /** The put table mirrors the call table around 1: for every moneyness the two
      multipliers add up to 2. */
  lemma MultipliersMirrored(callType: string, otherType: string, moneyness: string)
    requires IsCallType(callType) && !IsCallType(otherType)
    ensures StrikeMultiplier(callType, moneyness) + StrikeMultiplier(otherType, moneyness) == 2.0
  {
  }

  /** Along the labels Deep OTM, Shallow OTM, ATM, Shallow ITM, Deep ITM the call
      multiplier strictly rises. A call labelled "OTM" therefore has its strike
      below the base price, that is, it starts in the money. */
  lemma CallMultipliersAscend(callType: string)
    requires IsCallType(callType)
    ensures StrikeMultiplier(callType, "Deep OTM") < StrikeMultiplier(callType, "Shallow OTM")
            < StrikeMultiplier(callType, "ATM") < StrikeMultiplier(callType, "Shallow ITM")
            < StrikeMultiplier(callType, "Deep ITM")
  {
  }

  /** `_get_strike_price`: the base price scaled by the multiplier. */
  function StrikePrice(config: StrategyConfig, basePrice: real): (k: real)
    ensures basePrice >= 0.0 ==> 0.90 * basePrice <= k <= 1.10 * basePrice
    ensures !IsTabulated(config.moneyness) ==> k == basePrice
    ensures basePrice > 0.0 ==> k > 0.0
    ensures basePrice == 0.0 <==> k == 0.0
  {
    basePrice * StrikeMultiplier(config.strategyType, config.moneyness)
  }

  /** A strike is the base price scaled by its multiplier. */
  lemma StrikeScaled(config: StrategyConfig, basePrice: real)
    ensures StrikePrice(config, basePrice) == basePrice * StrikeMultiplier(config.strategyType, config.moneyness)
  {
  }

  /** Equal multipliers give equal strikes; mirrored multipliers give strikes mirrored about the base price. */
  lemma StrikeRelations(c: StrategyConfig, d: StrategyConfig, basePrice: real)
    ensures StrikeMultiplier(c.strategyType, c.moneyness) == StrikeMultiplier(d.strategyType, d.moneyness)
            ==> StrikePrice(c, basePrice) == StrikePrice(d, basePrice)
    ensures StrikeMultiplier(c.strategyType, c.moneyness) + StrikeMultiplier(d.strategyType, d.moneyness) == 2.0
            ==> StrikePrice(c, basePrice) + StrikePrice(d, basePrice) == 2.0 * basePrice
  {
    var kc, kd := StrikeMultiplier(c.strategyType, c.moneyness), StrikeMultiplier(d.strategyType, d.moneyness);
    StrikeScaled(c, basePrice);
    StrikeScaled(d, basePrice);
    assert kc == kd ==> basePrice * kc == basePrice * kd;
    assert kc + kd == 2.0 ==> basePrice * kc + basePrice * kd == 2.0 * basePrice by {
      ScaleSum(basePrice, kc, kd);
    }
  }

  /** At a positive base price, strikes are ordered as their multipliers. */
  lemma StrikeOrder(c: StrategyConfig, d: StrategyConfig, basePrice: real)
    requires basePrice > 0.0
    ensures StrikeMultiplier(c.strategyType, c.moneyness) <= StrikeMultiplier(d.strategyType, d.moneyness)
            ==> StrikePrice(c, basePrice) <= StrikePrice(d, basePrice)
    ensures StrikeMultiplier(c.strategyType, c.moneyness) < StrikeMultiplier(d.strategyType, d.moneyness)
            ==> StrikePrice(c, basePrice) < StrikePrice(d, basePrice)
  {
    var kc, kd := StrikeMultiplier(c.strategyType, c.moneyness), StrikeMultiplier(d.strategyType, d.moneyness);
    StrikeScaled(c, basePrice);
    StrikeScaled(d, basePrice);
    ScaleMonotone(basePrice, kc, kd);
  }

  lemma ScaleMonotone(b: real, x: real, y: real)
    requires b > 0.0
    ensures x <= y ==> b * x <= b * y
    ensures x < y ==> b * x < b * y
  {
  }

  lemma ScaleSum(b: real, x: real, y: real)
    ensures x + y == 2.0 ==> b * x + b * y == 2.0 * b
  {
    assert b * x + b * y == b * (x + y);
  }

  /** The constructor `OptionStrategy.__init__`. */
  function NewOptionStrategy(config: StrategyConfig, basePrice: real): (s: OptionStrategy)
    ensures s.config == config && s.basePrice == basePrice
    ensures s.riskFreeRate == 0.05 && s.volatility == 0.25
    ensures 0.0 < s.timeToExpiration <= LongestExpiry
    ensures basePrice >= 0.0 ==> 0.90 * basePrice <= s.strikePrice <= 1.10 * basePrice
    ensures s.strikePrice * basePrice >= 0.0
    ensures basePrice != 0.0 ==> s.strikePrice * basePrice > 0.0
  {
    OptionStrategy(config, basePrice, RiskFreeRate, Volatility,
      TimeToExpiration(config.timeFrame), StrikePrice(config, basePrice))
  }

  /** `s` is what the constructor makes of its own config and base price. */
  predicate IsSetUp(s: OptionStrategy)
  {
    s == NewOptionStrategy(s.config, s.basePrice)
  }

  /** The premium of a freshly set-up strategy is priced at a positive expiry;
      that pricing raises exactly when the base price is zero (the strike is then zero). */
  lemma InceptionInDomain(m: MathLib, s: OptionStrategy)
    ensures IsSetUp(s) ==> s.timeToExpiration > 0.0
    ensures IsSetUp(s) && s.basePrice == 0.0 ==> s.strikePrice == 0.0
    ensures IsSetUp(s) && Sound(m) && s.basePrice != 0.0 ==>
              InDomain(m, s.basePrice, s.strikePrice, s.timeToExpiration, s.volatility)
  {
    if IsSetUp(s) && Sound(m) && s.basePrice != 0.0 {
      DefinedOnSameSignInputs(m, s.basePrice, s.strikePrice, s.timeToExpiration, s.volatility);
    }
  }
}
