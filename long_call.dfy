/** Long call strategies (codes C1-C15): one call bought at inception. */
module LongCall {
  import opened Common
  import opened Analytic
  import opened BlackScholes
  import opened Base
  import opened Payoffs

  /** `get_initial_cost`: the call premium paid, priced at the base price, the
      strategy's strike and its expiry. */
  function InitialCost(m: MathLib, s: OptionStrategy): (c: Result<real, PricingError>)
    ensures c.Ok? ==> c.value >= 0.0
    ensures IsSetUp(s) && s.basePrice == 0.0 ==> c == Err(ZeroDivisionError)
    ensures IsSetUp(s) && Sound(m) && s.basePrice != 0.0 ==> c.Ok?
  {
    InceptionInDomain(m, s);
    CallPrice(m, s.basePrice, s.strikePrice, s.timeToExpiration, s.riskFreeRate, s.volatility)
  }

  /** The premium of a set-up strategy never exceeds the base price. */
  lemma PremiumAtMostBasePrice(m: MathLib, s: OptionStrategy)
    requires Sound(m) && IsSetUp(s) && s.basePrice > 0.0
    ensures InitialCost(m, s).Ok? && InitialCost(m, s).value <= s.basePrice
  {
    CallAtMostSpot(m, s.basePrice, s.strikePrice, s.timeToExpiration, s.riskFreeRate, s.volatility);
  }

  /** The at-expiry branch of `calculate_payoff`: per spot, the intrinsic value less the premium. */
  function ExpiryPayoff(m: MathLib, s: OptionStrategy, spots: seq<real>): (r: Result<seq<real>, PricingError>)
    ensures r.Ok? <==> InitialCost(m, s).Ok?
    ensures r.Ok? ==> |r.value| == |spots|
    // the loss is limited to the premium
    ensures r.Ok? ==> forall i :: 0 <= i < |spots| ==> r.value[i] >= -InitialCost(m, s).value
    // a higher spot never pays less
    ensures r.Ok? ==> forall i, j :: 0 <= i < |spots| && 0 <= j < |spots| && spots[i] <= spots[j] ==>
                        r.value[i] <= r.value[j]
  {
    match InitialCost(m, s)
    case Err(e) => Err(e)
    case Ok(c) => Ok(seq(|spots|, i requires 0 <= i < |spots| => Max(spots[i] - s.strikePrice, 0.0) - c))
  }

  /** One pass of the pre-expiry loop: the option's value at spot `S` with `t`
      years left, less the premium. */
  function LiveValue(m: MathLib, s: OptionStrategy, t: real, S: real): (v: Result<real, PricingError>)
    ensures v.Ok? ==> InitialCost(m, s).Ok? && v.value >= -InitialCost(m, s).value
  {
    match CallPrice(m, S, s.strikePrice, t, s.riskFreeRate, s.volatility)
    case Err(e) => Err(e)
    case Ok(value) =>
      match InitialCost(m, s)
      case Err(e) => Err(e)
      case Ok(c) => Ok(value - c)
  }

  /** What `calculate_payoff` returns. */
  function Payoff(m: MathLib, s: OptionStrategy, spots: seq<real>, timeToExp: Option<real>): (r: Result<seq<real>, PricingError>)
    ensures r.Ok? ==> |r.value| == |spots|
    ensures r.Ok? ==> forall i :: 0 <= i < |spots| ==>
                        InitialCost(m, s).Ok? && r.value[i] >= -InitialCost(m, s).value
  {
    if AtExpiry(timeToExp) then ExpiryPayoff(m, s, spots)
    else MapSpots(S => LiveValue(m, s, timeToExp.value, S), spots)
  }

  /** `calculate_payoff`. */
  method CalculatePayoff(m: MathLib, s: OptionStrategy, spots: seq<real>, timeToExp: Option<real>)
    returns (r: Result<seq<real>, PricingError>)
    ensures r == Payoff(m, s, spots, timeToExp)
  {
    if AtExpiry(timeToExp) {
      r := ExpiryPayoff(m, s, spots);
    } else {
      var t := timeToExp.value;
      r := CollectPayoffs(S => LiveValue(m, s, t, S), spots);
    }
  }

  /** Both branches agree: each payoff is the kernel's call price at that spot and
      the remaining time (expiry when none is given), less the premium. */
  lemma PayoffIsPriceLessPremium(m: MathLib, s: OptionStrategy, spots: seq<real>, timeToExp: Option<real>)
    requires Payoff(m, s, spots, timeToExp).Ok?
    ensures forall i :: 0 <= i < |spots| ==>
      InitialCost(m, s).Ok? &&
      CallPrice(m, spots[i], s.strikePrice, Remaining(timeToExp), s.riskFreeRate, s.volatility)
        == Ok(Payoff(m, s, spots, timeToExp).value[i] + InitialCost(m, s).value)
  {
  }

  /** A set-up strategy with a positive base price values every positive spot. */
  lemma PayoffDefined(m: MathLib, s: OptionStrategy, spots: seq<real>, timeToExp: Option<real>)
    requires Sound(m) && IsSetUp(s) && s.basePrice > 0.0
    requires forall i :: 0 <= i < |spots| ==> spots[i] > 0.0
    ensures Payoff(m, s, spots, timeToExp).Ok?
  {
    if !AtExpiry(timeToExp) {
      DefinedOnPositiveSpots(m, s.strikePrice, timeToExp.value, s.volatility);
    }
  }
}
