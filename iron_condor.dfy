/** The iron condor (catalog codes S19-S21): a put spread below the base price
    and a call spread above it, both written for a credit, wings 5% of the base
    price wide. */
module IronCondor {
  import opened Common
  import opened Models
  import opened Analytic
  import opened BlackScholes
  import opened Base
  import opened Payoffs

  /** The state `IronCondorStrategy.__init__` sets up. */
  datatype IronCondorStrategy = IronCondorStrategy(
    config: StrategyConfig,
    basePrice: real,
    riskFreeRate: real,
    volatility: real,
    timeToExpiration: real,
    putLongStrike: real,
    putShortStrike: real,
    callShortStrike: real,
    callLongStrike: real)

  /** `_get_iron_condor_strikes`: (put long, put short, call short, call long). */
  function CondorStrikes(basePrice: real): (k: (real, real, real, real))
    // both wings are 5% of the base price wide ...
    ensures k.1 - k.0 == 0.05 * basePrice && k.3 - k.2 == 0.05 * basePrice
    // ... the written strikes sit 5% either side of the base price ...
    ensures k.1 == 0.95 * basePrice && k.2 == 1.05 * basePrice
    // ... so for a positive base price the four strikes ascend around it
    ensures basePrice > 0.0 ==> 0.0 < k.0 < k.1 < basePrice < k.2 < k.3
  {
    var wingWidth := basePrice * 0.05;
    var putShort := basePrice * 0.95;
    var callShort := basePrice * 1.05;
    (putShort - wingWidth, putShort, callShort, callShort + wingWidth)
  }

  /** The constructor `IronCondorStrategy.__init__`. */
  function NewIronCondor(config: StrategyConfig, basePrice: real): (s: IronCondorStrategy)
    ensures s.config == config && s.basePrice == basePrice
    ensures s.riskFreeRate == 0.05 && s.volatility == 0.25
    ensures s.timeToExpiration == TimeToExpiration(config.timeFrame)
    ensures (s.putLongStrike, s.putShortStrike, s.callShortStrike, s.callLongStrike) == CondorStrikes(basePrice)
  {
    var k := CondorStrikes(basePrice);
    IronCondorStrategy(config, basePrice, RiskFreeRate, Volatility, TimeToExpiration(config.timeFrame), k.0, k.1, k.2, k.3)
  }

  /** `s` is what the constructor makes of its own config and base price. */
  predicate IsSetUp(s: IronCondorStrategy)
  {
    s == NewIronCondor(s.config, s.basePrice)
  }

  /** The four legs' prices at spot `S` with `t` years left, in the order the
      source computes them (put long, put short, call short, call long): the
      bought legs less the written ones, or the first leg's error. */
  function PositionValue(m: MathLib, s: IronCondorStrategy, S: real, t: real): (v: Result<real, PricingError>)
    ensures v.Ok? <==>
      PutPrice(m, S, s.putLongStrike, t, s.riskFreeRate, s.volatility).Ok? &&
      PutPrice(m, S, s.putShortStrike, t, s.riskFreeRate, s.volatility).Ok? &&
      CallPrice(m, S, s.callShortStrike, t, s.riskFreeRate, s.volatility).Ok? &&
      CallPrice(m, S, s.callLongStrike, t, s.riskFreeRate, s.volatility).Ok?
    ensures v.Err? && PutPrice(m, S, s.putLongStrike, t, s.riskFreeRate, s.volatility).Err? ==>
      v.error == PutPrice(m, S, s.putLongStrike, t, s.riskFreeRate, s.volatility).error
  {
    match PutPrice(m, S, s.putLongStrike, t, s.riskFreeRate, s.volatility)
    case Err(e) => Err(e)
    case Ok(putLong) =>
      match PutPrice(m, S, s.putShortStrike, t, s.riskFreeRate, s.volatility)
      case Err(e) => Err(e)
      case Ok(putShort) =>
        match CallPrice(m, S, s.callShortStrike, t, s.riskFreeRate, s.volatility)
        case Err(e) => Err(e)
        case Ok(callShort) =>
          match CallPrice(m, S, s.callLongStrike, t, s.riskFreeRate, s.volatility)
          case Err(e) => Err(e)
          case Ok(callLong) => Ok(putLong - putShort + callLong - callShort)
  }

  /** `get_initial_cost`: the net credit, the two written premiums less the two
      bought ones, all priced at the base price and the strategy's expiry. */
  function InitialCost(m: MathLib, s: IronCondorStrategy): (c: Result<real, PricingError>)
    ensures c.Ok? <==> PositionValue(m, s, s.basePrice, s.timeToExpiration).Ok?
    // the credit received is what the position is worth at inception, negated
    ensures c.Ok? ==> c.value == -PositionValue(m, s, s.basePrice, s.timeToExpiration).value
    ensures c.Err? ==> c.error == PositionValue(m, s, s.basePrice, s.timeToExpiration).error
    // a set-up condor is priced exactly when its base price is not zero
    ensures IsSetUp(s) && s.basePrice == 0.0 ==> c == Err(ZeroDivisionError)
    ensures IsSetUp(s) && Sound(m) && s.basePrice != 0.0 ==> c.Ok?
  {
    CondorInDomain(m, s);
    var putLong := PutPrice(m, s.basePrice, s.putLongStrike, s.timeToExpiration, s.riskFreeRate, s.volatility);
    var putShort := PutPrice(m, s.basePrice, s.putShortStrike, s.timeToExpiration, s.riskFreeRate, s.volatility);
    var callShort := CallPrice(m, s.basePrice, s.callShortStrike, s.timeToExpiration, s.riskFreeRate, s.volatility);
    var callLong := CallPrice(m, s.basePrice, s.callLongStrike, s.timeToExpiration, s.riskFreeRate, s.volatility);
    if putLong.Err? then Err(putLong.error)
    else if putShort.Err? then Err(putShort.error)
    else if callShort.Err? then Err(callShort.error)
    else if callLong.Err? then Err(callLong.error)
    else Ok((putShort.value + callShort.value) - (putLong.value + callLong.value))
  }

  /** A set-up condor prices all four legs at inception when its base price is
      not zero, and fails on the first when it is. */
  lemma CondorInDomain(m: MathLib, s: IronCondorStrategy)
    ensures IsSetUp(s) ==> s.timeToExpiration > 0.0
    ensures IsSetUp(s) && s.basePrice == 0.0 ==>
      s.putLongStrike == 0.0 && PutPrice(m, s.basePrice, s.putLongStrike, s.timeToExpiration, s.riskFreeRate, s.volatility) == Err(ZeroDivisionError)
    ensures IsSetUp(s) && Sound(m) && s.basePrice != 0.0 ==>
      InDomain(m, s.basePrice, s.putLongStrike, s.timeToExpiration, s.volatility) &&
      InDomain(m, s.basePrice, s.putShortStrike, s.timeToExpiration, s.volatility) &&
      InDomain(m, s.basePrice, s.callShortStrike, s.timeToExpiration, s.volatility) &&
      InDomain(m, s.basePrice, s.callLongStrike, s.timeToExpiration, s.volatility)
  {
    if IsSetUp(s) && Sound(m) && s.basePrice != 0.0 {
      var B := s.basePrice;
      assert s.putLongStrike * B == 0.90 * (B * B) && s.putShortStrike * B == 0.95 * (B * B);
      assert s.callShortStrike * B == 1.05 * (B * B) && s.callLongStrike * B == 1.10 * (B * B);
      DefinedOnSameSignInputs(m, B, s.putLongStrike, s.timeToExpiration, s.volatility);
      DefinedOnSameSignInputs(m, B, s.putShortStrike, s.timeToExpiration, s.volatility);
      DefinedOnSameSignInputs(m, B, s.callShortStrike, s.timeToExpiration, s.volatility);
      DefinedOnSameSignInputs(m, B, s.callLongStrike, s.timeToExpiration, s.volatility);
    }
  }

  /** What the condor owes at expiry at spot `S`: the written put spread's
      payout plus the written call spread's. */
  function Owed(s: IronCondorStrategy, S: real): (o: real)
    // on a set-up condor with a non-negative base price it is never negative
    // and never more than one wing's width ...
    ensures IsSetUp(s) && s.basePrice >= 0.0 ==> 0.0 <= o <= 0.05 * s.basePrice
    // ... and nothing is owed between the written strikes
    ensures IsSetUp(s) && s.basePrice >= 0.0 && s.putShortStrike <= S <= s.callShortStrike ==> o == 0.0
  {
    var putSpread := Max(s.putShortStrike - S, 0.0) - Max(s.putLongStrike - S, 0.0);
    var callSpread := Max(S - s.callShortStrike, 0.0) - Max(S - s.callLongStrike, 0.0);
    putSpread + callSpread
  }

  /** The at-expiry branch of `calculate_payoff`: the credit less what is owed. */
  function ExpiryPayoff(m: MathLib, s: IronCondorStrategy, spots: seq<real>): (r: Result<seq<real>, PricingError>)
    ensures r.Ok? <==> InitialCost(m, s).Ok?
    ensures r.Ok? ==> |r.value| == |spots|
    // the most a set-up condor can gain is the credit, kept in full between the
    // written strikes; the most it can lose is a wing's width less the credit
    ensures r.Ok? && IsSetUp(s) && s.basePrice >= 0.0 ==> forall i :: 0 <= i < |spots| ==>
              InitialCost(m, s).value - 0.05 * s.basePrice <= r.value[i] <= InitialCost(m, s).value
    ensures r.Ok? && IsSetUp(s) && s.basePrice >= 0.0 ==> forall i :: 0 <= i < |spots| ==>
              (s.putShortStrike <= spots[i] <= s.callShortStrike ==> r.value[i] == InitialCost(m, s).value)
  {
    match InitialCost(m, s)
    case Err(e) => Err(e)
    case Ok(credit) => Ok(seq(|spots|, i requires 0 <= i < |spots| => credit - Owed(s, spots[i])))
  }

  /** One pass of the pre-expiry loop: the credit plus what the four legs are
      worth at spot `S` with `t` years left. The legs are priced before the
      credit, so their errors come first. */
  function LiveValue(m: MathLib, s: IronCondorStrategy, t: real, S: real): (v: Result<real, PricingError>)
    ensures v.Ok? <==> PositionValue(m, s, S, t).Ok? && InitialCost(m, s).Ok?
    ensures v.Err? && PositionValue(m, s, S, t).Err? ==> v.error == PositionValue(m, s, S, t).error
  {
    match PositionValue(m, s, S, t)
    case Err(e) => Err(e)
    case Ok(current) =>
      match InitialCost(m, s)
      case Err(e) => Err(e)
      case Ok(credit) => Ok(credit + current)
  }

  /** What `calculate_payoff` returns. */
  function Payoff(m: MathLib, s: IronCondorStrategy, spots: seq<real>, timeToExp: Option<real>): (r: Result<seq<real>, PricingError>)
    ensures r.Ok? ==> |r.value| == |spots|
    ensures AtExpiry(timeToExp) ==> (r.Ok? <==> InitialCost(m, s).Ok?)
    // at expiry a set-up condor keeps at most the credit, loses at most a wing's
    // width less the credit, and keeps the whole credit between the written strikes
    ensures r.Ok? && AtExpiry(timeToExp) && IsSetUp(s) && s.basePrice >= 0.0 ==> forall i :: 0 <= i < |spots| ==>
              InitialCost(m, s).value - 0.05 * s.basePrice <= r.value[i] <= InitialCost(m, s).value
              && (s.putShortStrike <= spots[i] <= s.callShortStrike ==> r.value[i] == InitialCost(m, s).value)
  {
    if AtExpiry(timeToExp) then ExpiryPayoff(m, s, spots)
    else MapSpots(S => LiveValue(m, s, timeToExp.value, S), spots)
  }

  /** `calculate_payoff`. */
  method CalculatePayoff(m: MathLib, s: IronCondorStrategy, spots: seq<real>, timeToExp: Option<real>)
    returns (r: Result<seq<real>, PricingError>)
    ensures r == Payoff(m, s, spots, timeToExp)
  {
    if AtExpiry(timeToExp) {
      r := ExpiryPayoff(m, s, spots);
    } else {
      var t := timeToExp.value;
      r := CollectPayoffs(S => LiveValue(m, s, t, S), spots);
    }
  }

  /** At the base price with the whole term left, the position is worth exactly
      what was received for it: the profit is zero. */
  lemma FlatAtInception(m: MathLib, s: IronCondorStrategy)
    requires InitialCost(m, s).Ok?
    ensures LiveValue(m, s, s.timeToExpiration, s.basePrice) == Ok(0.0)
  {
  }

  /** The pre-expiry formula, run with no time left, gives the at-expiry payoff:
      the kernel's expiry prices are the intrinsic values the expiry branch uses. */
  lemma LiveValueAtExpiry(m: MathLib, s: IronCondorStrategy, spots: seq<real>, t: real)
    requires t <= 0.0
    requires ExpiryPayoff(m, s, spots).Ok?
    ensures forall i :: 0 <= i < |spots| ==> LiveValue(m, s, t, spots[i]) == Ok(ExpiryPayoff(m, s, spots).value[i])
  {
    forall i | 0 <= i < |spots|
      ensures LiveValue(m, s, t, spots[i]) == Ok(ExpiryPayoff(m, s, spots).value[i])
    {
      var S := spots[i];
      assert PositionValue(m, s, S, t) == Ok(-Owed(s, S));
    }
  }

  /** Both branches agree: each payoff is the credit plus what the four legs are
      worth at that spot and the remaining time (expiry when none is given). */
  lemma PayoffIsCreditPlusPosition(m: MathLib, s: IronCondorStrategy, spots: seq<real>, timeToExp: Option<real>)
    requires Payoff(m, s, spots, timeToExp).Ok?
    ensures forall i :: 0 <= i < |spots| ==>
      InitialCost(m, s).Ok? &&
      PositionValue(m, s, spots[i], Remaining(timeToExp))
        == Ok(Payoff(m, s, spots, timeToExp).value[i] - InitialCost(m, s).value)
  {
    if AtExpiry(timeToExp) {
      ExpiryIsCreditPlusPosition(m, s, spots, Remaining(timeToExp));
    } else {
      LiveIsCreditPlusPosition(m, s, spots, timeToExp);
    }
  }

  /** The at-expiry branch: the credit less what is owed is the credit plus the
      legs' intrinsic value. */
  lemma ExpiryIsCreditPlusPosition(m: MathLib, s: IronCondorStrategy, spots: seq<real>, t: real)
    requires t <= 0.0 && ExpiryPayoff(m, s, spots).Ok?
    ensures forall i :: 0 <= i < |spots| ==>
      InitialCost(m, s).Ok? && PositionValue(m, s, spots[i], t) == Ok(ExpiryPayoff(m, s, spots).value[i] - InitialCost(m, s).value)
  {
    forall i | 0 <= i < |spots|
      ensures PositionValue(m, s, spots[i], t) == Ok(ExpiryPayoff(m, s, spots).value[i] - InitialCost(m, s).value)
    {
      assert PositionValue(m, s, spots[i], t) == Ok(-Owed(s, spots[i]));
    }
  }

  /** The pre-expiry branch: each pass of the loop adds the legs' value to the credit. */
  lemma LiveIsCreditPlusPosition(m: MathLib, s: IronCondorStrategy, spots: seq<real>, timeToExp: Option<real>)
    requires !AtExpiry(timeToExp) && Payoff(m, s, spots, timeToExp).Ok?
    ensures forall i :: 0 <= i < |spots| ==>
      InitialCost(m, s).Ok? &&
      PositionValue(m, s, spots[i], timeToExp.value) == Ok(Payoff(m, s, spots, timeToExp).value[i] - InitialCost(m, s).value)
  {
    forall i | 0 <= i < |spots|
      ensures InitialCost(m, s).Ok? &&
        PositionValue(m, s, spots[i], timeToExp.value) == Ok(Payoff(m, s, spots, timeToExp).value[i] - InitialCost(m, s).value)
    {
      LiveIsCreditPlusPositionAt(m, s, spots, timeToExp, i);
    }
  }

  /** `LiveIsCreditPlusPosition` at one spot. */
  lemma LiveIsCreditPlusPositionAt(m: MathLib, s: IronCondorStrategy, spots: seq<real>, timeToExp: Option<real>, i: int)
    requires !AtExpiry(timeToExp) && Payoff(m, s, spots, timeToExp).Ok? && 0 <= i < |spots|
    ensures InitialCost(m, s).Ok? &&
      PositionValue(m, s, spots[i], timeToExp.value) == Ok(Payoff(m, s, spots, timeToExp).value[i] - InitialCost(m, s).value)
  {
    var t := timeToExp.value;
    var x := Payoff(m, s, spots, timeToExp).value[i];
    assert LiveValue(m, s, t, spots[i]) == Ok(x);
    LiveValueParts(m, s, t, spots[i]);
  }

  /** One pass of the loop is the credit plus the legs' value. */
  lemma LiveValueParts(m: MathLib, s: IronCondorStrategy, t: real, S: real)
    requires LiveValue(m, s, t, S).Ok?
    ensures InitialCost(m, s).Ok? && PositionValue(m, s, S, t) == Ok(LiveValue(m, s, t, S).value - InitialCost(m, s).value)
  {
  }

  /** A set-up condor with a positive base price values every positive spot. */
  lemma PayoffDefined(m: MathLib, s: IronCondorStrategy, spots: seq<real>, timeToExp: Option<real>)
    requires Sound(m) && IsSetUp(s) && s.basePrice > 0.0
    requires forall i :: 0 <= i < |spots| ==> spots[i] > 0.0
    ensures Payoff(m, s, spots, timeToExp).Ok?
  {
    if !AtExpiry(timeToExp) {
      var t := timeToExp.value;
      DefinedOnPositiveSpots(m, s.putLongStrike, t, s.volatility);
      DefinedOnPositiveSpots(m, s.putShortStrike, t, s.volatility);
      DefinedOnPositiveSpots(m, s.callShortStrike, t, s.volatility);
      DefinedOnPositiveSpots(m, s.callLongStrike, t, s.volatility);
    }
  }
}
