/** Short put strategies (codes SP1-SP15): one put written at inception. */
module ShortPut {
  import opened Common
  import opened Analytic
  import opened BlackScholes
  import opened Base
  import opened Payoffs
  import LongPut

  /** `get_initial_cost`: the premium received for the put. It is the premium a
      long put on the same strategy pays, so it is never negative, although the
      comment on it speaks of a negative cost for a credit. */
  function InitialCost(m: MathLib, s: OptionStrategy): (c: Result<real, PricingError>)
    ensures c == LongPut.InitialCost(m, s)
    ensures c.Ok? ==> c.value >= 0.0
  {
    PutPrice(m, s.basePrice, s.strikePrice, s.timeToExpiration, s.riskFreeRate, s.volatility)
  }

  /** The at-expiry branch of `calculate_payoff`: per spot, the premium less the intrinsic value. */
  function ExpiryPayoff(m: MathLib, s: OptionStrategy, spots: seq<real>): (r: Result<seq<real>, PricingError>)
    ensures r.Ok? <==> InitialCost(m, s).Ok?
    ensures r.Ok? ==> |r.value| == |spots|
    // the gain is limited to the premium, kept in full at or above the strike
    ensures r.Ok? ==> forall i :: 0 <= i < |spots| ==> r.value[i] <= InitialCost(m, s).value
    ensures r.Ok? ==> forall i :: 0 <= i < |spots| && spots[i] >= s.strikePrice ==> r.value[i] == InitialCost(m, s).value
    // the loss is limited to the strike less the premium, reached at a spot of zero
    ensures r.Ok? && s.strikePrice >= 0.0 ==> forall i :: 0 <= i < |spots| && spots[i] >= 0.0 ==>
                        r.value[i] >= InitialCost(m, s).value - s.strikePrice
    // above the break-even point `strike - premium` a credit is a profit
    ensures r.Ok? && InitialCost(m, s).value > 0.0 ==>
              forall i :: 0 <= i < |spots| && spots[i] > s.strikePrice - InitialCost(m, s).value ==> r.value[i] > 0.0
    // a lower spot never pays more
    ensures r.Ok? ==> forall i, j :: 0 <= i < |spots| && 0 <= j < |spots| && spots[i] <= spots[j] ==>
                        r.value[i] <= r.value[j]
  {
    match InitialCost(m, s)
    case Err(e) => Err(e)
    case Ok(c) => Ok(seq(|spots|, i requires 0 <= i < |spots| => c - Max(s.strikePrice - spots[i], 0.0)))
  }

  /** One pass of the pre-expiry loop: the premium less the option's value at
      spot `S` with `t` years left. */
  function LiveValue(m: MathLib, s: OptionStrategy, t: real, S: real): (v: Result<real, PricingError>)
    ensures v.Ok? ==> InitialCost(m, s).Ok? && v.value <= InitialCost(m, s).value
  {
    match PutPrice(m, S, s.strikePrice, t, s.riskFreeRate, s.volatility)
    case Err(e) => Err(e)
    case Ok(value) =>
      match InitialCost(m, s)
      case Err(e) => Err(e)
      case Ok(c) => Ok(c - value)
  }

  /** What `calculate_payoff` returns. */
  function Payoff(m: MathLib, s: OptionStrategy, spots: seq<real>, timeToExp: Option<real>): (r: Result<seq<real>, PricingError>)
    ensures r.Ok? ==> |r.value| == |spots|
    ensures r.Ok? ==> forall i :: 0 <= i < |spots| ==>
                        InitialCost(m, s).Ok? && r.value[i] <= InitialCost(m, s).value
  {
    if AtExpiry(timeToExp) then ExpiryPayoff(m, s, spots)
    else MapSpots(S => LiveValue(m, s, timeToExp.value, S), spots)
  }

  /** `calculate_payoff`. */
  method CalculatePayoff(m: MathLib, s: OptionStrategy, spots: seq<real>, timeToExp: Option<real>)
    returns (r: Result<seq<real>, PricingError>)
    ensures r == Payoff(m, s, spots, timeToExp)
  {
    if AtExpiry(timeToExp) {
      r := ExpiryPayoff(m, s, spots);
    } else {
      var t := timeToExp.value;
      r := CollectPayoffs(S => LiveValue(m, s, t, S), spots);
    }
  }

  /** At expiry, writing a put pays the negation of buying it. */
  lemma ExpiryMirror(m: MathLib, s: OptionStrategy, spots: seq<real>)
    ensures ExpiryPayoff(m, s, spots) == Negated(LongPut.ExpiryPayoff(m, s, spots))
  {
    var a, b := LongPut.ExpiryPayoff(m, s, spots), ExpiryPayoff(m, s, spots);
    if a.Ok? {
      assert b.value == Negated(a).value;
    }
  }

  /** One spot before expiry: the value is the long position's negated, or the same error. */
  lemma SpotMirror(m: MathLib, s: OptionStrategy, t: real, S: real)
    ensures LiveValue(m, s, t, S) == (match LongPut.LiveValue(m, s, t, S) case Err(e) => Err(e) case Ok(v) => Ok(-v))
  {
    var p := PutPrice(m, S, s.strikePrice, t, s.riskFreeRate, s.volatility);
    if p.Ok? && InitialCost(m, s).Ok? {
      assert LiveValue(m, s, t, S) == Ok(InitialCost(m, s).value - p.value);
    }
  }

  /** Before expiry, each spot's value is the negation of the long put's, and
      the first failing spot fails both with the same error. */
  lemma LiveMirror(m: MathLib, s: OptionStrategy, spots: seq<real>, t: real)
    ensures MapSpots(S => LiveValue(m, s, t, S), spots)
         == Negated(MapSpots(S => LongPut.LiveValue(m, s, t, S), spots))
  {
    SpotsMirror(m, s, t);
    MapSpotsNegated(S => LongPut.LiveValue(m, s, t, S), S => LiveValue(m, s, t, S), spots);
  }

  /** `SpotMirror` at every spot. */
  lemma SpotsMirror(m: MathLib, s: OptionStrategy, t: real)
    ensures forall S :: LiveValue(m, s, t, S) == (match LongPut.LiveValue(m, s, t, S) case Err(e) => Err(e) case Ok(v) => Ok(-v))
  {
    forall S
      ensures LiveValue(m, s, t, S) == (match LongPut.LiveValue(m, s, t, S) case Err(e) => Err(e) case Ok(v) => Ok(-v))
    {
      SpotMirror(m, s, t, S);
    }
  }

  /** Writing a put is the mirror image of buying it: at every spot, before or at
      expiry, the payoff is the long put's negated, and both fail alike. */
  lemma MirrorsLongPut(m: MathLib, s: OptionStrategy, spots: seq<real>, timeToExp: Option<real>)
    ensures Payoff(m, s, spots, timeToExp) == Negated(LongPut.Payoff(m, s, spots, timeToExp))
  {
    if AtExpiry(timeToExp) {
      ExpiryMirror(m, s, spots);
    } else {
      LiveMirror(m, s, spots, timeToExp.value);
    }
  }

  /** A set-up strategy with a positive base price values every positive spot. */
  lemma PayoffDefined(m: MathLib, s: OptionStrategy, spots: seq<real>, timeToExp: Option<real>)
    requires Sound(m) && IsSetUp(s) && s.basePrice > 0.0
    requires forall i :: 0 <= i < |spots| ==> spots[i] > 0.0
    ensures Payoff(m, s, spots, timeToExp).Ok?
  {
    LongPut.PayoffDefined(m, s, spots, timeToExp);
    MirrorsLongPut(m, s, spots, timeToExp);
  }
}
