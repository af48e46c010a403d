/** The hedge solver of `delta_calculator.py`: Black-Scholes deltas of a call
    and a put, and the quantity of a reference option (QQQ) that makes a
    position in an option on a 3x leveraged fund (TQQQ) delta-neutral. */
module DeltaCalculator {
  import opened Common
  import opened Text
  import opened Analytic
  import opened BlackScholes

  /** One point of the index moves the leveraged fund three points. */
  const LeverageRatio: real := 3.0

  /** Below this magnitude the reference delta is treated as zero (1e-10). */
  const DeltaGuard: real := 0.0000000001

  /** `calculate_call_delta`: at or past expiry a step at the strike (a spot
      equal to the strike gives 0); before it `cdf(d1)`, raising where the
      closed form raises. */
  function CallDelta(m: MathLib, S: real, K: real, T: real, r: real, sigma: real): (d: Result<real, PricingError>)
    ensures T <= 0.0 ==> d == Ok(if S > K then 1.0 else 0.0)
    ensures T > 0.0 ==> (d.Ok? <==> InDomain(m, S, K, T, sigma))
    ensures T > 0.0 && K == 0.0 ==> d == Err(ZeroDivisionError)
    ensures T > 0.0 && K != 0.0 && S / K <= 0.0 ==> d == Err(MathDomainError)
    ensures Sound(m) && d.Ok? ==> 0.0 <= d.value <= 1.0
  {
    if T <= 0.0 then Ok(if S > K then 1.0 else 0.0)
    else
      match D1D2(m, S, K, T, r, sigma)
      case Err(e) => Err(e)
      case Ok((d1, _)) => Ok(m.cdf(d1))
  }

  /** `calculate_put_delta`: the call delta less one, so it fails exactly where
      the call delta does and lies in [-1, 0]. */
  function PutDelta(m: MathLib, S: real, K: real, T: real, r: real, sigma: real): (d: Result<real, PricingError>)
    ensures d.Ok? <==> CallDelta(m, S, K, T, r, sigma).Ok?
    ensures d.Err? ==> d.error == CallDelta(m, S, K, T, r, sigma).error
    ensures d.Ok? ==> CallDelta(m, S, K, T, r, sigma).value - d.value == 1.0
    ensures Sound(m) && d.Ok? ==> -1.0 <= d.value <= 0.0
    ensures T <= 0.0 ==> d == Ok(if S > K then 0.0 else -1.0)
  {
    match CallDelta(m, S, K, T, r, sigma)
    case Err(e) => Err(e)
    case Ok(callDelta) => Ok(callDelta - 1.0)
  }

  /** The option type is a call exactly when it lower-cases to "call". */
  predicate IsCall(optionType: string)
  {
    Lower(optionType) == "call"
  }

  /** The delta of one leg, as `calculate_hedge_quantity` picks it: any type
      other than a call is priced as a put. */
  function LegDelta(m: MathLib, optionType: string, S: real, K: real, T: real, r: real, sigma: real): (d: Result<real, PricingError>)
    ensures IsCall(optionType) ==> d == CallDelta(m, S, K, T, r, sigma)
    ensures !IsCall(optionType) ==> d == PutDelta(m, S, K, T, r, sigma)
    ensures Sound(m) && d.Ok? ==> -1.0 <= d.value <= 1.0
  {
    if IsCall(optionType) then CallDelta(m, S, K, T, r, sigma) else PutDelta(m, S, K, T, r, sigma)
  }

  /** The delta exposure of a position in the leveraged fund's options:
      quantity times delta, times the leverage. */
  function Exposure(quantity: real, delta: real): real
  {
    quantity * delta * LeverageRatio
  }

  /** The reference quantity that offsets an exposure, or 0 when the reference
      delta is within the guard of zero. */
  function Neutralise(exposure: real, referenceDelta: real): (q: real)
    ensures Abs(referenceDelta) < DeltaGuard ==> q == 0.0
    ensures Abs(referenceDelta) >= DeltaGuard ==> exposure + q * referenceDelta == 0.0
  {
    if Abs(referenceDelta) < DeltaGuard then 0.0 else -exposure / referenceDelta
  }

  /** `calculate_hedge_quantity`: the quantity of the reference option whose
      delta exposure cancels the leveraged position's. The leveraged leg is
      priced first, so its error is the one raised when both legs fail. */
  function HedgeQuantity(m: MathLib, tqqqPrice: real, tqqqStrike: real, tqqqQuantity: real, tqqqType: string,
                         qqqPrice: real, qqqStrike: real, qqqType: string, T: real, r: real, sigma: real): (h: Result<real, PricingError>)
    ensures h.Ok? <==> LegDelta(m, tqqqType, tqqqPrice, tqqqStrike, T, r, sigma).Ok?
                       && LegDelta(m, qqqType, qqqPrice, qqqStrike, T, r, sigma).Ok?
    ensures LegDelta(m, tqqqType, tqqqPrice, tqqqStrike, T, r, sigma).Err?
            ==> h == Err(LegDelta(m, tqqqType, tqqqPrice, tqqqStrike, T, r, sigma).error)
    ensures LegDelta(m, tqqqType, tqqqPrice, tqqqStrike, T, r, sigma).Ok? && LegDelta(m, qqqType, qqqPrice, qqqStrike, T, r, sigma).Err?
            ==> h == Err(LegDelta(m, qqqType, qqqPrice, qqqStrike, T, r, sigma).error)
    // the value is what offsets the leveraged leg's exposure with the reference leg's delta
    ensures h.Ok? ==> h.value == Neutralise(Exposure(tqqqQuantity, LegDelta(m, tqqqType, tqqqPrice, tqqqStrike, T, r, sigma).value),
                                            LegDelta(m, qqqType, qqqPrice, qqqStrike, T, r, sigma).value)
  {
    match LegDelta(m, tqqqType, tqqqPrice, tqqqStrike, T, r, sigma)
    case Err(e) => Err(e)
    case Ok(tqqqDelta) =>
      match LegDelta(m, qqqType, qqqPrice, qqqStrike, T, r, sigma)
      case Err(e) => Err(e)
      case Ok(qqqDelta) =>
        var tqqqTotalDelta := Exposure(tqqqQuantity, tqqqDelta);
        Ok(Neutralise(tqqqTotalDelta, qqqDelta))
  }

  /** The call delta is defined exactly where the call price is, so a leg that
      can be priced can be hedged. */
  lemma DeltaDefinedWherePriced(m: MathLib, S: real, K: real, T: real, r: real, sigma: real)
    ensures CallDelta(m, S, K, T, r, sigma).Ok? <==> CallPrice(m, S, K, T, r, sigma).Ok?
    ensures PutDelta(m, S, K, T, r, sigma).Ok? <==> PutPrice(m, S, K, T, r, sigma).Ok?
  {
  }

  /** The call delta never falls as the spot rises (strike, vol positive). */
  lemma CallDeltaMonotone(m: MathLib, S1: real, S2: real, K: real, T: real, r: real, sigma: real)
    requires Sound(m) && K > 0.0 && sigma > 0.0 && S1 <= S2
    requires CallDelta(m, S1, K, T, r, sigma).Ok? && CallDelta(m, S2, K, T, r, sigma).Ok?
    ensures CallDelta(m, S1, K, T, r, sigma).value <= CallDelta(m, S2, K, T, r, sigma).value
  {
    if T > 0.0 {
      var den := sigma * m.sqrt(T);
      assert m.sqrt(T) > 0.0;
      assert den > 0.0;
      var c := (r + 0.5 * sigma * sigma) * T;
      assert S1 / K <= S2 / K;
      assert 0.0 < S1 / K;
      assert m.log(S1 / K) <= m.log(S2 / K);
      DivideMonotone(m.log(S1 / K) + c, m.log(S2 / K) + c, den);
      var d1 := (m.log(S1 / K) + c) / den;
      var e1 := (m.log(S2 / K) + c) / den;
      assert m.cdf(d1) <= m.cdf(e1);
    }
  }

  lemma DivideMonotone(x: real, y: real, d: real)
    requires x <= y && d > 0.0
    ensures x / d <= y / d
  {
  }

  /** The put delta, being the call delta less one, also never falls as the spot rises. */
  lemma PutDeltaMonotone(m: MathLib, S1: real, S2: real, K: real, T: real, r: real, sigma: real)
    requires Sound(m) && K > 0.0 && sigma > 0.0 && S1 <= S2
    requires PutDelta(m, S1, K, T, r, sigma).Ok? && PutDelta(m, S2, K, T, r, sigma).Ok?
    ensures PutDelta(m, S1, K, T, r, sigma).value <= PutDelta(m, S2, K, T, r, sigma).value
  {
    CallDeltaMonotone(m, S1, S2, K, T, r, sigma);
  }

  /** Away from the guard the offsetting quantity is the only one that zeroes
      the combined exposure. */
  lemma NeutraliseUnique(exposure: real, referenceDelta: real, q: real)
    requires Abs(referenceDelta) >= DeltaGuard
    ensures exposure + q * referenceDelta == 0.0 <==> q == Neutralise(exposure, referenceDelta)
  {
    var h := Neutralise(exposure, referenceDelta);
    if exposure + q * referenceDelta == 0.0 {
      assert (q - h) * referenceDelta == 0.0;
    }
  }

  /** Offsetting `k` times an exposure takes `k` times the quantity. */
  lemma NeutraliseLinear(k: real, exposure: real, referenceDelta: real)
    ensures Neutralise(k * exposure, referenceDelta) == k * Neutralise(exposure, referenceDelta)
  {
    if Abs(referenceDelta) >= DeltaGuard {
      assert -(k * exposure) / referenceDelta == k * (-exposure / referenceDelta);
    }
  }

  /** The hedge scales with the position: `k` times the leveraged quantity
      needs `k` times the reference quantity. */
  lemma HedgeLinearInQuantity(m: MathLib, tqqqPrice: real, tqqqStrike: real, tqqqQuantity: real, tqqqType: string,
                              qqqPrice: real, qqqStrike: real, qqqType: string, T: real, r: real, sigma: real, k: real)
    requires HedgeQuantity(m, tqqqPrice, tqqqStrike, tqqqQuantity, tqqqType, qqqPrice, qqqStrike, qqqType, T, r, sigma).Ok?
    ensures HedgeQuantity(m, tqqqPrice, tqqqStrike, k * tqqqQuantity, tqqqType, qqqPrice, qqqStrike, qqqType, T, r, sigma).Ok?
    ensures HedgeQuantity(m, tqqqPrice, tqqqStrike, k * tqqqQuantity, tqqqType, qqqPrice, qqqStrike, qqqType, T, r, sigma).value
            == k * HedgeQuantity(m, tqqqPrice, tqqqStrike, tqqqQuantity, tqqqType, qqqPrice, qqqStrike, qqqType, T, r, sigma).value
  {
    var dA := LegDelta(m, tqqqType, tqqqPrice, tqqqStrike, T, r, sigma).value;
    var dB := LegDelta(m, qqqType, qqqPrice, qqqStrike, T, r, sigma).value;
    var h := HedgeQuantity(m, tqqqPrice, tqqqStrike, tqqqQuantity, tqqqType, qqqPrice, qqqStrike, qqqType, T, r, sigma);
    var hk := HedgeQuantity(m, tqqqPrice, tqqqStrike, k * tqqqQuantity, tqqqType, qqqPrice, qqqStrike, qqqType, T, r, sigma);
    assert hk.Ok? && hk.value == Neutralise(Exposure(k * tqqqQuantity, dA), dB);
    assert h.value == Neutralise(Exposure(tqqqQuantity, dA), dB);
    assert Exposure(k * tqqqQuantity, dA) == k * Exposure(tqqqQuantity, dA);
    NeutraliseLinear(k, Exposure(tqqqQuantity, dA), dB);
  }

  /** A short position in leveraged calls hedged with reference calls buys
      (never sells) the reference calls, and buys a positive quantity as soon
      as the leveraged call has a positive delta. */
  lemma ShortCallsHedgedByBuyingCalls(m: MathLib, tqqqPrice: real, tqqqStrike: real, tqqqQuantity: real,
                                      qqqPrice: real, qqqStrike: real, T: real, r: real, sigma: real)
    requires Sound(m) && tqqqQuantity < 0.0
    requires HedgeQuantity(m, tqqqPrice, tqqqStrike, tqqqQuantity, "call", qqqPrice, qqqStrike, "call", T, r, sigma).Ok?
    ensures HedgeQuantity(m, tqqqPrice, tqqqStrike, tqqqQuantity, "call", qqqPrice, qqqStrike, "call", T, r, sigma).value >= 0.0
    ensures CallDelta(m, tqqqPrice, tqqqStrike, T, r, sigma).value > 0.0
            && CallDelta(m, qqqPrice, qqqStrike, T, r, sigma).value >= DeltaGuard
            ==> HedgeQuantity(m, tqqqPrice, tqqqStrike, tqqqQuantity, "call", qqqPrice, qqqStrike, "call", T, r, sigma).value > 0.0
  {
    assert IsCall("call") by {
      assert Lower("call") == "call";
    }
    var dA := CallDelta(m, tqqqPrice, tqqqStrike, T, r, sigma).value;
    var dB := CallDelta(m, qqqPrice, qqqStrike, T, r, sigma).value;
    assert Exposure(tqqqQuantity, dA) <= 0.0 && (dA > 0.0 ==> Exposure(tqqqQuantity, dA) < 0.0) by {
      assert 0.0 <= dA;
    }
    NeutraliseSign(Exposure(tqqqQuantity, dA), dB);
  }

  /** A short exposure offset by a reference leg of non-negative delta calls
      for a long reference position; strictly long once both are non-zero. */
  lemma NeutraliseSign(exposure: real, referenceDelta: real)
    requires referenceDelta >= 0.0
    ensures exposure <= 0.0 ==> Neutralise(exposure, referenceDelta) >= 0.0
    ensures exposure < 0.0 && referenceDelta >= DeltaGuard ==> Neutralise(exposure, referenceDelta) > 0.0
  {
    if referenceDelta >= DeltaGuard && exposure <= 0.0 {
      assert -exposure >= 0.0;
      assert -exposure / referenceDelta >= 0.0;
      if exposure < 0.0 {
        assert -exposure / referenceDelta > 0.0;
      }
    }
  }
}
