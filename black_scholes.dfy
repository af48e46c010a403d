/** The Black-Scholes pricing kernel: European call and put prices from spot
    `S`, strike `K`, time to expiry `T` in years, risk-free rate `r` and
    volatility `sigma`. At or past expiry (`T <= 0`) the price is the intrinsic
    value and no input is checked; before expiry the closed form is evaluated,
    and its division and logarithm raise on the inputs where Python's would. */
module BlackScholes {
  import opened Common
  import opened Analytic

  /** The exceptions the closed form can raise. */
  datatype PricingError =
    | ZeroDivisionError   // `S / K` with `K == 0`, or a zero `sigma * sqrt(T)` denominator
    | MathDomainError     // `math.log` of a ratio `S / K <= 0` (Python's ValueError)

  /** The inputs on which the closed form evaluates without raising. */
  predicate InDomain(m: MathLib, S: real, K: real, T: real, sigma: real)
  {
    K != 0.0 && S / K > 0.0 && sigma * m.sqrt(T) != 0.0
  }

  /** The two auxiliary terms shared by the call and the put:
      `d1 = (ln(S/K) + (r + sigma^2/2) T) / (sigma sqrt T)` and `d2 = d1 - sigma sqrt T`. */
  function D1D2(m: MathLib, S: real, K: real, T: real, r: real, sigma: real): (d: Result<(real, real), PricingError>)
    ensures d.Ok? <==> InDomain(m, S, K, T, sigma)
    ensures d.Ok? ==> d.value.1 == d.value.0 - sigma * m.sqrt(T)
    ensures K == 0.0 ==> d == Err(ZeroDivisionError)
    ensures K != 0.0 && S / K <= 0.0 ==> d == Err(MathDomainError)
  {
    if K == 0.0 then Err(ZeroDivisionError)
    else if S / K <= 0.0 then Err(MathDomainError)
    else if sigma * m.sqrt(T) == 0.0 then Err(ZeroDivisionError)
    else
      var d1 := (m.log(S / K) + (r + 0.5 * sigma * sigma) * T) / (sigma * m.sqrt(T));
      Ok((d1, d1 - sigma * m.sqrt(T)))
  }

  /** The closed-form call value before the floor at zero. */
  function CallValue(m: MathLib, S: real, K: real, T: real, r: real, d1: real, d2: real): real
  {
    S * m.cdf(d1) - K * m.exp(-r * T) * m.cdf(d2)
  }

  /** The closed-form put value before the floor at zero. */
  function PutValue(m: MathLib, S: real, K: real, T: real, r: real, d1: real, d2: real): real
  {
    K * m.exp(-r * T) * m.cdf(-d2) - S * m.cdf(-d1)
  }

  /** `calculate_call_price`. */
  function CallPrice(m: MathLib, S: real, K: real, T: real, r: real, sigma: real): (p: Result<real, PricingError>)
    ensures T <= 0.0 ==> p == Ok(Max(S - K, 0.0))
    ensures T > 0.0 ==> (p.Ok? <==> InDomain(m, S, K, T, sigma))
    ensures p.Ok? ==> p.value >= 0.0
  {
    if T <= 0.0 then Ok(Max(S - K, 0.0))
    else
      match D1D2(m, S, K, T, r, sigma)
      case Err(e) => Err(e)
      case Ok((d1, d2)) => Ok(Max(CallValue(m, S, K, T, r, d1, d2), 0.0))
  }

  /** `calculate_put_price`. */
  function PutPrice(m: MathLib, S: real, K: real, T: real, r: real, sigma: real): (p: Result<real, PricingError>)
    ensures T <= 0.0 ==> p == Ok(Max(K - S, 0.0))
    ensures T > 0.0 ==> (p.Ok? <==> InDomain(m, S, K, T, sigma))
    ensures p.Ok? ==> p.value >= 0.0
  {
    if T <= 0.0 then Ok(Max(K - S, 0.0))
    else
      match D1D2(m, S, K, T, r, sigma)
      case Err(e) => Err(e)
      case Ok((d1, d2)) => Ok(Max(PutValue(m, S, K, T, r, d1, d2), 0.0))
  }

  /** A negative spot with a positive strike makes the log raise before expiry. */
  lemma NegativeSpotRaises(m: MathLib, S: real, K: real, T: real, r: real, sigma: real)
    requires S < 0.0 < K && T > 0.0
    ensures CallPrice(m, S, K, T, r, sigma) == Err(MathDomainError)
    ensures PutPrice(m, S, K, T, r, sigma) == Err(MathDomainError)
  {
    assert S / K < 0.0;
  }

  /** Call and put raise on exactly the same inputs, and with the same error. */
  lemma SameFailures(m: MathLib, S: real, K: real, T: real, r: real, sigma: real)
    ensures CallPrice(m, S, K, T, r, sigma).Err? <==> PutPrice(m, S, K, T, r, sigma).Err?
    ensures CallPrice(m, S, K, T, r, sigma).Err? ==>
              CallPrice(m, S, K, T, r, sigma).error == PutPrice(m, S, K, T, r, sigma).error
  {
  }

  /** A positive spot over a non-zero strike of the same sign is a valid log argument. */
  lemma RatioPositive(S: real, K: real)
    requires S * K > 0.0
    ensures K != 0.0 && S / K > 0.0
  {
    assert K != 0.0;
    assert S / K == (S * K) / (K * K);
  }

  /** With spot and strike of the same sign and a positive volatility, the closed
      form is defined. */
  lemma DefinedOnSameSignInputs(m: MathLib, S: real, K: real, T: real, sigma: real)
    requires Sound(m)
    requires S * K > 0.0 && T > 0.0 && sigma > 0.0
    ensures InDomain(m, S, K, T, sigma)
  {
    RatioPositive(S, K);
    assert m.sqrt(T) > 0.0;
    assert sigma * m.sqrt(T) > 0.0;
  }

  /** With a positive strike and volatility, the closed form is defined at every positive spot. */
  lemma DefinedOnPositiveSpots(m: MathLib, K: real, T: real, sigma: real)
    requires Sound(m) && K > 0.0 && T > 0.0 && sigma > 0.0
    ensures forall S :: S > 0.0 ==> InDomain(m, S, K, T, sigma)
  {
    forall S | S > 0.0
      ensures InDomain(m, S, K, T, sigma)
    {
      assert S * K > 0.0;
      DefinedOnSameSignInputs(m, S, K, T, sigma);
    }
  }

  /** A call is never worth more than the stock. */
  lemma CallAtMostSpot(m: MathLib, S: real, K: real, T: real, r: real, sigma: real)
    requires Sound(m) && S > 0.0 && K > 0.0
    requires CallPrice(m, S, K, T, r, sigma).Ok?
    ensures CallPrice(m, S, K, T, r, sigma).value <= S
  {
    if T > 0.0 {
      var d := D1D2(m, S, K, T, r, sigma).value;
      var e := m.exp(-r * T);
      assert e > 0.0;
      FlooredDifferenceAtMost(S, K * e, m.cdf(d.0), m.cdf(d.1));
    }
  }

  /** Before expiry a put is never worth more than the discounted strike; at expiry,
      never more than the strike. */
  lemma PutAtMostStrike(m: MathLib, S: real, K: real, T: real, r: real, sigma: real)
    requires Sound(m) && S > 0.0 && K > 0.0
    requires PutPrice(m, S, K, T, r, sigma).Ok?
    ensures T <= 0.0 ==> PutPrice(m, S, K, T, r, sigma).value <= K
    ensures T > 0.0 ==> PutPrice(m, S, K, T, r, sigma).value <= K * m.exp(-r * T)
  {
    if T > 0.0 {
      var d := D1D2(m, S, K, T, r, sigma).value;
      var e := m.exp(-r * T);
      assert e > 0.0;
      FlooredDifferenceAtMost(K * e, S, m.cdf(-d.1), m.cdf(-d.0));
    }
  }

  /** Put-call parity of the closed forms: before the floor at zero,
      `C - P == S - K e^{-rT}` exactly, by the symmetry of the normal distribution. */
  lemma ClosedFormParity(m: MathLib, S: real, K: real, T: real, r: real, d1: real, d2: real)
    requires Sound(m)
    ensures CallValue(m, S, K, T, r, d1, d2) - PutValue(m, S, K, T, r, d1, d2) == S - K * m.exp(-r * T)
  {
    assert m.cdf(d1) + m.cdf(-d1) == 1.0;
    assert m.cdf(d2) + m.cdf(-d2) == 1.0;
    ParityAlgebra(S, K * m.exp(-r * T), m.cdf(d1), m.cdf(-d1), m.cdf(d2), m.cdf(-d2));
  }

  /** Put-call parity of the prices: it holds whenever neither floor at zero is active. */
  lemma PutCallParity(m: MathLib, S: real, K: real, T: real, r: real, sigma: real)
    requires Sound(m) && T > 0.0 && InDomain(m, S, K, T, sigma)
    requires CallPrice(m, S, K, T, r, sigma).value > 0.0 && PutPrice(m, S, K, T, r, sigma).value > 0.0
    ensures CallPrice(m, S, K, T, r, sigma).value - PutPrice(m, S, K, T, r, sigma).value == S - K * m.exp(-r * T)
  {
    var d := D1D2(m, S, K, T, r, sigma).value;
    ClosedFormParity(m, S, K, T, r, d.0, d.1);
  }

  /** `max(a x - b y, 0) <= a` when `x` is a probability and `b y` is not negative. */
  lemma FlooredDifferenceAtMost(a: real, b: real, x: real, y: real)
    requires a > 0.0 && b >= 0.0 && 0.0 <= x <= 1.0 && y >= 0.0
    ensures Max(a * x - b * y, 0.0) <= a
  {
    assert a * x <= a * 1.0;
    assert b * y >= 0.0;
  }

  lemma ParityAlgebra(S: real, D: real, a: real, b: real, c: real, e: real)
    requires a + b == 1.0 && c + e == 1.0
    ensures S * a - D * c - (D * e - S * b) == S - D
  {
    assert S * a + S * b == S * (a + b);
    assert D * c + D * e == D * (c + e);
  }
}
