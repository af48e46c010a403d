/** Vertical spreads (catalog codes S1-S24 other than the iron condors): a
    long and a short option of the same kind at two strikes 4% apart, centred
    on the base price. Which leg sits above the other, whether the legs are
    calls or puts, and how the net premium is signed are all read off
    substrings of the strategy's name. */
module Spread {
  import opened Common
  import opened Text
  import opened Models
  import opened Analytic
  import opened BlackScholes
  import opened Base
  import opened Payoffs

  /** The state `SpreadStrategy.__init__` sets up. */
  datatype SpreadStrategy = SpreadStrategy(
    config: StrategyConfig,
    basePrice: real,
    riskFreeRate: real,
    volatility: real,
    timeToExpiration: real,
    longStrike: real,
    shortStrike: real)

  /** The name selects the bear layout, long leg above the short one; the
      substrings are checked in the order "Bull Call", "Bear Call", "Bull Put", "Bear Put". */
  predicate BearLayout(name: string)
  {
    !Contains(name, "Bull Call")
    && (Contains(name, "Bear Call") || (!Contains(name, "Bull Put") && Contains(name, "Bear Put")))
  }

  /** `_get_spread_strikes`: the pair (long strike, short strike). */
  function SpreadStrikes(name: string, basePrice: real): (k: (real, real))
    // the two strikes are centred on the base price ...
    ensures k.0 + k.1 == 2.0 * basePrice
    // ... 4% of it apart ...
    ensures basePrice >= 0.0 ==> Abs(k.0 - k.1) == 0.04 * basePrice
    // ... and the long one is the higher exactly in the bear layout
    ensures basePrice > 0.0 ==> (k.0 > k.1 <==> BearLayout(name))
  {
    if Contains(name, "Bull Call") then (basePrice * 0.98, basePrice * 1.02)
    else if Contains(name, "Bear Call") then (basePrice * 1.02, basePrice * 0.98)
    else if Contains(name, "Bull Put") then (basePrice * 0.98, basePrice * 1.02)
    else if Contains(name, "Bear Put") then (basePrice * 1.02, basePrice * 0.98)
    else (basePrice * 0.98, basePrice * 1.02)
  }

  /** The constructor `SpreadStrategy.__init__`. */
  function NewSpread(config: StrategyConfig, basePrice: real): (s: SpreadStrategy)
    ensures s.config == config && s.basePrice == basePrice
    ensures s.riskFreeRate == 0.05 && s.volatility == 0.25
    ensures s.timeToExpiration == TimeToExpiration(config.timeFrame)
    ensures (s.longStrike, s.shortStrike) == SpreadStrikes(config.name, basePrice)
  {
    var k := SpreadStrikes(config.name, basePrice);
    SpreadStrategy(config, basePrice, RiskFreeRate, Volatility, TimeToExpiration(config.timeFrame), k.0, k.1)
  }

  /** `s` is what the constructor makes of its own config and base price. */
  predicate IsSetUp(s: SpreadStrategy)
  {
    s == NewSpread(s.config, s.basePrice)
  }

  /** Both legs are calls when the name contains "Call", puts otherwise. */
  predicate UsesCalls(name: string)
  {
    Contains(name, "Call")
  }

  /** `get_initial_cost` reports a net debit (premium paid) for these names and
      a net credit (premium received) for every other. */
  predicate IsDebit(name: string)
  {
    Contains(name, "Bull Call") || Contains(name, "Bear Put")
  }

  /** `calculate_payoff` subtracts the initial cost from the legs' value for
      these names and adds it for every other. */
  predicate DebitShaped(name: string)
  {
    Contains(name, "Call") == Contains(name, "Bull")
  }

  /** The premium of one leg at inception: a call or a put on the base price. */
  function LegPremium(m: MathLib, s: SpreadStrategy, K: real): (p: Result<real, PricingError>)
    ensures p.Ok? ==> p.value >= 0.0
  {
    if UsesCalls(s.config.name) then CallPrice(m, s.basePrice, K, s.timeToExpiration, s.riskFreeRate, s.volatility)
    else PutPrice(m, s.basePrice, K, s.timeToExpiration, s.riskFreeRate, s.volatility)
  }

  /** What the position costs to enter, counted as paid: the long leg's premium
      less the short leg's. The long leg is priced first. */
  function NetPremiumPaid(m: MathLib, s: SpreadStrategy): (n: Result<real, PricingError>)
    ensures n.Ok? <==> LegPremium(m, s, s.longStrike).Ok? && LegPremium(m, s, s.shortStrike).Ok?
    ensures n.Err? && LegPremium(m, s, s.longStrike).Err? ==> n.error == LegPremium(m, s, s.longStrike).error
    ensures n.Err? && LegPremium(m, s, s.longStrike).Ok? ==> n.error == LegPremium(m, s, s.shortStrike).error
  {
    match LegPremium(m, s, s.longStrike)
    case Err(e) => Err(e)
    case Ok(longPremium) =>
      match LegPremium(m, s, s.shortStrike)
      case Err(e) => Err(e)
      case Ok(shortPremium) => Ok(longPremium - shortPremium)
  }

  /** A set-up spread prices both legs exactly when its base price is not zero;
      at a zero base price both strikes are zero and the first leg divides by zero. */
  lemma LegsPricedAtInception(m: MathLib, s: SpreadStrategy)
    requires IsSetUp(s)
    ensures s.basePrice == 0.0 ==> NetPremiumPaid(m, s) == Err(ZeroDivisionError)
    ensures Sound(m) && s.basePrice != 0.0 ==> NetPremiumPaid(m, s).Ok?
  {
    if Sound(m) && s.basePrice != 0.0 {
      assert s.longStrike * s.basePrice > 0.0 && s.shortStrike * s.basePrice > 0.0;
      DefinedOnSameSignInputs(m, s.basePrice, s.longStrike, s.timeToExpiration, s.volatility);
      DefinedOnSameSignInputs(m, s.basePrice, s.shortStrike, s.timeToExpiration, s.volatility);
    }
  }

  /** `get_initial_cost`: the net premium, as paid for a debit name and as
      received for a credit name. */
  function InitialCost(m: MathLib, s: SpreadStrategy): (c: Result<real, PricingError>)
    ensures c.Ok? <==> NetPremiumPaid(m, s).Ok?
    ensures c.Err? ==> c.error == NetPremiumPaid(m, s).error
    ensures c.Ok? && IsDebit(s.config.name) ==> c.value == NetPremiumPaid(m, s).value
    ensures c.Ok? && !IsDebit(s.config.name) ==> c.value == -NetPremiumPaid(m, s).value
  {
    var longPremium := LegPremium(m, s, s.longStrike);
    var shortPremium := LegPremium(m, s, s.shortStrike);
    if longPremium.Err? then Err(longPremium.error)
    else if shortPremium.Err? then Err(shortPremium.error)
    else if Contains(s.config.name, "Bull Call") || Contains(s.config.name, "Bear Put") then
      Ok(longPremium.value - shortPremium.value)
    else
      Ok(shortPremium.value - longPremium.value)
  }

  /** What the two legs are worth together at expiry at spot `S`: the long
      option's intrinsic value less the short one's. */
  function LegsValue(s: SpreadStrategy, S: real): (v: real)
    // never more, either way, than the distance between the strikes
    ensures Abs(v) <= Abs(s.longStrike - s.shortStrike)
    // owning the cheaper-struck call, or the dearer-struck put, never loses on the legs
    ensures UsesCalls(s.config.name) && s.longStrike <= s.shortStrike ==> v >= 0.0
    ensures !UsesCalls(s.config.name) && s.longStrike >= s.shortStrike ==> v >= 0.0
    // the other way round it never gains
    ensures UsesCalls(s.config.name) && s.longStrike >= s.shortStrike ==> v <= 0.0
    ensures !UsesCalls(s.config.name) && s.longStrike <= s.shortStrike ==> v <= 0.0
  {
    if UsesCalls(s.config.name) then Max(S - s.longStrike, 0.0) - Max(S - s.shortStrike, 0.0)
    else Max(s.longStrike - S, 0.0) - Max(s.shortStrike - S, 0.0)
  }

  /** `calculate_payoff`. The time to expiry it is given is not used: every
      spot is valued at its expiry payoff. */
  function Payoff(m: MathLib, s: SpreadStrategy, spots: seq<real>, timeToExp: Option<real>): (r: Result<seq<real>, PricingError>)
    ensures r.Ok? <==> InitialCost(m, s).Ok?
    ensures r.Err? ==> r.error == InitialCost(m, s).error
    ensures r.Ok? ==> |r.value| == |spots|
    // the legs' value, with the initial cost counted as paid in the debit-shaped
    // branches and as received in the others
    ensures r.Ok? && DebitShaped(s.config.name) ==>
              forall i :: 0 <= i < |spots| ==> r.value[i] == LegsValue(s, spots[i]) - InitialCost(m, s).value
    ensures r.Ok? && !DebitShaped(s.config.name) ==>
              forall i :: 0 <= i < |spots| ==> r.value[i] == LegsValue(s, spots[i]) + InitialCost(m, s).value
  {
    var name := s.config.name;
    match InitialCost(m, s)
    case Err(e) => Err(e)
    case Ok(cost) =>
      Ok(seq(|spots|, i requires 0 <= i < |spots| =>
        var S := spots[i];
        if Contains(name, "Call") then
          var longPayoff := Max(S - s.longStrike, 0.0);
          var shortPayoff := Max(S - s.shortStrike, 0.0);
          if Contains(name, "Bull") then longPayoff - shortPayoff - cost
          else cost - (shortPayoff - longPayoff)
        else
          var longPayoff := Max(s.longStrike - S, 0.0);
          var shortPayoff := Max(s.shortStrike - S, 0.0);
          if Contains(name, "Bull") then cost - (shortPayoff - longPayoff)
          else longPayoff - shortPayoff - cost))
  }

  /** The payoff is the same whatever time to expiry is asked for. */
  lemma PayoffIgnoresTime(m: MathLib, s: SpreadStrategy, spots: seq<real>, t1: Option<real>, t2: Option<real>)
    ensures Payoff(m, s, spots, t1) == Payoff(m, s, spots, t2)
  {
  }

  /** When the name's payoff branch and its cost branch agree, the payoff is the
      profit and loss a trader books: the legs' value less the net premium paid. */
  lemma PremiumCountedOnce(m: MathLib, s: SpreadStrategy, spots: seq<real>, timeToExp: Option<real>)
    requires DebitShaped(s.config.name) == IsDebit(s.config.name)
    requires Payoff(m, s, spots, timeToExp).Ok?
    ensures forall i :: 0 <= i < |spots| ==>
      Payoff(m, s, spots, timeToExp).value[i] == LegsValue(s, spots[i]) - NetPremiumPaid(m, s).value
  {
  }

  /** When they disagree, the premium is counted with the wrong sign: the payoff
      is the legs' value plus the net premium paid. */
  lemma PremiumCountedReversed(m: MathLib, s: SpreadStrategy, spots: seq<real>, timeToExp: Option<real>)
    requires DebitShaped(s.config.name) != IsDebit(s.config.name)
    requires Payoff(m, s, spots, timeToExp).Ok?
    ensures forall i :: 0 <= i < |spots| ==>
      Payoff(m, s, spots, timeToExp).value[i] == LegsValue(s, spots[i]) + NetPremiumPaid(m, s).value
  {
  }

  /** The four two-word labels contain each of their words. */
  lemma LabelWords(name: string)
    ensures Contains(name, "Bull Call") ==> Contains(name, "Bull") && Contains(name, "Call")
    ensures Contains(name, "Bear Call") ==> Contains(name, "Bear") && Contains(name, "Call")
    ensures Contains(name, "Bull Put") ==> Contains(name, "Bull") && Contains(name, "Put")
    ensures Contains(name, "Bear Put") ==> Contains(name, "Bear") && Contains(name, "Put")
  {
    assert "Bull Call" == "Bull" + " Call" == "Bull " + "Call";
    assert "Bear Call" == "Bear" + " Call" == "Bear " + "Call";
    assert "Bull Put" == "Bull" + " Put" == "Bull " + "Put";
    assert "Bear Put" == "Bear" + " Put" == "Bear " + "Put";
    ContainsParts(name, "Bull", " Call");
    ContainsParts(name, "Bull ", "Call");
    ContainsParts(name, "Bear", " Call");
    ContainsParts(name, "Bear ", "Call");
    ContainsParts(name, "Bull", " Put");
    ContainsParts(name, "Bull ", "Put");
    ContainsParts(name, "Bear", " Put");
    ContainsParts(name, "Bear ", "Put");
  }

  /** The four named spreads agree on both branches. */
  lemma NamedSpreadsConsistent(name: string)
    requires Contains(name, "Bull Call") || Contains(name, "Bear Call") || Contains(name, "Bull Put") || Contains(name, "Bear Put")
    requires Contains(name, "Call") ==> !Contains(name, "Put")
    requires Contains(name, "Bull") ==> !Contains(name, "Bear")
    ensures DebitShaped(name) == IsDebit(name)
  {
    LabelWords(name);
  }

  /** A name with none of "Call", "Bull" or "Bear Put" (the catalog's calendar,
      ratio, back-ratio and butterfly spreads) holds put legs, long one below
      the short one, and never pays back its initial cost at any spot. */
  lemma DefaultSpreadNeverRecoversCost(m: MathLib, s: SpreadStrategy, spots: seq<real>, timeToExp: Option<real>)
    requires IsSetUp(s) && s.basePrice > 0.0
    requires !Contains(s.config.name, "Call") && !Contains(s.config.name, "Bull") && !Contains(s.config.name, "Bear Put")
    requires Payoff(m, s, spots, timeToExp).Ok?
    ensures !IsDebit(s.config.name) && s.longStrike < s.shortStrike
    ensures forall i :: 0 <= i < |spots| ==> Payoff(m, s, spots, timeToExp).value[i] <= -InitialCost(m, s).value
  {
    LabelWords(s.config.name);
  }

  /** A bull call spread and a bear call spread on the same base price and time
      frame are mirror images: each pays the other's payoff negated. */
  lemma CallSpreadsMirror(m: MathLib, bull: SpreadStrategy, bear: SpreadStrategy, spots: seq<real>, timeToExp: Option<real>)
    requires Sound(m) && IsSetUp(bull) && IsSetUp(bear)
    requires bull.basePrice == bear.basePrice && bull.config.timeFrame == bear.config.timeFrame
    requires Contains(bull.config.name, "Bull Call")
    requires Contains(bear.config.name, "Bear Call") && !Contains(bear.config.name, "Bull") && !Contains(bear.config.name, "Bear Put")
    ensures Payoff(m, bear, spots, timeToExp) == Negated(Payoff(m, bull, spots, timeToExp))
  {
    LabelWords(bull.config.name);
    LabelWords(bear.config.name);
    MirroredLegs(m, bull, bear, spots, timeToExp);
  }

  /** A bull put spread and a bear put spread on the same base price and time
      frame are mirror images: each pays the other's payoff negated. */
  lemma PutSpreadsMirror(m: MathLib, bull: SpreadStrategy, bear: SpreadStrategy, spots: seq<real>, timeToExp: Option<real>)
    requires Sound(m) && IsSetUp(bull) && IsSetUp(bear)
    requires bull.basePrice == bear.basePrice && bull.config.timeFrame == bear.config.timeFrame
    requires Contains(bull.config.name, "Bull Put") && !Contains(bull.config.name, "Call") && !Contains(bull.config.name, "Bear Put")
    requires Contains(bear.config.name, "Bear Put") && !Contains(bear.config.name, "Call") && !Contains(bear.config.name, "Bull")
    ensures Payoff(m, bull, spots, timeToExp) == Negated(Payoff(m, bear, spots, timeToExp))
  {
    LabelWords(bull.config.name);
    LabelWords(bear.config.name);
    MirroredLegs(m, bear, bull, spots, timeToExp);
  }

  /** `CallSpreadsMirror` for two spreads freshly built on the same base price. */
  lemma NewCallSpreadsMirror(m: MathLib, bull: StrategyConfig, bear: StrategyConfig, basePrice: real, spots: seq<real>, timeToExp: Option<real>)
    requires Sound(m) && bull.timeFrame == bear.timeFrame
    requires Contains(bull.name, "Bull Call")
    requires Contains(bear.name, "Bear Call") && !Contains(bear.name, "Bull") && !Contains(bear.name, "Bear Put")
    ensures Payoff(m, NewSpread(bear, basePrice), spots, timeToExp) == Negated(Payoff(m, NewSpread(bull, basePrice), spots, timeToExp))
  {
    CallSpreadsMirror(m, NewSpread(bull, basePrice), NewSpread(bear, basePrice), spots, timeToExp);
  }

  /** `PutSpreadsMirror` for two spreads freshly built on the same base price. */
  lemma NewPutSpreadsMirror(m: MathLib, bull: StrategyConfig, bear: StrategyConfig, basePrice: real, spots: seq<real>, timeToExp: Option<real>)
    requires Sound(m) && bull.timeFrame == bear.timeFrame
    requires Contains(bull.name, "Bull Put") && !Contains(bull.name, "Call") && !Contains(bull.name, "Bear Put")
    requires Contains(bear.name, "Bear Put") && !Contains(bear.name, "Call") && !Contains(bear.name, "Bull")
    ensures Payoff(m, NewSpread(bull, basePrice), spots, timeToExp) == Negated(Payoff(m, NewSpread(bear, basePrice), spots, timeToExp))
  {
    PutSpreadsMirror(m, NewSpread(bull, basePrice), NewSpread(bear, basePrice), spots, timeToExp);
  }

  /** Two set-up spreads on the same legs with their strikes swapped, one
      debit-shaped and debit-priced, the other credit-shaped and credit-priced,
      pay opposite amounts. */
  lemma MirroredLegs(m: MathLib, a: SpreadStrategy, b: SpreadStrategy, spots: seq<real>, timeToExp: Option<real>)
    requires Sound(m) && IsSetUp(a) && IsSetUp(b)
    requires a.basePrice == b.basePrice && a.timeToExpiration == b.timeToExpiration
    requires a.longStrike == b.shortStrike && a.shortStrike == b.longStrike
    requires UsesCalls(a.config.name) == UsesCalls(b.config.name)
    requires DebitShaped(a.config.name) && IsDebit(a.config.name)
    requires !DebitShaped(b.config.name) && !IsDebit(b.config.name)
    ensures Payoff(m, b, spots, timeToExp) == Negated(Payoff(m, a, spots, timeToExp))
  {
    LegsPricedAtInception(m, a);
    LegsPricedAtInception(m, b);
    var pa, pb := Payoff(m, a, spots, timeToExp), Payoff(m, b, spots, timeToExp);
    if pa.Ok? {
      assert InitialCost(m, a).value == InitialCost(m, b).value;
      forall i | 0 <= i < |spots|
        ensures pb.value[i] == -pa.value[i]
      {
        assert LegsValue(b, spots[i]) == -LegsValue(a, spots[i]);
      }
      assert pb.value == Negated(pa).value;
    }
  }
}
