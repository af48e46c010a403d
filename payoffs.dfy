/** The pre-expiry branch of every strategy's `calculate_payoff` walks the spot
    prices in order, prices each one, and appends the result to a list; the
    first pricing error raised ends the walk. `MapSpots` says what that walk
    computes and `CollectPayoffs` is the walk itself. */
module Payoffs {
  import opened Common

  /** `time_to_exp is None or time_to_exp <= 0`: the payoff is the one at expiry. */
  predicate AtExpiry(timeToExp: Option<real>)
  {
    timeToExp.None? || timeToExp.value <= 0.0
  }

  /** The remaining time a payoff is valued at; none given means expiry. */
  function Remaining(timeToExp: Option<real>): (t: real)
    ensures AtExpiry(timeToExp) <==> t <= 0.0
  {
    if timeToExp.None? then 0.0 else timeToExp.value
  }

  /** The payoffs of `spots` in order, or the error of the first spot that fails. */
  function MapSpots<E(==)>(f: real -> Result<real, E>, spots: seq<real>): (r: Result<seq<real>, E>)
    ensures r.Ok? <==> forall i :: 0 <= i < |spots| ==> f(spots[i]).Ok?
    ensures r.Ok? ==> |r.value| == |spots| && forall i :: 0 <= i < |spots| ==> f(spots[i]) == Ok(r.value[i])
    ensures r.Err? ==> exists i :: 0 <= i < |spots| && f(spots[i]) == Err(r.error)
                                    && forall j :: 0 <= j < i ==> f(spots[j]).Ok?
    decreases |spots|
  {
    if spots == [] then Ok([])
    else
      var init := spots[..|spots| - 1];
      assert forall i :: 0 <= i < |init| ==> spots[i] == init[i];
      match MapSpots(f, init)
      case Err(e) => Err(e)
      case Ok(done) =>
        match f(spots[|spots| - 1])
        case Err(e) => Err(e)
        case Ok(v) => Ok(done + [v])
  }

  /** The loop `for S in stock_prices: ... payoffs.append(...)`. */
  method CollectPayoffs<E(==)>(f: real -> Result<real, E>, spots: seq<real>) returns (r: Result<seq<real>, E>)
    ensures r == MapSpots(f, spots)
  {
    var payoffs: seq<real> := [];
    var i := 0;
    while i < |spots|
      invariant 0 <= i <= |spots|
      invariant MapSpots(f, spots[..i]) == Ok(payoffs)
    {
      var v := f(spots[i]);
      assert spots[..i + 1][..i] == spots[..i];
      if v.Err? {
        return Err(v.error);
      }
      payoffs := payoffs + [v.value];
      i := i + 1;
    }
    assert spots[..i] == spots;
    return Ok(payoffs);
  }

  /** Every payoff negated; an error is kept as it is. */
  function Negated<E(==)>(r: Result<seq<real>, E>): (n: Result<seq<real>, E>)
    ensures n.Ok? <==> r.Ok?
    ensures n.Ok? ==> |n.value| == |r.value| && forall i :: 0 <= i < |r.value| ==> n.value[i] == -r.value[i]
    ensures n.Err? ==> n.error == r.error
  {
    match r
    case Err(e) => Err(e)
    case Ok(ps) => Ok(seq(|ps|, i requires 0 <= i < |ps| => -ps[i]))
  }

  /** Per-spot negation carries over to the whole walk, errors included. */
  lemma {:induction false} MapSpotsNegated<E>(f: real -> Result<real, E>, g: real -> Result<real, E>, spots: seq<real>)
    requires forall x :: g(x) == (match f(x) case Err(e) => Err(e) case Ok(v) => Ok(-v))
    ensures MapSpots(g, spots) == Negated(MapSpots(f, spots))
    decreases |spots|
  {
    if spots != [] {
      var init := spots[..|spots| - 1];
      var x := spots[|spots| - 1];
      MapSpotsNegated(f, g, init);
      assert g(x) == (match f(x) case Err(e) => Err(e) case Ok(v) => Ok(-v));
      match MapSpots(f, init)
      case Err(e) =>
        assert MapSpots(g, init) == Err(e);
      case Ok(done) =>
        assert MapSpots(g, init) == Negated(Ok(done));
        match f(x)
        case Err(e) =>
        case Ok(v) =>
          assert MapSpots(f, spots) == Ok(done + [v]);
          assert MapSpots(g, spots) == Ok(Negated<E>(Ok(done)).value + [-v]);
          NegatedAppend<E>(done, v);
    }
  }

  /** Negating a walk extended by one payoff extends the negated walk by its negation. */
  lemma NegatedAppend<E>(ps: seq<real>, v: real)
    ensures Negated<E>(Ok(ps + [v])) == Ok(Negated<E>(Ok(ps)).value + [-v])
  {
    var a, b := Negated<E>(Ok(ps + [v])).value, Negated<E>(Ok(ps)).value + [-v];
    assert |a| == |b| && forall i :: 0 <= i < |a| ==> a[i] == b[i];
    assert a == b;
  }

}
