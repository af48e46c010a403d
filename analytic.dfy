/** The floating-point library routines the pricing code calls
    (`scipy.stats.norm.cdf`, `math.exp`, `math.log`, `math.sqrt`).
    They are not computed here: a `MathLib` value carries them as plain
    functions, and `Sound` lists the facts about them that the proofs use.
    A lemma that needs a fact about them says so with `requires Sound(m)`. */
module Analytic {

  datatype MathLib = MathLib(
    cdf: real -> real,   // the standard normal cumulative distribution
    exp: real -> real,
    log: real -> real,
    sqrt: real -> real)

  /** The properties of the real routines that the model relies on. */
  ghost predicate Sound(m: MathLib)
  {
    // a cumulative distribution takes values in [0, 1], is monotone, and the
    // normal one is symmetric: cdf(-x) == 1 - cdf(x)
    (forall x :: 0.0 <= m.cdf(x) <= 1.0)
    && (forall x, y :: x <= y ==> m.cdf(x) <= m.cdf(y))
    && (forall x, y :: x + y == 0.0 ==> m.cdf(x) + m.cdf(y) == 1.0)
    // exp is positive; log is monotone on the positive reals; sqrt is positive there
    && (forall x :: 0.0 < m.exp(x))
    && (forall x, y :: 0.0 < x <= y ==> m.log(x) <= m.log(y))
    && (forall x :: 0.0 < x ==> 0.0 < m.sqrt(x))
  }
}
