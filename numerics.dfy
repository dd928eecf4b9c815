/** Exact-arithmetic stand-ins for the floating-point library calls the tracer makes,
    and the stream of uniform draws that replaces its random number generator. */
module Numerics {

  /** The identity on reals. */
  function Same(x: real): real {
    x
  }

  /** The square x^2 (the source's `x.powi(2)`). It is written as x times
      `Same(x)` so that the solver keeps the two factors apart; the lemmas below
      give the facts about squares the model uses. */
  function Sq(x: real): real {
    x * Same(x)
  }

  /** The library functions the tracer calls on `f64` values (`sqrt`, `cos`, `sin`),
      supplied by the caller as real-valued functions. */
  datatype Libm = Libm(sqrt: real -> real, cos: real -> real, sin: real -> real)

  /** The laws the tracer relies on: `sqrt` gives the non-negative root of a
      non-negative number, and cos(a)^2 + sin(a)^2 = 1 for every angle. */
  ghost predicate Lawful(m: Libm) {
    (forall x :: 0.0 <= x ==> 0.0 <= m.sqrt(x) && Sq(m.sqrt(x)) == x)
    && (forall a :: Sq(m.cos(a)) + Sq(m.sin(a)) == 1.0)
  }

  /** A stream of draws in [0, 1): draw number i is `rng(i)`. Only the range of
      the draws is stated, not their distribution. */
  ghost predicate InUnitInterval(rng: nat -> real) {
    forall i :: 0.0 <= rng(i) < 1.0
  }

  /** `std::f64::consts::PI` as written in decimal. */
  const Pi: real := 3.141592653589793

  /** The square root, callable only on a non-negative argument: every call site
      therefore carries a proof that the `f64` code never takes the root of a
      negative number (which would give NaN). */
  method Sqrt(m: Libm, x: real) returns (y: real)
    requires Lawful(m) && 0.0 <= x
    ensures 0.0 <= y && Sq(y) == x
    ensures y == m.sqrt(x)
  {
    y := m.sqrt(x);
  }

  /** Squares are not negative. */
  lemma SqNonNegative(x: real)
    ensures Sq(x) >= 0.0
  {
    if x < 0.0 {
      assert Same(x) < 0.0;
    } else {
      assert Same(x) >= 0.0;
    }
  }

  /** A non-zero number has a positive square. */
  lemma SqPositive(x: real)
    requires x != 0.0
    ensures Sq(x) > 0.0
  {
    if x < 0.0 {
      assert Same(x) < 0.0;
    } else {
      assert Same(x) > 0.0;
    }
  }

  /** A square is not negative, and positive exactly when its root is not zero. */
  lemma SqSign(x: real)
    ensures Sq(x) >= 0.0
    ensures Sq(x) > 0.0 <==> x != 0.0
  {
    SqNonNegative(x);
    if x != 0.0 {
      SqPositive(x);
    }
  }

  /** Squaring is monotone on the non-negative reals, strictly where its
      arguments differ. */
  lemma SqMonotone(x: real, y: real)
    requires 0.0 <= x <= y
    ensures Sq(x) <= Sq(y)
    ensures x < y ==> Sq(x) < Sq(y)
  {
    assert Sq(y) - Sq(x) == (y - x) * (y + x);
    if x < y {
      ProductPositive(y - x, y + x);
    }
  }

  /** The product of two non-negative numbers is not negative. */
  lemma ProductNonNegative(a: real, b: real)
    requires a >= 0.0 && b >= 0.0
    ensures a * b >= 0.0
  {
  }

  /** Multiplying by a non-negative factor keeps an inequality. */
  lemma ScaleMonotone(k: real, x: real, y: real)
    requires k >= 0.0 && x <= y
    ensures k * x <= k * y
  {
    ProductNonNegative(k, y - x);
  }

  /** A positive factor can be cancelled from both sides of an inequality. */
  lemma CancelPositive(k: real, x: real, y: real)
    requires k > 0.0 && k * x <= k * y
    ensures x <= y
  {
    if x > y {
      ProductPositive(k, x - y);
    }
  }

  /** The product of two positive numbers is positive. */
  lemma ProductPositive(a: real, b: real)
    requires a > 0.0 && b > 0.0
    ensures a * b > 0.0
  {
  }

  /** Comparing squares: a value whose square is at most y^2 is at most y. */
  lemma SqBound(x: real, y: real)
    requires 0.0 <= y && Sq(x) <= Sq(y)
    ensures x <= y
  {
    if x > y {
      SqMonotone(y, x);
    }
  }

  /** The square of a product is the product of the squares. */
  lemma SqProduct(a: real, b: real)
    ensures Sq(a * b) == Sq(a) * Sq(b)
  {
  }
}
