/** Cosine-law (diffuse) sampling of an emission direction, the block the source
    repeats at src/main.rs:47-56, 77-86, 113-122 and 138-147. */
module Emission {
  import opened Numerics

  /** The cap on the sampled cosine: it keeps every emission off the exact normal,
      so the velocity always has a non-zero part across the axis. */
  const MaxCos: real := 0.99999

  /** An emission direction relative to the emitting surface: `cosTheta` along the
      surface normal, `tangent1 = cos(phi) sin(theta)` and
      `tangent2 = sin(phi) sin(theta)` across it. */
  datatype Direction = Direction(cosTheta: real, tangent1: real, tangent2: real)

  /** The direction is a unit vector whose normal part is a clamped cosine, so
      its part across the normal is bounded away from zero. */
  predicate Diffuse(d: Direction) {
    0.0 < d.cosTheta <= MaxCos
    && Sq(d.tangent1) + Sq(d.tangent2) + Sq(d.cosTheta) == 1.0
    && Sq(d.tangent1) + Sq(d.tangent2) >= 1.0 - Sq(MaxCos) > 0.0
  }

  /** sqrt(1 - u) capped at `MaxCos`, as the library computes it. */
  ghost function ClampedRoot(m: Libm, u: real): real {
    var c := m.sqrt(1.0 - u);
    if c > MaxCos then MaxCos else c
  }

  /** The direction the source builds from the draws u1 (polar angle) and u2
      (azimuth): cos(theta) = `ClampedRoot(m, u1)`, phi = 2 pi u2 and
      sin(theta) = sqrt(1 - cos(theta)^2). */
  ghost function CosineDraw(m: Libm, u1: real, u2: real): Direction {
    var c := ClampedRoot(m, u1);
    var s := m.sqrt(1.0 - Sq(c));
    Direction(c, m.cos(2.0 * Pi * u2) * s, m.sin(2.0 * Pi * u2) * s)
  }

  /** cos(theta) = sqrt(1 - u), capped at `MaxCos`. Its square is 1 - u unless
      the cap applied, and the cap only ever lowers it. */
  method ClampedCosine(m: Libm, u: real) returns (c: real)
    requires Lawful(m) && 0.0 <= u < 1.0
    ensures 0.0 < c <= MaxCos
    ensures Sq(c) <= 1.0 - u
    ensures c < MaxCos ==> Sq(c) == 1.0 - u
    ensures c == ClampedRoot(m, u)
  {
    c := Sqrt(m, 1.0 - u);
    if c > MaxCos {
      SqMonotone(MaxCos, c);
      c := MaxCos;
    }
  }

  /** A diffuse emission from the draws u1 (polar angle) and u2 (azimuth). */
  method CosineLaw(m: Libm, u1: real, u2: real) returns (d: Direction)
    requires Lawful(m) && 0.0 <= u1 < 1.0
    ensures Diffuse(d)
    ensures Sq(d.cosTheta) <= 1.0 - u1
    ensures d.cosTheta < MaxCos ==> Sq(d.cosTheta) == 1.0 - u1
    ensures d == CosineDraw(m, u1, u2)
  {
    var c := ClampedCosine(m, u1);
    var phi := 2.0 * Pi * u2;
    SqMonotone(c, MaxCos);
    var s := Sqrt(m, 1.0 - Sq(c));
    d := Direction(c, m.cos(phi) * s, m.sin(phi) * s);
    SqProduct(m.cos(phi), s);
    SqProduct(m.sin(phi), s);
    assert Sq(d.tangent1) + Sq(d.tangent2) == (Sq(m.cos(phi)) + Sq(m.sin(phi))) * Sq(s);
  }
}
