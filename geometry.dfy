/** The run's input record and the dimensionless geometry derived from it
    (src/main.rs:6-13 and 29-33). */
module Geometry {

  /** Input parameters: two stage thicknesses, the two aperture radii, the gap
      between the grids (all in one length unit) and the number of particles. */
  datatype ClausingParams = ClausingParams(
    thickScreen: real,
    thickAccel: real,
    rScreen: real,
    rAccel: real,
    gridSpace: real,
    npart: nat)

  /** The physical inputs the routine is meant for: a positive accel radius
      (it is the unit of length) and non-negative lengths. */
  predicate ValidParams(p: ClausingParams) {
    p.rAccel > 0.0 && p.rScreen >= 0.0 && p.thickScreen >= 0.0
    && p.thickAccel >= 0.0 && p.gridSpace >= 0.0
  }

  /** Lengths in units of the accel (top) radius: the top cylinder has radius 1,
      the bottom cylinder radius `rBottom` and spans [0, lenBottom]; the top one
      spans [lenBottom, length]. */
  datatype Geometry = Geometry(rBottom: real, lenBottom: real, lenTop: real, length: real)

  /** The geometry a tracer can work in: a bottom radius and stage lengths that
      are not negative. */
  predicate WellFormed(g: Geometry) {
    g.rBottom >= 0.0 && 0.0 <= g.lenBottom <= g.length && g.lenTop >= 0.0
  }

  /** Divide every length by the accel radius. Scaling back by that radius gives
      the physical dimensions, and the total length is the sum of both stages. */
  function Normalize(p: ClausingParams): (g: Geometry)
    requires p.rAccel != 0.0
    ensures g.rBottom * p.rAccel == p.rScreen
    ensures g.lenBottom * p.rAccel == p.thickScreen + p.gridSpace
    ensures g.lenTop * p.rAccel == p.thickAccel
    ensures g.length == g.lenBottom + g.lenTop
  {
    var rBottom := p.rScreen / p.rAccel;
    var lenBottom := (p.thickScreen + p.gridSpace) / p.rAccel;
    var lenTop := p.thickAccel / p.rAccel;
    Geometry(rBottom, lenBottom, lenTop, lenTop + lenBottom)
  }

  /** Valid physical inputs give a well-formed dimensionless geometry. */
  lemma NormalizeWellFormed(p: ClausingParams)
    requires ValidParams(p)
    ensures WellFormed(Normalize(p))
  {
    var g := Normalize(p);
    QuotientNonNegative(p.rScreen, p.rAccel);
    QuotientNonNegative(p.thickScreen + p.gridSpace, p.rAccel);
    QuotientNonNegative(p.thickAccel, p.rAccel);
  }

  lemma QuotientNonNegative(a: real, b: real)
    requires a >= 0.0 && b > 0.0
    ensures a / b >= 0.0
  {
  }

  /** The same aperture measured in another unit: every length times k. */
  function Rescale(p: ClausingParams, k: real): ClausingParams {
    p.(thickScreen := k * p.thickScreen, thickAccel := k * p.thickAccel,
       rScreen := k * p.rScreen, rAccel := k * p.rAccel, gridSpace := k * p.gridSpace)
  }

  /** The geometry is dimensionless: changing the unit of length does not change it. */
  lemma NormalizeUnitFree(p: ClausingParams, k: real)
    requires p.rAccel != 0.0 && k != 0.0
    ensures Normalize(Rescale(p, k)) == Normalize(p)
  {
    var q := Rescale(p, k);
    assert q.rAccel != 0.0 by { assert q.rAccel == k * p.rAccel; }
    var g, h := Normalize(p), Normalize(q);
    Cancel(p.rScreen, p.rAccel, k);
    Cancel(p.thickScreen + p.gridSpace, p.rAccel, k);
    assert q.thickScreen + q.gridSpace == k * (p.thickScreen + p.gridSpace);
    Cancel(p.thickAccel, p.rAccel, k);
  }

  lemma Cancel(a: real, b: real, k: real)
    requires b != 0.0 && k != 0.0
    ensures (k * a) / (k * b) == a / b
  {
    var x := a / b;
    assert x * b == a;
    assert (k * b) * x == k * a;
  }
}
