/** One particle's state and the surface events that change it: the launch from
    the base (src/main.rs:43-62) and the three tests of one iteration of the
    tracer (src/main.rs:72-168). */
module Tracer {
  import opened Numerics
  import opened Geometry
  import opened Emission
  import opened Trajectory

  /** The particle's mutable state in the source: the point (radius r0, height
      z0) it last left, its direction (vx, vy, vz), the radius rf it is flying
      towards, the flight time t and the height z at which the flight ends. */
  datatype Particle = Particle(r0: real, z0: real, vx: real, vy: real, vz: real, rf: real, t: real, z: real)

  /** The direction is a unit vector. */
  predicate Unit(p: Particle) {
    Sq(p.vx) + Sq(p.vy) + Sq(p.vz) == 1.0
  }

  /** The time-to-radius divisor vx^2 + vy^2 is not zero. */
  predicate Transverse(p: Particle) {
    Speed2(p.vx, p.vy) > 0.0
  }

  /** z is where a forward flight from z0 ends. */
  predicate OnRay(p: Particle) {
    p.t >= 0.0 && p.z == p.z0 + p.vz * p.t
  }

  /** The flight ends on the cylinder of radius rf, at the later of its two
      crossings (the root with +sqrt in the time-to-radius formula). */
  predicate Lands(p: Particle) {
    RadiusSq(p.r0, p.vx, p.vy, p.t) == Sq(p.rf)
    && Speed2(p.vx, p.vy) * p.t >= p.vx * p.r0
  }

  /** A re-emission from a wall at radius r0 > 0 heading inward (vx > 0) that
      lands on a circle flies for a positive time: the later crossing is not the
      starting point (src/main.rs:90-92, 151-153). */
  lemma WallFlightLeaves(p: Particle)
    requires Lands(p) && Transverse(p) && p.r0 > 0.0 && p.vx > 0.0
    ensures p.t > 0.0
  {
    ProductPositive(p.vx, p.r0);
    if p.t <= 0.0 {
      ScaleMonotone(Speed2(p.vx, p.vy), p.t, 0.0);
    }
  }

  /** A flight inside the bottom cylinder aimed at its wall: what the test at the
      stage plane relies on for a particle that left from below that plane. */
  predicate AimedAtBottomWall(g: Geometry, p: Particle) {
    p.rf == g.rBottom && 0.0 <= p.r0 <= g.rBottom && Transverse(p) && OnRay(p) && Lands(p)
  }

  /** With a bottom cylinder of radius 0 (a closed screen hole), a flight aimed
      at its wall starts on the axis and stops there at once: the later
      crossing of the circle of radius 0 is at time 0. */
  lemma {:induction false} PinnedOnAxis(g: Geometry, p: Particle)
    requires g.rBottom == 0.0 && AimedAtBottomWall(g, p)
    ensures p.t == 0.0 && p.z == p.z0
  {
    var s := Speed2(p.vx, p.vy);
    assert p.r0 == 0.0;
    assert Sq(0.0) == 0.0;
    RadiusSquareCompleted(p.r0, p.vx, p.vy, p.t);
    assert Sq(s * p.t - p.vx * p.r0) == 0.0;
    if s * p.t != 0.0 {
      SqPositive(s * p.t - p.vx * p.r0);
    }
  }

  /** The launch radius rBottom sqrt(u): area-weighted over the base disc
      (r0^2 / rBottom^2 = u is uniform) and within [0, rBottom]. */
  method LaunchRadius(m: Libm, rBottom: real, u: real) returns (r0: real)
    requires Lawful(m) && rBottom >= 0.0 && 0.0 <= u < 1.0
    ensures 0.0 <= r0 <= rBottom
    ensures Sq(r0) == Sq(rBottom) * u
  {
    var s := Sqrt(m, u);
    AreaWeighted(rBottom, s, u);
    r0 := rBottom * s;
  }

  lemma AreaWeighted(rBottom: real, s: real, u: real)
    requires rBottom >= 0.0 && s >= 0.0 && Sq(s) == u < 1.0
    ensures 0.0 <= rBottom * s <= rBottom
    ensures Sq(rBottom * s) == Sq(rBottom) * u
  {
    assert Sq(1.0) == 1.0;
    SqBound(s, 1.0);
    assert rBottom * s <= rBottom * 1.0;
    SqProduct(rBottom, s);
  }

  /** The state after the launch with draws u1, u2, u3 (src/main.rs:43-62): the
      particle starts at height 0 at a radius in [0, rBottom] whose square is
      rBottom^2 u1, with the tangential components of the drawn direction as vx
      and vy and its cosine as vz, aimed at the bottom wall, which pins the
      flight time to the later crossing. */
  ghost predicate Launched(g: Geometry, m: Libm, u1: real, u2: real, u3: real, p: Particle) {
    p.z0 == 0.0 && Sq(p.r0) == Sq(g.rBottom) * u1
    && (var d := CosineDraw(m, u2, u3);
        p.vx == d.tangent1 && p.vy == d.tangent2 && p.vz == d.cosTheta)
    && AimedAtBottomWall(g, p)
  }

  /** Launch from the base plane (draws u1: radius, u2: polar angle, u3:
      azimuth): the particle starts at height 0, moves upward, and its first
      flight is aimed at the bottom wall. */
  method Launch(g: Geometry, m: Libm, u1: real, u2: real, u3: real) returns (p: Particle)
    requires Lawful(m) && WellFormed(g)
    requires 0.0 <= u1 < 1.0 && 0.0 <= u2 < 1.0
    ensures Launched(g, m, u1, u2, u3, p)
    ensures 0.0 < p.vz <= MaxCos
    ensures Unit(p)
  {
    var r0 := LaunchRadius(m, g.rBottom, u1);
    var d := CosineLaw(m, u2, u3);
    var vx, vy, vz := d.tangent1, d.tangent2, d.cosTheta;
    DiscFromInside(r0, vx, vy, g.rBottom);
    var t := TimeToRadius(m, r0, vx, vy, g.rBottom);
    p := Particle(r0, 0.0, vx, vy, vz, g.rBottom, t, 0.0 + vz * t);
  }

  /** The state after a bottom-wall re-emission of p with draws u1, u2
      (src/main.rs:74-92): it restarts at (rBottom, z) with vx = cos(theta)
      and the tangential components as vy and vz, and is aimed at the bottom
      wall, which pins the flight time to the later crossing. */
  ghost predicate BottomWallEmitted(g: Geometry, m: Libm, p: Particle, u1: real, u2: real, q: Particle) {
    q.r0 == g.rBottom && q.z0 == p.z
    && (var d := CosineDraw(m, u1, u2);
        q.vx == d.cosTheta && q.vy == d.tangent2 && q.vz == d.tangent1)
    && AimedAtBottomWall(g, q)
  }

  /** Re-emission from the bottom wall at the height z < lenBottom it reached
      (draws u1, u2): the particle restarts at radius rBottom heading inward
      (vx > 0), aimed at the bottom wall again. */
  method BottomWall(g: Geometry, m: Libm, p: Particle, u1: real, u2: real) returns (q: Particle)
    requires Lawful(m) && WellFormed(g)
    requires 0.0 <= u1 < 1.0
    requires p.z < g.lenBottom
    ensures BottomWallEmitted(g, m, p, u1, u2, q)
    ensures 0.0 < q.vx <= MaxCos
    ensures Unit(q)
  {
    var d := CosineLaw(m, u1, u2);
    WallDirection(d);
    var vx, vy, vz := d.cosTheta, d.tangent2, d.tangent1;
    DiscFromInside(g.rBottom, vx, vy, g.rBottom);
    var t := TimeToRadius(m, g.rBottom, vx, vy, g.rBottom);
    q := Particle(g.rBottom, p.z, vx, vy, vz, g.rBottom, t, p.z + vz * t);
  }

  /** A direction drawn about the inward wall normal (vx = cos(theta), vy and
      vz the two tangential components) is a unit vector with a non-zero
      transverse part. */
  lemma WallDirection(d: Direction)
    requires Diffuse(d)
    ensures Speed2(d.cosTheta, d.tangent2) > 0.0
    ensures Sq(d.cosTheta) + Sq(d.tangent2) + Sq(d.tangent1) == 1.0
  {
    Speed2Positive(d.cosTheta, d.tangent2);
  }

  /** Outcome of the test at the stage plane z = lenBottom. */
  datatype Crossing = PassThrough(p: Particle) | GridBounce(p: Particle)

  /** The time at which a flight from z0 reaches the stage plane. */
  function CrossingTime(g: Geometry, p: Particle): real
    requires p.vz != 0.0
  {
    (g.lenBottom - p.z0) / p.vz
  }

  /** The state q after the test at the stage plane of a flight p from below
      it that ends above it, with draws u1, u2 (src/main.rs:96-130). The flight
      moves upward. It bounces exactly when its radius at the plane exceeds 1.
      If it passes, only rf, t and z change and it lands on the top wall at or
      above the plane; if it bounces, it restarts from the grid face at that
      radius, which lies in (1, rBottom], with vz = -cos(theta) and the
      tangential components as vx and vy, aimed at the bottom wall. */
  ghost predicate Crossed(g: Geometry, m: Libm, p: Particle, u1: real, u2: real, q: Particle, bounced: bool) {
    p.vz > 0.0
    && (!bounced <==> RadiusSq(p.r0, p.vx, p.vy, CrossingTime(g, p)) <= Sq(1.0))
    && (!bounced ==>
          q == p.(rf := 1.0, t := q.t, z := q.z) && Lands(q) && OnRay(q) && q.z >= g.lenBottom)
    && (bounced ==>
          q.z0 == g.lenBottom && 1.0 < q.r0 <= g.rBottom
          && Sq(q.r0) == RadiusSq(p.r0, p.vx, p.vy, CrossingTime(g, p))
          && Unit(q) && AimedAtBottomWall(g, q)
          && (var d := CosineDraw(m, u1, u2);
              q.vx == d.tangent1 && q.vy == d.tangent2 && q.vz == -d.cosTheta))
  }

  /** A flight from below the stage plane that ends above it (the test at
      src/main.rs:96). It moves upward, so the time to the plane is defined.
      If it crosses the plane within radius 1 it passes through; otherwise it
      strikes the upstream face of the accel grid at a radius in (1, rBottom]
      (it never leaves the bottom cylinder before reaching the plane) and is
      re-emitted downward from there. */
  method Cross(g: Geometry, m: Libm, p: Particle, u1: real, u2: real) returns (c: Crossing)
    requires Lawful(m) && WellFormed(g)
    requires 0.0 <= u1 < 1.0
    requires p.z0 < g.lenBottom <= p.z
    requires p.rf == g.rBottom && 0.0 <= p.r0 <= g.rBottom && Transverse(p) && OnRay(p)
    requires RadiusSq(p.r0, p.vx, p.vy, p.t) == Sq(p.rf)
    ensures Crossed(g, m, p, u1, u2, c.p, c.GridBounce?)
  {
    RisingMeansUpward(p.z0, p.vz, p.t);
    var tc := CrossingTime(g, p);
    CrossingTimeBounds(g.lenBottom, p.z0, p.vz, p.t, tc);
    RadiusSqNonNegative(p.r0, p.vx, p.vy, tc);
    var r := Sqrt(m, RadiusSq(p.r0, p.vx, p.vy, tc));
    if r <= 1.0 {
      SqMonotone(r, 1.0);
      var q := ContinueUpward(m, p, tc);
      assert q.z >= g.lenBottom;
      c := PassThrough(q);
    } else {
      SqMonotone(1.0, r);
      SqMonotone(p.r0, g.rBottom);
      InsideBetween(p.r0, p.vx, p.vy, g.rBottom, tc, p.t);
      SqBound(r, g.rBottom);
      var q := GridFace(g, m, r, u1, u2);
      c := GridBounce(q);
    }
  }

  /** The time tc = (lenBottom - z0) / vz to the stage plane lies within the
      flight [0, t] when the flight starts below the plane and ends above it. */
  lemma CrossingTimeBounds(lenBottom: real, z0: real, vz: real, t: real, tc: real)
    requires vz > 0.0 && t >= 0.0 && z0 < lenBottom <= z0 + vz * t
    requires tc == (lenBottom - z0) / vz
    ensures 0.0 <= tc <= t
    ensures z0 + vz * tc == lenBottom
  {
    assert vz * tc == lenBottom - z0;
    assert vz * tc <= vz * t;
  }

  /** Passing through the accel aperture (src/main.rs:101-107): origin and
      direction are kept and the flight is re-aimed at the top wall, which it
      reaches no earlier than the crossing, hence at or above the plane. */
  method ContinueUpward(m: Libm, p: Particle, tc: real) returns (q: Particle)
    requires Lawful(m) && Transverse(p) && p.vz > 0.0 && tc >= 0.0
    requires RadiusSq(p.r0, p.vx, p.vy, tc) <= Sq(1.0)
    ensures q == p.(rf := 1.0, t := q.t, z := q.z)
    ensures Lands(q) && OnRay(q)
    ensures q.z >= p.z0 + p.vz * tc
  {
    CrossesCircle(p.r0, p.vx, p.vy, 1.0, tc);
    var t := TimeToRadius(m, p.r0, p.vx, p.vy, 1.0);
    LaterCrossing(p.r0, p.vx, p.vy, 1.0, tc, t);
    ScaleMonotone(p.vz, tc, t);
    q := p.(rf := 1.0, t := t, z := p.z0 + p.vz * t);
  }

  /** Diffuse re-emission from the upstream face of the accel grid at radius r
      (src/main.rs:109-129, draws u1, u2): the particle restarts at (r,
      lenBottom) moving downward (vz = -cos(theta)) and is aimed at the bottom
      wall, so its flight ends at or below the plane. */
  method GridFace(g: Geometry, m: Libm, r: real, u1: real, u2: real) returns (q: Particle)
    requires Lawful(m) && WellFormed(g)
    requires 0.0 <= u1 < 1.0
    requires 0.0 <= r <= g.rBottom
    ensures q.r0 == r && q.z0 == g.lenBottom
    ensures -MaxCos <= q.vz < 0.0
    ensures var d := CosineDraw(m, u1, u2);
      q.vx == d.tangent1 && q.vy == d.tangent2 && q.vz == -d.cosTheta
    ensures Unit(q) && AimedAtBottomWall(g, q)
    ensures q.z <= g.lenBottom
  {
    var d := CosineLaw(m, u1, u2);
    var vx, vy, vz := d.tangent1, d.tangent2, -d.cosTheta;
    DiscFromInside(r, vx, vy, g.rBottom);
    var t := TimeToRadius(m, r, vx, vy, g.rBottom);
    assert vz * t <= 0.0;
    q := Particle(r, g.lenBottom, vx, vy, vz, g.rBottom, t, g.lenBottom + vz * t);
  }

  /** Time for a flight from radius 1, heading inward (vx > 0), to reach the
      bottom wall (src/main.rs:156-166). When the discriminant is negative,
      which can happen only if rBottom < 1, the square-root term is dropped and
      the time is that of closest approach to the axis; otherwise the flight
      lands on the bottom wall. Either way the time is positive. */
  method BottomWallTime(m: Libm, rBottom: real, vx: real, vy: real) returns (t: real)
    requires Lawful(m) && rBottom >= 0.0 && vx > 0.0
    ensures t > 0.0
    ensures Disc(1.0, vx, vy, rBottom) >= 0.0 ==>
      RadiusSq(1.0, vx, vy, t) == Sq(rBottom) && Speed2(vx, vy) * t >= vx * 1.0
    ensures Disc(1.0, vx, vy, rBottom) < 0.0 ==> rBottom < 1.0 && Speed2(vx, vy) * t == vx * 1.0
  {
    Speed2Positive(vx, vy);
    var disc := Disc(1.0, vx, vy, rBottom);
    if disc < 0.0 {
      if rBottom >= 1.0 {
        DiscFromInside(1.0, vx, vy, rBottom);
      }
      t := (vx * 1.0) / Speed2(vx, vy);
    } else {
      t := TimeToRadius(m, 1.0, vx, vy, rBottom);
    }
  }

  /** The state q after a top-wall re-emission of p with draws u1, u2
      (src/main.rs:134-167), with `first` the flight it is aimed at first. That
      flight restarts at (1, z) with vx = cos(theta) and the tangential
      components as vy and vz, and lands on the top wall at the later
      crossing. If it ends at or above the stage plane, it is the new state.
      Otherwise it is moving downward and only rf, t and z are redone for the
      bottom wall: the later crossing of rBottom when the discriminant is not
      negative, and the time of closest approach to the axis when it is, which
      happens only for rBottom < 1. */
  ghost predicate TopWallEmitted(g: Geometry, m: Libm, p: Particle, u1: real, u2: real, first: Particle, q: Particle) {
    first.r0 == 1.0 && first.z0 == p.z && first.rf == 1.0
    && (var d := CosineDraw(m, u1, u2);
        first.vx == d.cosTheta && first.vy == d.tangent2 && first.vz == d.tangent1)
    && Transverse(first) && OnRay(first) && Lands(first)
    && (first.z >= g.lenBottom ==> q == first)
    && (first.z < g.lenBottom ==>
          q == first.(rf := g.rBottom, t := q.t, z := q.z) && q.vz < 0.0 && OnRay(q)
          && (Disc(q.r0, q.vx, q.vy, q.rf) >= 0.0 ==> Lands(q))
          && (Disc(q.r0, q.vx, q.vy, q.rf) < 0.0 ==>
                g.rBottom < 1.0 && Speed2(q.vx, q.vy) * q.t == q.vx * q.r0))
  }

  /** Re-emission from the top wall at a height z in [lenBottom, length]
      (draws u1, u2): the particle restarts at radius 1 heading inward. It is
      aimed at the top wall and lands there, unless that flight would end below
      the stage plane; then it is moving downward and is aimed at the bottom
      wall instead, with the time given by `BottomWallTime`. */
  method TopWall(g: Geometry, m: Libm, p: Particle, u1: real, u2: real) returns (q: Particle, ghost first: Particle)
    requires Lawful(m) && WellFormed(g)
    requires 0.0 <= u1 < 1.0
    requires g.lenBottom <= p.z <= g.length
    ensures TopWallEmitted(g, m, p, u1, u2, first, q)
    ensures 0.0 < q.vx <= MaxCos
    ensures Unit(q) && Transverse(q)
  {
    var d := CosineLaw(m, u1, u2);
    q := TopWallFlight(m, p.z, d);
    first := q;
    if q.z < g.lenBottom {
      q := TowardsBottomWall(g, m, q);
    }
  }

  /** The first aim after a top-wall re-emission from height z0 (src/main.rs:135-153):
      from radius 1 with vx = cos(theta) and the tangential components as vy
      and vz, the flight lands on the top wall. */
  method TopWallFlight(m: Libm, z0: real, d: Direction) returns (q: Particle)
    requires Lawful(m) && Diffuse(d)
    ensures q.r0 == 1.0 && q.z0 == z0 && q.rf == 1.0
    ensures q.vx == d.cosTheta && q.vy == d.tangent2 && q.vz == d.tangent1
    ensures Unit(q) && Transverse(q) && OnRay(q) && Lands(q)
  {
    WallDirection(d);
    var vx, vy, vz := d.cosTheta, d.tangent2, d.tangent1;
    DiscFromInside(1.0, vx, vy, 1.0);
    var t := TimeToRadius(m, 1.0, vx, vy, 1.0);
    q := Particle(1.0, z0, vx, vy, vz, 1.0, t, z0 + vz * t);
  }

  /** A top-wall flight that would end below the stage plane is moving
      downward and is re-aimed at the bottom wall (src/main.rs:156-167): only
      rf, t and z change. */
  method TowardsBottomWall(g: Geometry, m: Libm, p: Particle) returns (q: Particle)
    requires Lawful(m) && WellFormed(g)
    requires p.r0 == 1.0 && p.vx > 0.0 && OnRay(p) && p.z < p.z0
    ensures q == p.(rf := g.rBottom, t := q.t, z := q.z)
    ensures q.vz < 0.0 && OnRay(q)
    ensures Disc(q.r0, q.vx, q.vy, q.rf) >= 0.0 ==> Lands(q)
    ensures Disc(q.r0, q.vx, q.vy, q.rf) < 0.0 ==>
      q.rf == g.rBottom < 1.0 && Speed2(q.vx, q.vy) * q.t == q.vx * q.r0
  {
    FallingMeansDownward(p.z0, p.vz, p.t);
    var t := BottomWallTime(m, g.rBottom, p.vx, p.vy);
    q := p.(rf := g.rBottom, t := t, z := p.z0 + p.vz * t);
  }
}
