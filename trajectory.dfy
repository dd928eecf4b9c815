/** The straight flight between two wall contacts, seen in the plane across the
    axis. A particle leaves a point at radius r0 with transverse velocity
    (vx, vy), where vx points towards the axis; after time t it sits at
    (r0 - vx t, vy t). The time-to-radius formula the source writes out at
    src/main.rs:60-61, 90-91, 104-106, 126-128, 151-152 and 158-164 is the later
    root of |(r0 - vx t, vy t)| = rf. */
module Trajectory {
  import opened Numerics

  /** vx^2 + vy^2, the divisor of the time-to-radius formula. */
  function Speed2(vx: real, vy: real): real {
    Sq(vx) + Sq(vy)
  }

  /** (vx^2 + vy^2) rf^2 - (vy r0)^2, the discriminant of the time-to-radius formula. */
  function Disc(r0: real, vx: real, vy: real, rf: real): real {
    Speed2(vx, vy) * Sq(rf) - Sq(vy * r0)
  }

  /** The squared distance from the axis after flying for time t. */
  function RadiusSq(r0: real, vx: real, vy: real, t: real): real {
    Sq(r0 - vx * t) + Sq(vy * t)
  }

  /** The squared radius is never negative. */
  lemma RadiusSqNonNegative(r0: real, vx: real, vy: real, t: real)
    ensures RadiusSq(r0, vx, vy, t) >= 0.0
  {
    SqNonNegative(r0 - vx * t);
    SqNonNegative(vy * t);
  }

  /** A non-zero component towards the axis makes the divisor positive. */
  lemma Speed2Positive(vx: real, vy: real)
    requires vx != 0.0
    ensures Speed2(vx, vy) > 0.0
  {
    SqPositive(vx);
    SqNonNegative(vy);
  }

  /** Completing the square: S |(r0 - vx t, vy t)|^2 = (S t - vx r0)^2 + (vy r0)^2
      with S = vx^2 + vy^2. */
  lemma RadiusSquareCompleted(r0: real, vx: real, vy: real, t: real)
    ensures Speed2(vx, vy) * RadiusSq(r0, vx, vy, t)
         == Sq(Speed2(vx, vy) * t - vx * r0) + Sq(vy * r0)
  {
  }

  /** From inside the target circle (0 <= r0 <= rf) the discriminant is at
      least (vx r0)^2, so the square root in the formula is defined. */
  lemma DiscFromInside(r0: real, vx: real, vy: real, rf: real)
    requires 0.0 <= r0 <= rf
    ensures Disc(r0, vx, vy, rf) >= Sq(vx * r0) >= 0.0
  {
    SqMonotone(r0, rf);
    SqNonNegative(vx);
    SqNonNegative(vy);
    SqNonNegative(vx * r0);
    assert Disc(r0, vx, vy, rf) == Sq(vx * r0) + Speed2(vx, vy) * (Sq(rf) - Sq(r0));
    assert Speed2(vx, vy) * (Sq(rf) - Sq(r0)) >= 0.0;
  }

  /** Time to reach radius rf, the later of the two crossings of that circle:
      the point reached lies on the circle and S t - vx r0 is the non-negative
      square root of the discriminant. From inside the circle the time is not
      negative. */
  method TimeToRadius(m: Libm, r0: real, vx: real, vy: real, rf: real) returns (t: real)
    requires Lawful(m)
    requires Speed2(vx, vy) > 0.0
    requires Disc(r0, vx, vy, rf) >= 0.0
    ensures RadiusSq(r0, vx, vy, t) == Sq(rf)
    ensures Speed2(vx, vy) * t >= vx * r0
    ensures 0.0 <= r0 <= rf ==> t >= 0.0
  {
    var s := Speed2(vx, vy);
    var q := Sqrt(m, Disc(r0, vx, vy, rf));
    t := (vx * r0 + q) / s;
    assert s * t == vx * r0 + q;
    RootLands(r0, vx, vy, rf, q, t);
    if 0.0 <= r0 <= rf {
      DiscFromInside(r0, vx, vy, rf);
      SqBound(-(vx * r0), q);
      assert s * t >= 0.0;
    }
  }

  /** A time t with S t - vx r0 equal to a square root q of the discriminant
      puts the flight on the circle of radius rf. */
  lemma RootLands(r0: real, vx: real, vy: real, rf: real, q: real, t: real)
    requires Speed2(vx, vy) > 0.0 && Sq(q) == Disc(r0, vx, vy, rf)
    requires Speed2(vx, vy) * t == vx * r0 + q
    ensures RadiusSq(r0, vx, vy, t) == Sq(rf)
  {
    var s := Speed2(vx, vy);
    RadiusSquareCompleted(r0, vx, vy, t);
    assert s * t - vx * r0 == q;
    assert s * RadiusSq(r0, vx, vy, t) == s * Sq(rf);
    CancelPositive(s, RadiusSq(r0, vx, vy, t), Sq(rf));
    CancelPositive(s, Sq(rf), RadiusSq(r0, vx, vy, t));
  }

  /** A flight that passes within radius rf of the axis at time tc meets that
      circle: its discriminant is at least (S tc - vx r0)^2, so not negative. */
  lemma CrossesCircle(r0: real, vx: real, vy: real, rf: real, tc: real)
    requires Speed2(vx, vy) > 0.0
    requires RadiusSq(r0, vx, vy, tc) <= Sq(rf)
    ensures Disc(r0, vx, vy, rf) >= Sq(Speed2(vx, vy) * tc - vx * r0) >= 0.0
  {
    RadiusSquareCompleted(r0, vx, vy, tc);
    assert Speed2(vx, vy) * RadiusSq(r0, vx, vy, tc) <= Speed2(vx, vy) * Sq(rf);
    SqNonNegative(Speed2(vx, vy) * tc - vx * r0);
  }

  /** A point on the circle reached by the later root comes no earlier than a
      point within the circle. */
  lemma LaterCrossing(r0: real, vx: real, vy: real, rf: real, tc: real, t: real)
    requires Speed2(vx, vy) > 0.0
    requires RadiusSq(r0, vx, vy, tc) <= Sq(rf)
    requires RadiusSq(r0, vx, vy, t) == Sq(rf)
    requires Speed2(vx, vy) * t >= vx * r0
    ensures tc <= t
  {
    var s := Speed2(vx, vy);
    var a := vx * r0;
    RadiusSquareCompleted(r0, vx, vy, tc);
    RadiusSquareCompleted(r0, vx, vy, t);
    assert s * RadiusSq(r0, vx, vy, tc) <= s * RadiusSq(r0, vx, vy, t);
    SqBound(s * tc - a, s * t - a);
    assert s * tc <= s * t;
  }

  /** The squared radius expanded as a quadratic in t. */
  lemma RadiusSqExpanded(r0: real, vx: real, vy: real, t: real)
    ensures RadiusSq(r0, vx, vy, t) == Sq(r0) - 2.0 * (vx * r0) * t + Speed2(vx, vy) * (t * t)
  {
  }

  /** The squared radius is convex along the flight: between a start inside
      radius rf and a later point on that circle, the flight stays within rf. */
  lemma InsideBetween(r0: real, vx: real, vy: real, rf: real, tc: real, t: real)
    requires 0.0 <= tc <= t
    requires Sq(r0) <= Sq(rf)
    requires RadiusSq(r0, vx, vy, t) == Sq(rf)
    ensures RadiusSq(r0, vx, vy, tc) <= Sq(rf)
  {
    RadiusSqExpanded(r0, vx, vy, tc);
    RadiusSqExpanded(r0, vx, vy, t);
    SqNonNegative(vx);
    SqNonNegative(vy);
    Chord(Sq(r0), Sq(rf), vx * r0, Speed2(vx, vy), tc, t, RadiusSq(r0, vx, vy, tc));
  }

  /** The chord argument for a convex quadratic q(x) = r2 - 2 a x + s x^2 with
      s >= 0: if q(0) = r2 <= f2 and q(t) = f2, then q stays at most f2 on [0, t]. */
  lemma Chord(r2: real, f2: real, a: real, s: real, tc: real, t: real, qc: real)
    requires 0.0 <= tc <= t && r2 <= f2 && s >= 0.0
    requires qc == r2 - 2.0 * a * tc + s * (tc * tc)
    requires f2 == r2 - 2.0 * a * t + s * (t * t)
    ensures qc <= f2
  {
    assert t * qc - (t - tc) * r2 - tc * f2 == s * t * tc * (tc - t);
    ProductNonNegative(s, t);
    ProductNonNegative(s * t, tc);
    assert s * t * tc * (tc - t) <= 0.0;
    assert (t - tc) * r2 <= (t - tc) * f2;
    if t > 0.0 {
      assert t * qc <= t * f2;
      CancelPositive(t, qc, f2);
    } else {
      assert tc == 0.0;
    }
  }

  /** A flight that rises from z0 to a higher z over a non-negative time moves upward. */
  lemma RisingMeansUpward(z0: real, vz: real, t: real)
    requires t >= 0.0 && z0 + vz * t > z0
    ensures vz > 0.0
  {
  }

  /** A flight that drops below its starting height over a non-negative time moves downward. */
  lemma FallingMeansDownward(z0: real, vz: real, t: real)
    requires t >= 0.0 && z0 + vz * t < z0
    ensures vz < 0.0
  {
  }
}
