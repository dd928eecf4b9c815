/** The run's accumulators (src/main.rs:35-39, 64, 176-177, 183, 186-188) and
    the ratios computed from them at the end (src/main.rs:192-196). */
module Tally {
  import opened Numerics
  import opened Emission

  datatype Option<T> = None | Some(value: T)

  /** A particle still in flight after this many iterations is counted as lost
      (the test `icount > 1000`). */
  const MaxIterations: nat := 1000

  /** How one particle's trace ended: the cosine of its launch angle, the number
      of iterations it took, whether it left through the top (and with which vz),
      whether it fell back through the base, and whether it was given up as lost. */
  datatype Fate = Fate(launchVz: real, count: nat, escaped: bool, exitVz: real, returned: bool, lost: bool)

  /** What the tracer guarantees about every fate: the launch is upward, the
      trace takes between 1 and 1001 iterations and is lost exactly when it
      needed more than 1000, it ends by escaping, returning or being lost
      (escape and loss can coincide, escape and return cannot), and an escaping
      particle moves upward. */
  predicate Admissible(f: Fate) {
    0.0 < f.launchVz <= MaxCos
    && 1 <= f.count <= MaxIterations + 1
    && (f.lost <==> f.count > MaxIterations)
    && (f.escaped || f.returned || f.lost)
    && !(f.escaped && f.returned)
    && (f.escaped ==> 0.0 < f.exitVz <= 1.0)
  }

  /** The accumulators: `iescape`, `nlost`, `max_count`, `vztot` and `vz0tot`. */
  datatype Tally = Tally(escaped: nat, lost: nat, maxCount: nat, exitVzTotal: real, launchVzTotal: real)

  /** The accumulators before the first particle. */
  const Empty: Tally := Tally(0, 0, 0, 0.0, 0.0)

  /** The accumulators after one more particle with fate f. */
  function Record(t: Tally, f: Fate): Tally {
    Tally(t.escaped + (if f.escaped then 1 else 0),
          t.lost + (if f.lost then 1 else 0),
          if f.count > t.maxCount then f.count else t.maxCount,
          t.exitVzTotal + (if f.escaped then f.exitVz else 0.0),
          t.launchVzTotal + f.launchVz)
  }

  /** The accumulators after the particles with fates fs, in order. */
  function Fold(fs: seq<Fate>): Tally {
    if |fs| == 0 then Empty else Record(Fold(fs[..|fs| - 1]), fs[|fs| - 1])
  }

  /** Two tallies combined: counts and sums add, the maxima take the larger. */
  function Merge(a: Tally, b: Tally): Tally {
    Tally(a.escaped + b.escaped, a.lost + b.lost,
          if b.maxCount > a.maxCount then b.maxCount else a.maxCount,
          a.exitVzTotal + b.exitVzTotal, a.launchVzTotal + b.launchVzTotal)
  }

  /** Particles are independent: tracing two batches one after the other gives
      the tally of the two batches merged, so the tally does not depend on how
      the run is split. */
  lemma {:induction false} FoldConcat(a: seq<Fate>, b: seq<Fate>)
    ensures Fold(a + b) == Merge(Fold(a), Fold(b))
  {
    if |b| == 0 {
      assert a + b == a;
      assert Fold(b) == Empty;
    } else {
      var b', x := b[..|b| - 1], b[|b| - 1];
      var ab := a + b;
      assert ab[..|ab| - 1] == a + b' && ab[|ab| - 1] == x;
      assert Fold(ab) == Record(Fold(a + b'), x);
      FoldConcat(a, b');
      MergeRecord(Fold(a), Fold(b'), x);
    }
  }

  /** Recording a fate after merging is merging after recording it. */
  lemma MergeRecord(t: Tally, u: Tally, f: Fate)
    ensures Record(Merge(t, u), f) == Merge(t, Record(u, f))
  {
  }

  /** Escapes and losses are counted at most once per particle. */
  lemma {:induction false} FoldCounts(fs: seq<Fate>)
    ensures Fold(fs).escaped <= |fs| && Fold(fs).lost <= |fs|
  {
    if |fs| > 0 {
      FoldCounts(fs[..|fs| - 1]);
    }
  }

  /** `max_count` is the largest iteration count of any particle. */
  lemma {:induction false} FoldMaxCount(fs: seq<Fate>)
    ensures forall i :: 0 <= i < |fs| ==> fs[i].count <= Fold(fs).maxCount
    ensures |fs| > 0 ==> exists i :: 0 <= i < |fs| && fs[i].count == Fold(fs).maxCount
    ensures |fs| == 0 ==> Fold(fs).maxCount == 0
  {
    if |fs| > 0 {
      var n := |fs| - 1;
      var init := fs[..n];
      FoldMaxCount(init);
      assert forall i :: 0 <= i < n ==> fs[i] == init[i];
      if fs[n].count <= Fold(init).maxCount && n > 0 {
        var j :| 0 <= j < n && init[j].count == Fold(init).maxCount;
        assert fs[j].count == Fold(fs).maxCount;
      }
    }
  }

  /** For admissible fates: the sums of launch and exit vz are not negative,
      the exit sum is positive exactly when some particle escaped, the launch
      sum is positive once there is a particle, and the maximum iteration count
      is 0 without particles and otherwise in [1, 1001]. */
  lemma {:induction false} FoldAdmissible(fs: seq<Fate>)
    requires forall i :: 0 <= i < |fs| ==> Admissible(fs[i])
    ensures Fold(fs).exitVzTotal >= 0.0
    ensures Fold(fs).exitVzTotal > 0.0 <==> Fold(fs).escaped >= 1
    ensures |fs| > 0 ==> Fold(fs).launchVzTotal > 0.0
    ensures |fs| > 0 ==> 1 <= Fold(fs).maxCount <= MaxIterations + 1
    ensures |fs| == 0 ==> Fold(fs).maxCount == 0
  {
    if |fs| > 0 {
      var init := fs[..|fs| - 1];
      assert forall i :: 0 <= i < |init| ==> init[i] == fs[i];
      FoldAdmissible(init);
      assert Admissible(fs[|fs| - 1]);
      if |init| == 0 {
        assert Fold(init) == Empty;
      }
    }
  }

  /** When every particle is lost after 1001 iterations without escaping, the
      tally counts all of them as lost, none as escaped, and 1001 as the longest
      trace. */
  lemma {:induction false} FoldAllLost(fs: seq<Fate>)
    requires forall i :: 0 <= i < |fs| ==> fs[i].lost && !fs[i].escaped && fs[i].count == MaxIterations + 1
    ensures Fold(fs).lost == |fs| && Fold(fs).escaped == 0 && Fold(fs).exitVzTotal == 0.0
    ensures |fs| > 0 ==> Fold(fs).maxCount == MaxIterations + 1
    ensures |fs| == 0 ==> Fold(fs).maxCount == 0
  {
    if |fs| > 0 {
      var init := fs[..|fs| - 1];
      assert forall i :: 0 <= i < |init| ==> init[i] == fs[i];
      FoldAllLost(init);
    }
  }

  /** The Clausing factor rBottom^2 iescape / npart: the escaping fraction of the
      particles, scaled by the base-to-aperture area ratio. It lies in
      [0, rBottom^2] when no more particles escape than were launched, equals
      rBottom^2 when all escape, and is positive exactly when some particle
      escaped through an aperture of non-zero size. */
  function ClausingFactor(rBottom: real, escaped: nat, npart: nat): (cf: real)
    requires npart >= 1
    ensures cf * (npart as real) == Sq(rBottom) * (escaped as real)
    ensures escaped <= npart ==> 0.0 <= cf <= Sq(rBottom)
    ensures escaped == npart ==> cf == Sq(rBottom)
    ensures cf > 0.0 <==> escaped >= 1 && rBottom != 0.0
  {
    SqSign(rBottom);
    ScaledFraction(Sq(rBottom), escaped as real, npart as real);
    Sq(rBottom) * (escaped as real) / (npart as real)
  }

  /** The quotient a e / n of a non-negative a by a positive n: its defining
      product, its bounds when 0 <= e <= n, and its sign. */
  lemma ScaledFraction(a: real, e: real, n: real)
    requires a >= 0.0 && e >= 0.0 && n > 0.0
    ensures (a * e / n) * n == a * e
    ensures e <= n ==> 0.0 <= a * e / n <= a
    ensures e == n ==> a * e / n == a
    ensures a * e / n > 0.0 <==> a > 0.0 && e > 0.0
  {
    var q := a * e / n;
    assert q * n == a * e;
    ProductNonNegative(a, e);
    if e <= n {
      ScaleMonotone(a, e, n);
      assert n * q <= n * a;
      CancelPositive(n, q, a);
    }
    if a > 0.0 && e > 0.0 {
      ProductPositive(a, e);
    }
    if q > 0.0 {
      ProductPositive(q, n);
      assert a != 0.0 && e != 0.0;
    }
  }

  /** The downstream density correction vz0av / vzav, the mean launch vz over
      the mean exit vz. Where the source divides by zero (no particle escaped,
      so vzav is 0/0) there is no value. It is positive when both sums are. */
  function DensityCorrection(launchTotal: real, exitTotal: real, escaped: nat, npart: nat): (d: Option<real>)
    requires npart >= 1
    ensures d.Some? <==> escaped >= 1 && exitTotal != 0.0
    ensures d.Some? ==> d.value * exitTotal * (npart as real) == launchTotal * (escaped as real)
    ensures d.Some? && launchTotal > 0.0 && exitTotal > 0.0 ==> d.value > 0.0
  {
    if escaped == 0 || exitTotal == 0.0 then None
    else
      var vz0av := launchTotal / (npart as real);
      var vzav := exitTotal / (escaped as real);
      MeanRatio(launchTotal, npart as real, exitTotal, escaped as real);
      Some(vz0av / vzav)
  }

  /** (a / n) / (b / e) times b n is a e, and it is positive when a and b are. */
  lemma MeanRatio(a: real, n: real, b: real, e: real)
    requires n > 0.0 && e > 0.0 && b != 0.0
    ensures (a / n) / (b / e) * b * n == a * e
    ensures a > 0.0 && b > 0.0 ==> (a / n) / (b / e) > 0.0
  {
    var x := a / n;
    var y := b / e;
    assert x * n == a;
    assert y * e == b;
    assert y != 0.0;
    var d := x / y;
    assert d * y == x;
    calc {
      d * b * n;
      d * (y * e) * n;
      (d * y) * (e * n);
      x * (e * n);
      (x * n) * e;
    }
  }
}
