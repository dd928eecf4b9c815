/** The Monte Carlo routine `clausing` (src/main.rs:26-204): trace `npart`
    particles launched from the base of the two-cylinder aperture, each until it
    escapes through the top, falls back through the base or is given up after
    1000 iterations, and report the Clausing factor, the longest trace, the
    number of lost particles and the downstream density correction. */
module Clausing {
  import opened Numerics
  import opened Geometry
  import opened Emission
  import opened Trajectory
  import opened Tracer
  import opened Tally

  /** The routine's results; a ratio is absent where the source computes 0/0
      (the Clausing factor without particles, the density correction without
      escapes). */
  datatype ClausingResults = ClausingResults(clausingFactor: Option<real>, maxCount: nat, nlost: nat, denCor: Option<real>)

  /** The state a particle is carried in from one iteration to the next: the
      flight started inside the tube (0 <= z0 <= length) along a unit direction
      and ends at z; one that started below the stage plane is aimed at the
      bottom wall. */
  predicate Sound(g: Geometry, p: Particle) {
    0.0 <= p.z0 <= g.length && OnRay(p) && Unit(p)
    && (p.z0 < g.lenBottom ==> AimedAtBottomWall(g, p))
  }

  /** A unit-direction flight from inside the tube that ends above its top
      moves upward, with vz at most 1. */
  lemma EscapesUpward(g: Geometry, p: Particle)
    requires 0.0 <= p.z0 <= g.length && OnRay(p) && Unit(p) && p.z > g.length
    ensures 0.0 < p.vz <= 1.0
  {
    RisingMeansUpward(p.z0, p.vz, p.t);
    SqNonNegative(p.vx);
    SqNonNegative(p.vy);
    assert Sq(p.vz) <= Sq(1.0);
    SqBound(p.vz, 1.0);
  }

  /** The first test of an iteration (src/main.rs:73-93): a particle whose
      flight ends below the stage plane is re-emitted from the bottom wall with
      draws k and k + 1; any other is left as it is. Either way the state can
      still be carried. */
  method BottomWallTest(g: Geometry, m: Libm, rng: nat -> real, k: nat, p: Particle) returns (q: Particle, k': nat)
    requires Lawful(m) && WellFormed(g) && InUnitInterval(rng)
    requires Sound(g, p) && p.z >= 0.0
    ensures if p.z < g.lenBottom
      then k' == k + 2 && BottomWallEmitted(g, m, p, rng(k), rng(k + 1), q)
      else k' == k && q == p
    ensures Sound(g, q)
  {
    q, k' := p, k;
    if p.z < g.lenBottom {
      q := BottomWall(g, m, p, rng(k), rng(k + 1));
      k' := k + 2;
    }
  }

  /** The second test (src/main.rs:96-131): a flight that left from below the
      stage plane and ends above it either passes through the accel aperture or
      bounces off the grid face, which takes draws k and k + 1; any other is
      left as it is. Afterwards the flight starts inside the tube along a unit
      direction, and one that started below the plane and still ends below it
      is aimed at the bottom wall. */
  method StagePlaneTest(g: Geometry, m: Libm, rng: nat -> real, k: nat, p: Particle) returns (q: Particle, k': nat, ghost bounced: bool)
    requires Lawful(m) && WellFormed(g) && InUnitInterval(rng)
    requires Sound(g, p)
    ensures if p.z >= g.lenBottom && p.z0 < g.lenBottom
      then Crossed(g, m, p, rng(k), rng(k + 1), q, bounced) && k' == (if bounced then k + 2 else k)
      else k' == k && q == p
    ensures 0.0 <= q.z0 <= g.length && OnRay(q) && Unit(q)
    ensures q.z0 < g.lenBottom && q.z < g.lenBottom ==> AimedAtBottomWall(g, q)
  {
    q, k', bounced := p, k, false;
    if p.z >= g.lenBottom && p.z0 < g.lenBottom {
      var c := Cross(g, m, p, rng(k), rng(k + 1));
      bounced := c.GridBounce?;
      if c.GridBounce? {
        k' := k + 2;
      }
      q := c.p;
    }
  }

  /** The third test (src/main.rs:134-168): a flight that ends on the top
      cylinder is re-emitted from the top wall with draws k and k + 1; any other
      is left as it is. Afterwards the particle either has left through the top
      moving upward, or can be carried into the next iteration. */
  method TopWallTest(g: Geometry, m: Libm, rng: nat -> real, k: nat, p: Particle) returns (q: Particle, k': nat, ghost first: Particle)
    requires Lawful(m) && WellFormed(g) && InUnitInterval(rng)
    requires 0.0 <= p.z0 <= g.length && OnRay(p) && Unit(p)
    requires p.z0 < g.lenBottom && p.z < g.lenBottom ==> AimedAtBottomWall(g, p)
    ensures if g.lenBottom <= p.z <= g.length
      then k' == k + 2 && TopWallEmitted(g, m, p, rng(k), rng(k + 1), first, q)
      else k' == k && q == p
    ensures q.z > g.length ==> 0.0 < q.vz <= 1.0
    ensures q.z <= g.length ==> Sound(g, q)
  {
    q, k', first := p, k, p;
    if g.lenBottom <= p.z <= g.length {
      q, first := TopWall(g, m, p, rng(k), rng(k + 1));
      k' := k + 2;
    }
    if q.z > g.length {
      EscapesUpward(g, q);
    }
  }

  /** The states one iteration passes through: after the bottom-wall test and
      the draw index then, after the stage-plane test (with whether the
      particle bounced off the grid face) and the draw index then, and the
      first aim of a top-wall re-emission. */
  datatype Trail = Trail(afterBottom: Particle, kBottom: nat, afterCross: Particle, bounced: bool, kCross: nat, topFirst: Particle)

  /** One iteration from state p and draw index k to state q and draw index k',
      passing through the states of tr: each test runs on the state and index
      the previous one left; a test whose guard fails changes neither, and one
      whose guard holds gives the state its branch pins, with the next two
      draws (the stage-plane test only when the particle bounces). */
  ghost predicate Stepped(g: Geometry, m: Libm, rng: nat -> real, k: nat, p: Particle, q: Particle, k': nat, tr: Trail) {
    (if p.z < g.lenBottom
     then tr.kBottom == k + 2 && BottomWallEmitted(g, m, p, rng(k), rng(k + 1), tr.afterBottom)
     else tr.kBottom == k && tr.afterBottom == p)
    && (var p1, k1 := tr.afterBottom, tr.kBottom;
        if p1.z >= g.lenBottom && p1.z0 < g.lenBottom
        then Crossed(g, m, p1, rng(k1), rng(k1 + 1), tr.afterCross, tr.bounced)
          && tr.kCross == (if tr.bounced then k1 + 2 else k1)
        else tr.kCross == k1 && tr.afterCross == p1)
    && (var p2, k2 := tr.afterCross, tr.kCross;
        if g.lenBottom <= p2.z <= g.length
        then k' == k2 + 2 && TopWallEmitted(g, m, p2, rng(k2), rng(k2 + 1), tr.topFirst, q)
        else k' == k2 && q == p2)
  }

  /** One iteration of the tracer (src/main.rs:72-168): the three tests in the
      source's order, each on the state the previous one left and with the
      draws that remain. A test whose guard fails changes neither the state nor
      the draw index. Afterwards the particle either has left through the top
      moving upward, or is in a state that can be carried into the next
      iteration. */
  method Step(g: Geometry, m: Libm, rng: nat -> real, k: nat, p: Particle) returns (q: Particle, k': nat, ghost tr: Trail)
    requires Lawful(m) && WellFormed(g) && InUnitInterval(rng)
    requires Sound(g, p) && p.z >= 0.0
    ensures Stepped(g, m, rng, k, p, q, k', tr)
    ensures q.z > g.length ==> 0.0 < q.vz <= 1.0
    ensures q.z <= g.length ==> Sound(g, q)
  {
    var p1, k1 := BottomWallTest(g, m, rng, k, p);
    ghost var bounced;
    var p2, k2;
    p2, k2, bounced := StagePlaneTest(g, m, rng, k1, p1);
    ghost var first;
    q, k', first := TopWallTest(g, m, rng, k2, p2);
    tr := Trail(p1, k1, p2, bounced, k2, first);
  }

  /** The launch leaves the particle in a state the loop can carry: it starts
      on the base and its first flight ends at or above it. */
  lemma LaunchIsSound(g: Geometry, p: Particle)
    requires WellFormed(g) && p.z0 == 0.0 && p.vz > 0.0 && Unit(p) && AimedAtBottomWall(g, p)
    ensures Sound(g, p) && p.z >= 0.0
  {
    ProductNonNegative(p.vz, p.t);
  }

  /** The states a particle passes through: the launch state and the state
      after each iteration, the draw index after each of them, and the trail of
      each iteration. */
  datatype Path = Path(states: seq<Particle>, ks: seq<nat>, trs: seq<Trail>)

  /** Iteration i of w is a `Step` from state i and draw index i to state
      i + 1 and draw index i + 1. */
  ghost predicate StepAt(g: Geometry, m: Libm, rng: nat -> real, w: Path, i: nat)
    requires i < |w.trs| && |w.states| == |w.ks| == |w.trs| + 1
  {
    Stepped(g, m, rng, w.ks[i], w.states[i], w.states[i + 1], w.ks[i + 1], w.trs[i])
  }

  /** w is the launch with draws k0, k0 + 1, k0 + 2 followed by |w.trs|
      iterations, each starting from the state and draw index the previous
      one left. */
  ghost predicate Walk(g: Geometry, m: Libm, rng: nat -> real, k0: nat, w: Path) {
    |w.states| == |w.ks| == |w.trs| + 1
    && Launched(g, m, rng(k0), rng(k0 + 1), rng(k0 + 2), w.states[0]) && w.ks[0] == k0 + 3
    && forall i :: 0 <= i < |w.trs| ==> StepAt(g, m, rng, w, i)
  }

  /** The flights of the states lo .. hi - 1 of w end inside the tube: the
      particle was still going after those iterations. */
  ghost predicate Flying(g: Geometry, w: Path, lo: nat, hi: nat)
    requires hi <= |w.states|
  {
    forall i :: lo <= i < hi ==> 0.0 <= w.states[i].z <= g.length
  }

  /** w with one more iteration that leaves state q, draw index k and trail tr. */
  function Extend(w: Path, q: Particle, k: nat, tr: Trail): (w': Path)
    ensures |w'.states| == |w.states| + 1 && w'.states[|w.states|] == q
  {
    Path(w.states + [q], w.ks + [k], w.trs + [tr])
  }

  /** A walk extended by one more iteration from its last state is a walk. */
  lemma ExtendWalk(g: Geometry, m: Libm, rng: nat -> real, k0: nat, w: Path, q: Particle, k: nat, tr: Trail)
    requires Walk(g, m, rng, k0, w)
    requires Stepped(g, m, rng, w.ks[|w.trs|], w.states[|w.trs|], q, k, tr)
    ensures Walk(g, m, rng, k0, Extend(w, q, k, tr))
  {
    var w' := Extend(w, q, k, tr);
    var n := |w.trs|;
    forall i | 0 <= i < |w'.trs|
      ensures StepAt(g, m, rng, w', i)
    {
      assert w'.ks[i] == w.ks[i] && w'.states[i] == w.states[i];
      if i < n {
        assert StepAt(g, m, rng, w, i);
        assert w'.states[i + 1] == w.states[i + 1] && w'.ks[i + 1] == w.ks[i + 1] && w'.trs[i] == w.trs[i];
      } else {
        assert w'.states[i + 1] == q && w'.ks[i + 1] == k && w'.trs[i] == tr;
      }
    }
    assert w'.states[0] == w.states[0] && w'.ks[0] == w.ks[0];
  }

  /** Extending a path keeps the states it had. */
  lemma ExtendFlying(g: Geometry, w: Path, q: Particle, k: nat, tr: Trail, lo: nat, hi: nat)
    requires hi <= |w.states| && Flying(g, w, lo, hi)
    ensures Flying(g, Extend(w, q, k, tr), lo, hi)
  {
    var w' := Extend(w, q, k, tr);
    forall i | lo <= i < hi
      ensures 0.0 <= w'.states[i].z <= g.length
    {
      assert w'.states[i] == w.states[i];
    }
  }

  /** One particle's trace from draw index k0 to k with fate f along the path
      w: w is a walk of f.count iterations that ends at draw index k; the
      particle was still inside the tube after every iteration before the last;
      its launch vz is the fate's; and with the final state, it returned exactly
      when that state ends below the base and escaped exactly when it ends above
      the top, with its vz as the exit vz. */
  ghost predicate Traced(g: Geometry, m: Libm, rng: nat -> real, k0: nat, f: Fate, k: nat, w: Path) {
    Walk(g, m, rng, k0, w) && |w.trs| == f.count && k == w.ks[f.count]
    && Flying(g, w, 1, f.count)
    && f.launchVz == w.states[0].vz
    && (f.returned <==> w.states[f.count].z < 0.0)
    && (f.escaped <==> w.states[f.count].z > g.length)
    && (f.escaped ==> f.exitVz == w.states[f.count].vz)
  }

  /** One more iteration of a walk from its last state p and draw index k: the
      walk grows by the `Step` from there. */
  method Advance(g: Geometry, m: Libm, rng: nat -> real, ghost k0: nat, k: nat, p: Particle, ghost w: Path)
      returns (q: Particle, k': nat, ghost w': Path)
    requires Lawful(m) && WellFormed(g) && InUnitInterval(rng)
    requires Sound(g, p) && p.z >= 0.0
    requires Walk(g, m, rng, k0, w) && p == w.states[|w.trs|] && k == w.ks[|w.trs|]
    ensures Walk(g, m, rng, k0, w')
    ensures |w'.trs| == |w.trs| + 1 && w' == Extend(w, q, k', w'.trs[|w.trs|])
    ensures q.z > g.length ==> 0.0 < q.vz <= 1.0
    ensures q.z <= g.length ==> Sound(g, q)
  {
    ghost var tr;
    q, k', tr := Step(g, m, rng, k, p);
    ExtendWalk(g, m, rng, k0, w, q, k', tr);
    w' := Extend(w, q, k', tr);
  }

  /** One particle (src/main.rs:43-189): launch it with the next three draws, add
      its vz to `vz0tot`, then iterate until it leaves through the base
      (z < 0), escapes through the top (z > length: `iescape` and `vztot`
      grow) or has used more than 1000 iterations (`nlost` grows), raising
      `max_count` to the iteration count as it goes. The accumulators end up
      as `acc0` with the particle's fate recorded, and that fate is admissible.
      The whole trace is the path w: the launch from draws k0 .. k0 + 2, then
      one `Step` per iteration, each on the draws the previous one left, until
      the first state that ends outside the tube or the 1001st iteration; the
      fate records the launch vz and how that last state ends. */
  method Trace(g: Geometry, m: Libm, rng: nat -> real, k0: nat, acc0: Tally) returns (acc: Tally, k: nat, ghost fate: Fate, ghost w: Path)
    requires Lawful(m) && WellFormed(g) && InUnitInterval(rng)
    ensures Admissible(fate)
    ensures acc == Record(acc0, fate)
    ensures Traced(g, m, rng, k0, fate, k, w)
  {
    var p := Launch(g, m, rng(k0), rng(k0 + 1), rng(k0 + 2));
    k := k0 + 3;
    LaunchIsSound(g, p);
    w := Path([p], [k], []);
    acc := acc0.(launchVzTotal := acc0.launchVzTotal + p.vz);
    ghost var launchVz, escaped, exitVz, returned, lost := p.vz, false, 0.0, false, false;
    var icount: nat := 0;
    var notgone := true;
    while notgone
      invariant icount <= MaxIterations + 1
      invariant notgone ==> icount <= MaxIterations && Sound(g, p) && p.z >= 0.0
      invariant notgone ==> !escaped && !returned && !lost
      invariant !notgone ==> 1 <= icount && (escaped || returned || lost)
      invariant lost <==> icount > MaxIterations
      invariant !(escaped && returned)
      invariant escaped ==> 0.0 < exitVz <= 1.0
      invariant Walk(g, m, rng, k0, w) && |w.trs| == icount
      invariant p == w.states[icount] && k == w.ks[icount] && launchVz == w.states[0].vz
      invariant notgone ==> Flying(g, w, 1, icount + 1)
      invariant !notgone ==> Flying(g, w, 1, icount)
      invariant icount >= 1 ==> (returned <==> p.z < 0.0)
      invariant icount >= 1 ==> (escaped <==> p.z > g.length)
      invariant escaped ==> exitVz == p.vz
      invariant acc == Record(acc0, Fate(launchVz, icount, escaped, exitVz, returned, lost))
      decreases MaxIterations + 1 - icount
    {
      icount := icount + 1;
      ghost var w' := w;
      p, k, w := Advance(g, m, rng, k0, k, p, w);
      ExtendFlying(g, w', p, k, w.trs[icount - 1], 1, icount);
      if p.z < 0.0 {
        notgone := false;
        returned := true;
      }
      if p.z > g.length {
        acc := acc.(escaped := acc.escaped + 1, exitVzTotal := acc.exitVzTotal + p.vz);
        escaped, exitVz := true, p.vz;
        notgone := false;
      }
      if icount > MaxIterations {
        notgone := false;
        acc := acc.(lost := acc.lost + 1);
        lost := true;
      }
      if icount > acc.maxCount {
        acc := acc.(maxCount := icount);
      }
    }
    fate := Fate(launchVz, icount, escaped, exitVz, returned, lost);
  }

  /** Appending one more particle's trace, which starts where the last one
      ended, to a run of traces keeps every trace in place. */
  lemma TracedExtended(g: Geometry, m: Libm, rng: nat -> real, fates: seq<Fate>, starts: seq<nat>, walks: seq<Path>, f: Fate, k: nat, w: Path)
    requires |fates| == |walks| && |starts| == |fates| + 1
    requires forall i :: 0 <= i < |fates| ==> Traced(g, m, rng, starts[i], fates[i], starts[i + 1], walks[i])
    requires Traced(g, m, rng, starts[|fates|], f, k, w)
    ensures var fates', starts', walks' := fates + [f], starts + [k], walks + [w];
      forall i :: 0 <= i < |fates'| ==> Traced(g, m, rng, starts'[i], fates'[i], starts'[i + 1], walks'[i])
  {
    var fates', starts', walks' := fates + [f], starts + [k], walks + [w];
    forall i | 0 <= i < |fates'|
      ensures Traced(g, m, rng, starts'[i], fates'[i], starts'[i + 1], walks'[i])
    {
      assert starts'[i] == starts[i];
      if i < |fates| {
        assert fates'[i] == fates[i] && starts'[i + 1] == starts[i + 1] && walks'[i] == walks[i];
      }
    }
  }

  /** The routine `clausing`. It normalises the geometry, traces `npart`
      particles one after the other with the draws of `rng` in order, and
      returns the ratios of the final tally. One fate per particle is recorded
      alongside, with the draw index the particle starts from (0 for the
      first, and for each next one the index the previous trace ended at) and
      the path its trace took, so every fate is the one `Trace` produces from
      those draws. Every fate is admissible and the results are those of the
      tally of all fates: with at least one particle the Clausing factor lies
      in [0, rBottom^2] and the longest trace took between 1 and 1001
      iterations; the longest trace bounds every particle's count, at most
      `npart` particles escape and at most `npart` are lost, and the density
      correction exists exactly when some particle escaped, and is then
      positive. */
  method Run(params: ClausingParams, m: Libm, rng: nat -> real) returns (res: ClausingResults, ghost fates: seq<Fate>, ghost starts: seq<nat>, ghost walks: seq<Path>)
    requires ValidParams(params)
    requires Lawful(m) && InUnitInterval(rng)
    ensures |fates| == |walks| == params.npart && |starts| == params.npart + 1
    ensures starts[0] == 0
    ensures forall i :: 0 <= i < |fates| ==>
      Traced(Normalize(params), m, rng, starts[i], fates[i], starts[i + 1], walks[i])
    ensures forall i :: 0 <= i < |fates| ==> Admissible(fates[i])
    ensures res == Results(Normalize(params), params.npart, Fold(fates))
    ensures res.clausingFactor.Some? <==> params.npart >= 1
    ensures res.clausingFactor.Some? ==>
      0.0 <= res.clausingFactor.value <= Sq(Normalize(params).rBottom)
    ensures params.npart >= 1 ==> 1 <= res.maxCount <= MaxIterations + 1
    ensures params.npart == 0 ==> res.maxCount == 0
    ensures forall i :: 0 <= i < |fates| ==> fates[i].count <= res.maxCount
    ensures Fold(fates).escaped <= params.npart && res.nlost <= params.npart
    ensures res.denCor.Some? <==> Fold(fates).escaped >= 1
    ensures res.denCor.Some? ==> res.denCor.value > 0.0
  {
    var g := Normalize(params);
    NormalizeWellFormed(params);
    var acc := Empty;
    var k: nat := 0;
    fates, starts, walks := [], [0], [];
    for ipart := 0 to params.npart
      invariant |fates| == |walks| == ipart && |starts| == ipart + 1
      invariant starts[0] == 0 && starts[ipart] == k
      invariant forall i :: 0 <= i < ipart ==> Traced(g, m, rng, starts[i], fates[i], starts[i + 1], walks[i])
      invariant forall i :: 0 <= i < |fates| ==> Admissible(fates[i])
      invariant acc == Fold(fates)
    {
      ghost var fate, w;
      acc, k, fate, w := Trace(g, m, rng, k, acc);
      ghost var before := fates;
      TracedExtended(g, m, rng, fates, starts, walks, fate, k, w);
      fates, starts, walks := fates + [fate], starts + [k], walks + [w];
      assert fates[..|fates| - 1] == before;
    }
    res := Results(g, params.npart, acc);
    FoldCounts(fates);
    FoldMaxCount(fates);
    FoldAdmissible(fates);
  }

  /** With a closed screen hole (rBottom = 0) below a stage of positive length,
      an iteration from a state on the base keeps it on the base: the
      bottom-wall re-emission stays on the axis, and the other two tests do
      not fire. */
  lemma StepOnAxis(g: Geometry, m: Libm, rng: nat -> real, k: nat, p: Particle, q: Particle, k': nat, tr: Trail)
    requires WellFormed(g) && g.rBottom == 0.0 && g.lenBottom > 0.0
    requires p.z == 0.0 && Stepped(g, m, rng, k, p, q, k', tr)
    ensures q.z == 0.0
  {
    PinnedOnAxis(g, tr.afterBottom);
  }

  /** With a closed screen hole below a stage of positive length, every trace
      stays on the base for all its iterations, so the particle neither returns
      nor escapes and is lost after 1001 iterations. */
  lemma {:induction false} LostOnAxis(g: Geometry, m: Libm, rng: nat -> real, k0: nat, f: Fate, k: nat, w: Path)
    requires WellFormed(g) && g.rBottom == 0.0 && g.lenBottom > 0.0
    requires Admissible(f) && Traced(g, m, rng, k0, f, k, w)
    ensures f.lost && !f.escaped && !f.returned && f.count == MaxIterations + 1
  {
    PinnedOnAxis(g, w.states[0]);
    var i := 0;
    while i < f.count
      invariant 0 <= i <= f.count && w.states[i].z == 0.0
    {
      assert StepAt(g, m, rng, w, i);
      StepOnAxis(g, m, rng, w.ks[i], w.states[i], w.states[i + 1], w.ks[i + 1], w.trs[i]);
      i := i + 1;
    }
  }

  /** A run with a closed screen hole (rScreen = 0) and a bottom stage of
      positive length loses every particle: the Clausing factor is 0, the
      longest trace took 1001 iterations, `nlost = npart`, and the density
      correction has no value (the source divides 0 by 0 there). */
  lemma ClosedScreen(params: ClausingParams, m: Libm, rng: nat -> real, fates: seq<Fate>, starts: seq<nat>, walks: seq<Path>)
    requires ValidParams(params) && params.rScreen == 0.0 && params.thickScreen + params.gridSpace > 0.0
    requires params.npart >= 1
    requires |fates| == |walks| == params.npart && |starts| == params.npart + 1
    requires forall i :: 0 <= i < |fates| ==> Admissible(fates[i])
    requires forall i :: 0 <= i < |fates| ==>
      Traced(Normalize(params), m, rng, starts[i], fates[i], starts[i + 1], walks[i])
    ensures Results(Normalize(params), params.npart, Fold(fates))
         == ClausingResults(Some(0.0), MaxIterations + 1, params.npart, None)
  {
    var g := Normalize(params);
    NormalizeWellFormed(params);
    assert g.lenBottom > 0.0;
    forall i | 0 <= i < |fates|
      ensures fates[i].lost && !fates[i].escaped && fates[i].count == MaxIterations + 1
    {
      LostOnAxis(g, m, rng, starts[i], fates[i], starts[i + 1], walks[i]);
    }
    FoldAllLost(fates);
  }

  /** The results computed from the final tally (src/main.rs:193-203). */
  function Results(g: Geometry, npart: nat, t: Tally): ClausingResults {
    if npart == 0 then ClausingResults(None, t.maxCount, t.lost, None)
    else
      ClausingResults(
        Some(ClausingFactor(g.rBottom, t.escaped, npart)),
        t.maxCount,
        t.lost,
        DensityCorrection(t.launchVzTotal, t.exitVzTotal, t.escaped, npart))
  }
}
