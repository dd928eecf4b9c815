# Clausing factor tracer

A Dafny model of `clausing` (src/main.rs:26-204). This Monte Carlo routine
estimates the Clausing factor of a two-grid ion-thruster aperture: the
probability that a neutral atom entering the screen-grid hole passes through
the accel-grid hole. The aperture is two coaxial cylinders. The bottom one (the
screen hole plus the gap) has radius `r_bottom` and spans `[0, len_bottom]`. The
top one (the accel hole) has radius 1 and spans `[len_bottom, length]`, with all
lengths in units of the accel radius.

Each particle is launched from the base and flies in straight lines. It is
re-emitted diffusely (cosine law) whenever it hits the bottom wall, the upstream
face of the accel grid or the top wall. Its trace ends when it:
- falls back through the base,
- leaves through the top, or
- has used more than 1000 iterations (it is then counted as lost).

The routine reports four results:
- the Clausing factor `r_bottom² · escaped / npart`,
- the longest trace `max_count`,
- the number of lost particles `nlost`,
- the downstream density correction `den_cor`, the mean launch `vz` over the mean exit `vz`.

The model keeps the source's form: the routine is imperative, with two loops and
a handful of accumulators. The modules are:
- `Geometry`: the parameter record and its normalisation (src/main.rs:29-33).
- `Emission`: the cosine-law direction sampling that the source repeats four times.
- `Trajectory`: the straight flight between two walls, and the time-to-radius
  formula the source repeats six times.
- `Tracer`: the particle state and one method per surface event:
  - the launch,
  - the bottom-wall re-emission,
  - the test at the stage plane, with its two outcomes,
  - the top-wall re-emission, with its discriminant fallback.
- `Tally`: the accumulators and the two final ratios.
- `Clausing`: the routine itself.
  - `Run` is the particle loop.
  - `Trace` is one particle's `while notgone` loop, with the exit checks updating
    the accumulators exactly where the source does.
  - `Step` is one iteration: the methods `BottomWallTest`, `StagePlaneTest` and
    `TopWallTest`, in the source's order, each a guarded test that leaves the
    state and the draw index alone when its guard fails.

The floating-point operations are modelled as follows:
- `f64` values are reals.
- `sqrt`, `cos` and `sin` are passed in as a `Libm` record. The model relies on
  two laws of theirs: `sqrt` gives the non-negative root of a non-negative number,
  and `cos² + sin² = 1`.
- The random generator is a stream of draws `rng: nat -> real` in `[0, 1)`,
  consumed in the source's order.
- Every square root in the model requires a non-negative argument. So the
  proofs show that, in exact arithmetic, the tracer never takes the root of a
  negative number and never divides by zero.

`Sq(x)` is the square `x.powi(2)`. It is written as `x * Same(x)` with the
identity `Same`, which keeps the solver's non-linear reasoning on a short
leash. Its meaning is the plain square.

## Model

| member | source | states |
|---|---|---|
| `Numerics.Sqrt` | src/main.rs:47 | the square root is taken only of a non-negative number and is the library's value there, its non-negative root |
| `Geometry.Normalize` | src/main.rs:29-33 | each normalised length times `r_accel` is the physical length; `length = len_top + len_bottom` |
| `Geometry.NormalizeWellFormed` | src/main.rs:30-33 | a positive `r_accel` and non-negative lengths give `r_bottom >= 0` and `0 <= len_bottom <= length` |
| `Geometry.NormalizeUnitFree` | src/main.rs:30-33 | the normalised geometry does not change when every physical length is scaled by the same non-zero factor |
| `Emission.ClampedCosine` | src/main.rs:47-50 | `0 < costheta <= 0.99999`; `costheta² <= 1 - u`, with equality unless the clamp applied; the value is `min(sqrt(1 - u), 0.99999)` |
| `Emission.CosineLaw` | src/main.rs:47-57 | the direction is the one the source builds from the two draws: normal part `min(sqrt(1 - u1), 0.99999)`, whose square is at most `1 - u1`, and tangential parts `cos(2π u2)·sinθ` and `sin(2π u2)·sinθ`; it is a unit vector whose tangential part has squared length at least `1 - 0.99999² > 0` |
| `Trajectory.Speed2Positive` | src/main.rs:60-61 | the divisor `vx² + vy²` is positive when `vx != 0` |
| `Trajectory.DiscFromInside` | src/main.rs:60 | from a start `0 <= r0 <= rf` the discriminant is at least `(vx r0)²`, so its square root is defined |
| `Trajectory.TimeToRadius` | src/main.rs:60-61 | the formula's time puts the flight exactly on the circle of radius `rf`, is the later of the two crossings, and is not negative from inside the circle |
| `Trajectory.CrossesCircle` | src/main.rs:104-106 | a flight that is within radius `rf` at some time has a non-negative discriminant for `rf` |
| `Trajectory.LaterCrossing` | src/main.rs:101-107 | the later crossing of a circle comes no earlier than any time at which the flight is inside it |
| `Trajectory.InsideBetween` | src/main.rs:96-99 | a flight that starts inside radius `rf` and ends on it stays inside it in between, so the radius at the stage plane is at most `r_bottom` |
| `Tracer.LaunchRadius` | src/main.rs:44 | `0 <= r0 <= r_bottom` and `r0² = r_bottom² u`, i.e. area-weighted over the base disc |
| `Tracer.Launch` | src/main.rs:43-62 | `Launched`: the particle starts at `z0 = 0` at a radius in `[0, r_bottom]` with `r0² = r_bottom² u1`, with the direction drawn from `u2, u3` (`vz = costheta`, so `0 < vz <= 0.99999`), a unit vector, and its first flight ends on the bottom wall at the later crossing, which pins `t` and `z` |
| `Tracer.WallFlightLeaves` | src/main.rs:89-92 | a flight from a wall at radius `r0 > 0` heading inward that lands at the later crossing takes a positive time, so the re-emissions at src/main.rs:90-92 and 151-153 do not stop at their starting point |
| `Tracer.WallDirection` | src/main.rs:85-87 | a wall re-emission with `vx = costheta` has a unit direction and a positive divisor `vx² + vy²` |
| `Tracer.BottomWall` | src/main.rs:73-93 | `BottomWallEmitted`: the particle restarts at `(r_bottom, z)` with the direction drawn from the two draws (`vx = costheta`, `vy` and `vz` the tangential parts), and its flight ends on the bottom wall at the later crossing, which pins `t` and `z`; also `0 < vx <= 0.99999` and a unit direction; for `r_bottom > 0` the flight takes a positive time (`Tracer.WallFlightLeaves`) |
| `Tracer.CrossingTimeBounds` | src/main.rs:98 | the time to the stage plane lies within the flight and reaches the plane exactly |
| `Tracer.Cross` | src/main.rs:96-131 | `Crossed`: the flight moves upward; it bounces exactly when its radius at the plane exceeds 1; passing through changes only `rf`, `t` and `z` and lands on the top wall at or above the plane; a bounce re-emits it from the grid face at that radius, which lies in `(1, r_bottom]`, with the drawn direction and `vz = -costheta`, aimed at the bottom wall |
| `Tracer.ContinueUpward` | src/main.rs:101-107 | only `rf`, `t` and `z` change; the new flight lands on radius 1 no earlier than the crossing |
| `Tracer.GridFace` | src/main.rs:108-130 | the particle restarts at `(r, len_bottom)` with the drawn direction and `vz = -costheta`, so `-0.99999 <= vz < 0`, a unit vector, and its flight ends on the bottom wall at the later crossing, at or below the plane |
| `Tracer.BottomWallTime` | src/main.rs:155-166 | the time is positive; with a non-negative discriminant the flight lands on radius `r_bottom` at the later crossing (the `+sqrt` root); a negative discriminant happens only when `r_bottom < 1` and gives the time of closest approach to the axis |
| `Tracer.TopWall` | src/main.rs:133-168 | `TopWallEmitted`: the first aim restarts at `(1, z)` with the drawn direction (`vx = costheta`) and lands on the top wall at the later crossing; it is the new state when it ends at or above `len_bottom`; otherwise the particle is moving downward and only `rf = r_bottom`, `t` and `z` are redone: the later crossing with a non-negative discriminant, the closest approach to the axis (only for `r_bottom < 1`) with a negative one |
| `Tracer.TopWallFlight` | src/main.rs:135-153 | the first aim after a top-wall re-emission keeps the sampled direction and lands on radius 1 at the far crossing, not at its starting point |
| `Tracer.TowardsBottomWall` | src/main.rs:155-167 | a top-wall flight that would end below the plane moves downward, and only `rf`, `t` and `z` change when it is re-aimed at the bottom wall; with a non-negative discriminant it lands on `r_bottom` at the later crossing (the `+sqrt` root) |
| `Tally.FoldConcat` | src/main.rs:35-39 | the tally of two batches of particles is the merge of their tallies: sums add, `max_count` takes the larger |
| `Tally.FoldCounts` | src/main.rs:175-184 | `iescape <= npart` and `nlost <= npart` |
| `Tally.FoldMaxCount` | src/main.rs:186-188 | `max_count` bounds every particle's iteration count and equals one of them |
| `Tally.FoldAdmissible` | src/main.rs:64-188 | the launch sum is positive; the exit sum is not negative and is positive exactly when some particle escaped; `1 <= max_count <= 1001` with at least one particle |
| `Tally.ClausingFactor` | src/main.rs:193 | the factor times `npart` is `r_bottom² iescape`; it lies in `[0, r_bottom²]` when `iescape <= npart`, equals `r_bottom²` when every particle escaped, and is positive exactly when some escaped and `r_bottom != 0` |
| `Tally.DensityCorrection` | src/main.rs:194-196 | defined exactly when some particle escaped with a non-zero exit sum; then `den_cor · vztot · npart = vz0tot · iescape`, and it is positive when both sums are |
| `Clausing.EscapesUpward` | src/main.rs:175-177 | a particle that leaves through the top moves upward with `0 < vz <= 1` |
| `Clausing.LaunchIsSound` | src/main.rs:43-62 | the launch state starts on the base inside the tube and its flight ends at or above the base |
| `Clausing.BottomWallTest` | src/main.rs:73-93 | the bottom-wall re-emission happens exactly when the flight ends below `len_bottom`, with the next two draws; otherwise nothing changes; the carried state stays sound |
| `Clausing.StagePlaneTest` | src/main.rs:96-131 | the stage-plane test fires exactly when the flight left from below `len_bottom` and ends at or above it, and takes two draws only on a bounce; otherwise nothing changes |
| `Clausing.TopWallTest` | src/main.rs:134-168 | the top-wall re-emission happens exactly when the flight ends in `[len_bottom, length]`, with the next two draws; otherwise nothing changes; afterwards the particle has escaped upward or is in a sound state |
| `Clausing.Step` | src/main.rs:72-168 | the three tests run in the source's order, each on the state the previous one left and from the draw index it left; a test whose guard fails changes neither; a test that fires gives the state its branch's predicate pins; afterwards the particle has left through the top moving upward, or is sound: its origin lies in the tube, its direction is a unit vector, and it is aimed at the bottom wall when its origin is below the plane |
| `Clausing.Trace` | src/main.rs:43-189 | `Traced`: the trace is the launch from the next three draws followed by one `Step` per iteration, each from the state and draw index the previous one left; the particle stays inside the tube after every iteration but the last; the fate's count is the number of iterations (1 to 1001, lost exactly above 1000), its launch `vz` is the launch state's, it returned exactly when the last state ends below 0 and escaped exactly when it ends above `length`, then with that state's `vz` as exit `vz`; the accumulators grow by this fate (`vz0tot` by the launch `vz`, `iescape` and `vztot` only on escape, `nlost` only on loss, `max_count` to at least the count) |
| `Clausing.Run` | src/main.rs:26-204 | each particle's fate is the one `Trace` gives from the draw index the previous particle ended at (0 for the first); every fate is admissible, and the results are the ratios of their tally; with `npart >= 1` the factor lies in `[0, r_bottom²]` and `1 <= max_count <= 1001`; `max_count` bounds every count; `iescape, nlost <= npart`; `den_cor` exists exactly when some particle escaped, and is then positive |
| `Clausing.ClosedScreen` | src/main.rs:26-204 | with `r_screen = 0` and `thick_screen + grid_space > 0` every traced particle stays on the axis at height 0 and is lost: the factor is 0, `max_count = 1001`, `nlost = npart`, and `den_cor` has no value (the source's 0/0) |
| `Clausing.LostOnAxis` | src/main.rs:69-189 | with `r_bottom = 0` and `len_bottom > 0` a traced particle neither returns nor escapes and takes 1001 iterations |
| `Clausing.StepOnAxis` | src/main.rs:73-131 | with `r_bottom = 0` and `len_bottom > 0` an iteration from height 0 ends at height 0 |
| `Tracer.PinnedOnAxis` | src/main.rs:89-92 | a flight aimed at a bottom wall of radius 0 lands at time 0, where it started |
| `Tally.FoldAllLost` | src/main.rs:181-188 | when every particle is lost after 1001 iterations without escaping, `nlost = npart`, `iescape = 0`, `vztot = 0` and `max_count = 1001` |
| `Clausing.ExtendWalk` | src/main.rs:69-72 | a path of iterations extended by one more `Step` from its last state and draw index is still a path |

## Left out

- `main` and its printing (src/main.rs:206-228) and the test module are not modelled.
- The random generator is a parameter. Only the range `[0, 1)` of its draws is
  assumed. Their uniformity and independence, and hence every statistical claim,
  are not modelled: the factor trending to known values, the noise shrinking as
  `1/sqrt(npart)`, and the test's `clausing_factor > 0`, which holds only with
  high probability.
- IEEE `f64` rounding, NaN and infinities are not modelled; reals stand in for
  `f64`. A rounding error that made a discriminant slightly negative would give
  NaN in the source, and this is not captured.
- `sqrt`, `cos`, `sin` and `PI` are not computed: the first three are parameters
  obeying the laws above, and `PI` is its decimal constant.
- Clausing.Run: requires a positive `r_accel` and non-negative lengths. The
  source does not check its inputs; with other values it divides by zero or
  traces a geometry without meaning.
- Clausing.Run: where the source returns 0/0 (NaN), the model has no value:
  the Clausing factor and `den_cor` when `npart = 0`, and `den_cor` when no
  particle escaped.
- Tally.DensityCorrection: also has no value when the exit sum is zero but some
  particle escaped; the source gives infinity there. `Run` proves that this
  cannot happen.
- The particle's state is a value replaced at every event rather than eight
  variables assigned one by one. The accumulators are a `Tally` record threaded
  through `Trace` rather than five separate variables.

Three behaviours of the code a reader may not expect:
- A particle can be counted both as escaped and as lost. This happens when its
  1001st iteration ends above the top. So `iescape + nlost <= npart` is not a
  property of the code, and `Admissible` allows the two together.
- The cutoff test `icount > 1000` runs after the iteration. A lost particle has
  therefore made 1001 iterations, not 1000, and `max_count` can reach 1001.
- `npart = 0` and `r_accel = 0` are not rejected by the code.
