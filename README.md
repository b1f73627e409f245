# Flocking core in Dafny

A Dafny model of the flocking engine of `ha-shine/flocking`, a Rust boids simulation, with proofs about it. The engine lives in `src/lib.rs` and has two parts.

- **Boid rules** (module `Boids`, `boids.dfy`).
  - A boid is a position `(x, y)` and a velocity `(vx, vy)`.
  - `align`, `cohere` and `separate` each scan the whole slice of boids. They use only the boids whose distance `d` satisfies `0 < d < radius`.
  - `align` averages those boids' velocities.
  - `cohere` averages their positions and subtracts the boid's own position.
  - `separate` sums `own position − neighbour position` and does not divide.
  - `flock` adds the three results to the boid's velocity, weighted 1.0, 0.2 and 1.0. It then clips each axis to `[-MAX_SPEED, MAX_SPEED]`.
- **Simulation state** (module `Simulation`, `simulation.dfy`).
  - `App` holds the boids, the canvas width and height, and the number of updates per second (`ups`).
  - `App::new` creates `count` random boids.
  - `App::update` is one tick. For each boid in index order it computes the new velocity with `flock`, moves the position by `velocity / ups`, wraps the position with `stay_in_view`, and writes the boid back into the vector.

The shape of the Dafny follows the source:
- The three scanning rules are methods with loops (`Align`, `Cohere`, `Separate`). Each is proved equal to a recursive specification function (`Alignment`, `Cohesion`, `Separation`).
- `flock` is the method `Flock`, specified by `FlockVelocity`.
- `App` is a class over an array of boids. Its `Update` loop is proved equal to `Tick`, a function that steps the boids one at a time in place.

All further properties are lemmas about the specification functions.

Modelling choices:
- `f64` values are Dafny `real`s.
- `distance_to` returns `sqrt(dx² + dy²)`. The model keeps only the squared distance `DistanceSq` and tests `0 < d² < radius²`. `SquaredTestAgrees` shows this is the same test as `0 < d < radius`.
- The four `rand::random::<f64>()` draws per new boid are a parameter, a `Draw` value. `ValidDraw` states that each draw lies in `[0, 1)`.
- `Boid::new` receives `width as i32`. A `u32` width of 2³¹ or more turns negative there. `AsI32` models that cast.

Two behaviours of the code are easy to misread, and the model follows the code in both:
- **Update order.** Many boids designs use a two-phase tick: every boid reads the state from before the tick, then all boids are committed together. This code updates `self.boids[i]` in place before boid `i + 1` scans the slice (`src/lib.rs:193-210`). So boid `i` sees the new state of boids `0 .. i-1` and the old state of the rest.
  - `Tick` and `App.Update` model this in-place order.
  - `InPlaceOrder` states it.
  - `InPlaceIsNotSnapshot` gives a two-boid flock where the in-place tick gives a different result from `SnapshotTick`, the two-phase tick.
- **Canvas bound.** A reader might expect positions in `[0, width) × [0, height)`. `stay_in_view` does not wrap a coordinate equal to the width or height (`src/lib.rs:218-228`). The proved invariant is therefore `[0, width] × [0, height]`, and `FarEdgeIsOnCanvas` shows the edge case.

## Model

| member | source | states |
|---|---|---|
| Boids.LimitSpeed | src/lib.rs:56-64 | the result lies in [-MaxSpeed, MaxSpeed]; a value already in range is returned unchanged; a value above or below is clipped to that bound |
| Boids.LimitSpeedIsNearest | src/lib.rs:56-64 | the clipped value is the point of [-MaxSpeed, MaxSpeed] nearest the input, and clipping twice equals clipping once |
| Boids.DistanceSqSign | src/lib.rs:129-134 | DistanceSq, `distance_to` without the square root (dx² + dy²), is never negative, and it is zero exactly when both boids have the same position (so a boid is at distance 0 from itself) |
| Boids.DistanceSymmetric | src/lib.rs:129-134 | the distance from a to b equals the distance from b to a |
| Boids.SquaredTestAgrees | src/lib.rs:129-134 | for a distance d ≥ 0 and a positive radius, `0 < d < radius` holds exactly when `0 < d² < radius²`, which justifies testing squared distances |
| Boids.Count | src/lib.rs:69-77 | the number of neighbours is at most the length of the slice |
| Boids.CountZero | src/lib.rs:66-86 | the count is zero exactly when no boid lies strictly inside the radius, and then both sums are (0, 0) |
| Boids.CountPositive | src/lib.rs:73-77 | one boid strictly inside the radius makes the count positive |
| Boids.Align | src/lib.rs:66-86 | the loop returns Alignment: the mean velocity of the boids with 0 < d < ALIGNMENT_RADIUS, or (0, 0) when there are none |
| Boids.Cohere | src/lib.rs:88-111 | the loop returns Cohesion: the mean position of the boids with 0 < d < COHESION_RADIUS minus the boid's own position, or (0, 0) when there are none |
| Boids.Separate | src/lib.rs:113-126 | the loop returns Separation: the unnormalised sum of own position minus neighbour position over the boids with 0 < d < SEPARATION_RADIUS |
| Boids.Flock | src/lib.rs:41-53 | the result is FlockVelocity; each axis lies in [-MaxSpeed, MaxSpeed]; an axis of `v + 1.0·align + 0.2·cohere + 1.0·separate` that is already within the limit is returned unchanged |
| Boids.CountSplit | src/lib.rs:71-78 | the neighbour count of a concatenation of slices is the sum of the counts of the parts |
| Boids.VelocitySumSplit | src/lib.rs:71-78 | the velocity sum of a concatenation is the sum of the parts' velocity sums |
| Boids.PositionSumSplit | src/lib.rs:93-100 | the position sum of a concatenation is the sum of the parts' position sums |
| Boids.OffsetSumSplit | src/lib.rs:117-123 | the separation sum of a concatenation is the sum of the parts' separation sums |
| Boids.AppendNonNeighbour | src/lib.rs:71-78 | appending a boid that is not strictly inside the radius changes neither the count nor any sum |
| Boids.CountIgnoresNonNeighbour | src/lib.rs:73-77 | inserting a non-neighbour anywhere in the slice leaves the count unchanged |
| Boids.VelocitySumIgnoresNonNeighbour | src/lib.rs:73-76 | inserting a non-neighbour anywhere leaves the velocity sum unchanged |
| Boids.PositionSumIgnoresNonNeighbour | src/lib.rs:95-98 | inserting a non-neighbour anywhere leaves the position sum unchanged |
| Boids.OffsetSumIgnoresNonNeighbour | src/lib.rs:119-121 | inserting a non-neighbour anywhere leaves the separation sum unchanged |
| Boids.SelfExcluded | src/lib.rs:66-126 | a boid at the same position, including the boid itself, can be inserted at any index of the slice without changing align, cohere or separate |
| Boids.OffsetSumOfNone | src/lib.rs:117-125 | with no boid strictly inside the radius the separation sum is (0, 0) |
| Boids.EmptyNeighbourhood | src/lib.rs:66-126 | each rule returns (0, 0) when no boid lies strictly inside its radius |
| Boids.IsolatedBoidKeepsVelocity | src/lib.rs:41-53 | a boid with no other boid strictly inside the largest radius keeps its own velocity, clipped per axis |
| Boids.SeparationFromRight | src/lib.rs:113-126 | if every neighbour is to the right of the boid, the x-component of separation is ≤ 0, and < 0 once there is a neighbour |
| Boids.SeparationFromLeft | src/lib.rs:113-126 | if every neighbour is to the left, the x-component is ≥ 0, and > 0 once there is a neighbour |
| Boids.SeparationPair | src/lib.rs:113-126 | two boids closer than SEPARATION_RADIUS, with b at larger x than a, in a flock whose members all sit at a's or b's position: separation pushes a left (x < 0) and b right (x > 0) |
| Boids.VelocitySumBetween | src/lib.rs:71-78 | if every neighbour's velocity components lie in [lo, hi], the velocity sum lies between count·lo and count·hi on each axis |
| Boids.PositionSumBetween | src/lib.rs:93-100 | the same bound for the position sum |
| Boids.AlignmentBetween | src/lib.rs:66-86 | align is a mean: if every neighbour's velocity components lie in [lo, hi] and a neighbour exists, both components of align lie in [lo, hi] |
| Boids.CohesionBetween | src/lib.rs:88-111 | cohere steers towards a mean: the boid's position plus the cohesion vector lies in the box [lo, hi]² that holds every neighbour's position |
| Boids.NearImpliesWithin | src/lib.rs:7-13 | a boid strictly inside SEPARATION_RADIUS (35) is strictly inside ALIGNMENT_RADIUS and COHESION_RADIUS (both 56) |
| Boids.OneNeighbourAlignment | src/lib.rs:66-86 | with a single neighbour, align is that neighbour's velocity |
| Boids.OneNeighbourCohesion | src/lib.rs:88-111 | with a single neighbour, cohere is the offset from the boid to that neighbour |
| Boids.OneNeighbourSeparation | src/lib.rs:113-126 | with a single neighbour, separate is the offset from that neighbour to the boid |
| Boids.PairSteering | src/lib.rs:41-47 | for two boids closer than SEPARATION_RADIUS, in either order, the unclipped velocity is own velocity + other's velocity + 0.2·(offset to other) − (offset to other) |
| Simulation.AsI32 | src/lib.rs:165 | `width as i32` keeps widths below 2³¹, makes larger ones negative, and always agrees with the u32 modulo 2³² |
| Simulation.NewBoid | src/lib.rs:29-37 | `Boid::new(width as i32, height as i32)`: x, y, vx, vy are the four draws in that order times the cast width, the cast height, BOID_SIZE and BOID_SIZE; from draws in [0, 1) the velocity components lie in [0, BOID_SIZE), and the position lies in [0, width) × [0, height) when each of width and height is positive and below 2³¹ |
| Simulation.WideCanvasNewBoid | src/lib.rs:164-166 | with a width of 2³¹ or more the cast turns negative and the new boid starts at x ≤ 0 |
| Simulation.Wrap | src/lib.rs:214-231 | a coordinate in [0, extent] is left unchanged; any coordinate in [-extent, 2·extent] lands in [0, extent]; the coordinate moves by 0 or exactly one extent |
| Simulation.FarEdgeIsOnCanvas | src/lib.rs:218-228 | for every positive extent, a coordinate equal to the extent is not wrapped, 2·extent lands exactly on the far edge, and 0 stays 0 |
| Simulation.WrapIsNotModulo | src/lib.rs:218-222 | the wrap is a single add or subtract, not a modulo: 250 on a 100-wide canvas becomes 150, and -150 becomes -50 |
| Simulation.StepBoid | src/lib.rs:194-209 | one iteration for one boid: the velocity is FlockVelocity (flock, clipped per axis) against the slice as it stands, so each component lies in [-MaxSpeed, MaxSpeed]; the position becomes position + velocity / ups, then wrapped on each axis, so it differs from position + velocity / ups by 0 or exactly one width (height) |
| Simulation.Partial | src/lib.rs:193-210 | after i iterations the flock has the same length and boids i .. n-1 are still untouched |
| Simulation.PrefixStable | src/lib.rs:193-210 | once iteration i has written boid i, later iterations never change boids 0 .. i-1 |
| Simulation.InPlaceOrder | src/lib.rs:193-210 | during a tick, boid i flocks with the new boids 0 .. i-1 followed by the old boids i .. n-1 (itself included) |
| Simulation.StepWritesOnlyOne | src/lib.rs:206-209 | iteration i changes no boid other than boid i |
| Simulation.SpeedBounded | src/lib.rs:192-211 | every boid the tick has already written has both velocity components in [-MaxSpeed, MaxSpeed] |
| Simulation.StepStaysInView | src/lib.rs:194-204 | a boid on the canvas stays on it after its step, provided ups > 0 and MaxSpeed / ups is at most the width and the height |
| Simulation.PartialInView | src/lib.rs:193-210 | under the same condition, a flock on the canvas stays on it through every iteration of the tick |
| Simulation.IsolatedStep | src/lib.rs:194-204 | a boid with no other boid within ALIGNMENT_RADIUS keeps its clipped velocity and moves by that velocity / ups, wrapped |
| Simulation.FirstStep | src/lib.rs:194-209 | in the two-boid example, boid 0 gets velocity (-8/5, 0) and moves to x = 749/75 |
| Simulation.SecondStep | src/lib.rs:194-209 | boid 1, flocking with the moved boid 0, gets vx = 4/375 |
| Simulation.SnapshotSecondStep | src/lib.rs:194-209 | boid 1, flocking with the old boid 0, would get vx = 8/5 |
| Simulation.TickOfPair | src/lib.rs:193-210 | the tick of the two-boid example is boid 0 moved, then boid 1 stepped against the moved boid 0 |
| Simulation.InPlaceIsNotSnapshot | src/lib.rs:193-210 | the in-place tick and the two-phase tick give boid 1 different velocities (4/375 and 8/5), so the update depends on the order of the boids |
| Simulation.App.constructor | src/lib.rs:155-169 | `count` boids, the k-th made by `Boid::new` from the k-th draws, with width, height and ups stored; from valid draws and a width and height in (0, 2³¹) the flock starts on the canvas, the starting point of Update's canvas bound |
| Simulation.App.StayInView | src/lib.rs:214-231 | each coordinate is wrapped independently, as Wrap states |
| Simulation.App.Update | src/lib.rs:192-211 | the array becomes Tick of the old array (in-place order, same length); every boid is within the speed limit; a flock on the canvas stays on it when MaxSpeed / ups fits the canvas |

## Left out

- `App::render` and the `gl` field (`src/lib.rs:137-190`): these are graphics and windowing.
- `src/main.rs` is not part of this model. It builds the window and drives the event loop.
- IEEE-754 rounding, NaN, infinities and `f64::sqrt`. Values are exact reals, and distance tests compare squared distances.
- Simulation.App.Update: requires `ups > 0`. With `ups == 0` the Rust code divides by `0.0` and produces infinities or NaN, which reals cannot represent.
- The `u32`/`u64` → `f64` casts of width, height and ups are taken as exact. Every `u32` is exact in `f64`. A `u64` above 2⁵³ can round.
- Randomness: `rand::random::<f64>()` is replaced by the caller-supplied `Draw` values.
- Simulation.App.constructor: the Rust `Vec` is grown by `push`. The model allocates an array of `count` boids and fills it in the same order, since the vector's length never changes afterwards.
- The `UpdateArgs` and `RenderArgs` parameters are not modelled. `update` ignores its argument.
