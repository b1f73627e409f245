/**
 * The per-boid steering rules of the flocking simulation: speed clipping,
 * distance, the three neighbour rules (alignment, cohesion, separation) and
 * their weighted combination into a new velocity.
 *
 * The source's `f64` values are modelled as `real`. The source compares the
 * Euclidean distance `sqrt(dx*dx + dy*dy)` against `0 < d < radius`; here the
 * squared distance is compared against `0 < d2 < radius*radius`, which the
 * lemma `SquaredTestAgrees` shows to be the same test.
 */
module Boids {

  // Configuration constants of the simulation.
  const BoidSize: real := 7.0
  const MaxSpeed: real := BoidSize * 4.0

  const CohesionRadius: real := BoidSize * 8.0
  const CohesionWeight: real := 0.2

  const AlignmentRadius: real := BoidSize * 8.0
  const AlignmentWeight: real := 1.0

  const SeparationRadius: real := BoidSize * 5.0
  const SeparationWeight: real := 1.0

  /** A pair of reals, used for the `(f64, f64)` results of the rules. */
  datatype Vec2 = Vec2(x: real, y: real)
  {
    function Plus(o: Vec2): Vec2 { Vec2(x + o.x, y + o.y) }
    function Minus(o: Vec2): Vec2 { Vec2(x - o.x, y - o.y) }
  }

  const Zero: Vec2 := Vec2(0.0, 0.0)

  /** One boid: a position (x, y) and a velocity (vx, vy). */
  datatype Boid = Boid(x: real, y: real, vx: real, vy: real)
  {
    function Position(): Vec2 { Vec2(x, y) }
    function Velocity(): Vec2 { Vec2(vx, vy) }
  }

  function Abs(r: real): real { if r < 0.0 then -r else r }

  /** Clips one velocity component to [-MaxSpeed, MaxSpeed]. */
  function LimitSpeed(v: real): (r: real)
    ensures -MaxSpeed <= r <= MaxSpeed
    ensures -MaxSpeed <= v <= MaxSpeed ==> r == v
    ensures v > MaxSpeed ==> r == MaxSpeed
    ensures v < -MaxSpeed ==> r == -MaxSpeed
  {
    if v > MaxSpeed then MaxSpeed
    else if v < -MaxSpeed then -MaxSpeed
    else v
  }

  /** Clipping is the projection onto [-MaxSpeed, MaxSpeed]: no speed in range is nearer to v. */
  lemma LimitSpeedIsNearest(v: real, w: real)
    requires -MaxSpeed <= w <= MaxSpeed
    ensures Abs(LimitSpeed(v) - v) <= Abs(w - v)
    ensures LimitSpeed(LimitSpeed(v)) == LimitSpeed(v)
  {
  }

  /**
   * Products and squares go through these two functions so that the solver
   * treats `Sq(dx)` as one term; the lemmas below give the facts about them.
   */
  function Mul(a: real, b: real): real { a * b }
  function Sq(r: real): real { Mul(r, r) }

  /** The square of the Euclidean distance between the positions of a and b. */
  function DistanceSq(a: Boid, b: Boid): real
  {
    Sq(a.x - b.x) + Sq(a.y - b.y)
  }

  lemma MulPos(a: real, b: real)
    requires (a > 0.0 && b > 0.0) || (a < 0.0 && b < 0.0)
    ensures Mul(a, b) > 0.0
  {
  }

  lemma SqSign(r: real)
    ensures Sq(r) >= 0.0
    ensures r != 0.0 ==> Sq(r) > 0.0
    ensures r == 0.0 ==> Sq(r) == 0.0
  {
    if r != 0.0 {
      MulPos(r, r);
    }
  }

  /**
   * The squared distance is never negative, and it is positive exactly when
   * the two positions differ: a boid is at distance 0 from itself and from
   * any boid at the same position.
   */
  lemma DistanceSqSign(a: Boid, b: Boid)
    ensures DistanceSq(a, b) >= 0.0
    ensures DistanceSq(a, b) > 0.0 <==> a.x != b.x || a.y != b.y
  {
    SqSign(a.x - b.x);
    SqSign(a.y - b.y);
  }

  /** Distance is symmetric. */
  lemma DistanceSymmetric(a: Boid, b: Boid)
    ensures DistanceSq(a, b) == DistanceSq(b, a)
  {
    assert Sq(a.x - b.x) == Sq(b.x - a.x);
    assert Sq(a.y - b.y) == Sq(b.y - a.y);
  }

  /**
   * For a distance d >= 0 and a positive radius, the source's test
   * `0 < d < radius` holds exactly when `0 < d*d < radius*radius`.
   */
  lemma SquaredTestAgrees(d: real, radius: real)
    requires d >= 0.0 && radius > 0.0
    ensures (0.0 < d < radius) <==> (0.0 < d * d < radius * radius)
  {
    if 0.0 < d < radius {
      assert d * d < d * radius < radius * radius;
    }
    if d >= radius {
      assert d * d >= d * radius >= radius * radius;
    }
  }

  /** b counts as a neighbour of boid for a rule with the given radius. */
  predicate Within(boid: Boid, b: Boid, radius: real)
  {
    var d := DistanceSq(boid, b);
    0.0 < d && d < radius * radius
  }

  /** No boid of the slice counts as a neighbour of boid for the given radius. */
  predicate NoneWithin(boid: Boid, boids: seq<Boid>, radius: real)
  {
    forall k :: 0 <= k < |boids| ==> !Within(boid, boids[k], radius)
  }

  /** Number of neighbours of boid in the slice. */
  function Count(boid: Boid, boids: seq<Boid>, radius: real): (n: nat)
    ensures n <= |boids|
  {
    if boids == [] then 0
    else
      var last := boids[|boids| - 1];
      Count(boid, boids[..|boids| - 1], radius) + (if Within(boid, last, radius) then 1 else 0)
  }

  /**
   * A boid has no neighbours in a slice exactly when the count is zero, and
   * then both sums are (0, 0).
   */
  lemma {:induction false} CountZero(boid: Boid, boids: seq<Boid>, radius: real)
    ensures Count(boid, boids, radius) == 0 <==> NoneWithin(boid, boids, radius)
    ensures Count(boid, boids, radius) == 0 ==>
      VelocitySum(boid, boids, radius) == Zero && PositionSum(boid, boids, radius) == Zero
  {
    if boids != [] {
      var init := boids[..|boids| - 1];
      CountZero(boid, init, radius);
      if NoneWithin(boid, boids, radius) {
        assert NoneWithin(boid, init, radius) by {
          forall k | 0 <= k < |init| ensures !Within(boid, init[k], radius) {
            assert init[k] == boids[k];
          }
        }
      }
      if Count(boid, boids, radius) == 0 {
        forall k | 0 <= k < |boids| ensures !Within(boid, boids[k], radius) {
          if k < |init| {
            assert init[k] == boids[k];
          }
        }
      }
    }
  }

  /** Sum of the velocities of boid's neighbours in the slice. */
  function VelocitySum(boid: Boid, boids: seq<Boid>, radius: real): Vec2
  {
    if boids == [] then Zero
    else
      var last := boids[|boids| - 1];
      VelocitySum(boid, boids[..|boids| - 1], radius).Plus(if Within(boid, last, radius) then last.Velocity() else Zero)
  }

  /** Sum of the positions of boid's neighbours in the slice. */
  function PositionSum(boid: Boid, boids: seq<Boid>, radius: real): Vec2
  {
    if boids == [] then Zero
    else
      var last := boids[|boids| - 1];
      PositionSum(boid, boids[..|boids| - 1], radius).Plus(if Within(boid, last, radius) then last.Position() else Zero)
  }

  /** Alignment: the mean velocity of the neighbours within AlignmentRadius, or (0, 0) if there are none. */
  function Alignment(boid: Boid, boids: seq<Boid>): Vec2
  {
    var n := Count(boid, boids, AlignmentRadius);
    var s := VelocitySum(boid, boids, AlignmentRadius);
    if n > 0 then Vec2(s.x / (n as real), s.y / (n as real)) else Zero
  }

  /** Cohesion: the mean position of the neighbours within CohesionRadius minus boid's own position, or (0, 0). */
  function Cohesion(boid: Boid, boids: seq<Boid>): Vec2
  {
    var n := Count(boid, boids, CohesionRadius);
    var s := PositionSum(boid, boids, CohesionRadius);
    if n > 0 then Vec2(s.x / (n as real) - boid.x, s.y / (n as real) - boid.y) else Zero
  }

  /** Sum of (own position - neighbour position) over boid's neighbours in the slice. */
  function OffsetSum(boid: Boid, boids: seq<Boid>, radius: real): Vec2
  {
    if boids == [] then Zero
    else
      var last := boids[|boids| - 1];
      OffsetSum(boid, boids[..|boids| - 1], radius).Plus(
        if Within(boid, last, radius) then boid.Position().Minus(last.Position()) else Zero)
  }

  /** Separation: the sum, not the mean, of (own position - neighbour position) over the neighbours within SeparationRadius. */
  function Separation(boid: Boid, boids: seq<Boid>): Vec2
  {
    OffsetSum(boid, boids, SeparationRadius)
  }

  /** The new velocity before clipping: own velocity plus the weighted rule vectors. */
  function Steering(boid: Boid, boids: seq<Boid>): Vec2
  {
    var a := Alignment(boid, boids);
    var c := Cohesion(boid, boids);
    var s := Separation(boid, boids);
    Vec2(boid.vx + a.x * AlignmentWeight + c.x * CohesionWeight + s.x * SeparationWeight,
         boid.vy + a.y * AlignmentWeight + c.y * CohesionWeight + s.y * SeparationWeight)
  }

  /** The velocity `flock` returns: Steering clipped per axis. */
  function FlockVelocity(boid: Boid, boids: seq<Boid>): Vec2
  {
    var v := Steering(boid, boids);
    Vec2(LimitSpeed(v.x), LimitSpeed(v.y))
  }

  method Align(boid: Boid, boids: seq<Boid>) returns (r: Vec2)
    ensures r == Alignment(boid, boids)
  {
    var x, y, count := 0.0, 0.0, 0.0;
    for i := 0 to |boids|
      invariant Vec2(x, y) == VelocitySum(boid, boids[..i], AlignmentRadius)
      invariant count == Count(boid, boids[..i], AlignmentRadius) as real
    {
      var b := boids[i];
      assert boids[..i + 1][..i] == boids[..i];
      var distance := DistanceSq(boid, b);
      if distance > 0.0 && distance < AlignmentRadius * AlignmentRadius {
        x := x + b.vx;
        y := y + b.vy;
        count := count + 1.0;
      }
    }
    assert boids[..|boids|] == boids;
    CountZero(boid, boids, AlignmentRadius);
    if count > 0.0 {
      x := x / count;
      y := y / count;
    }
    r := Vec2(x, y);
  }

  method Cohere(boid: Boid, boids: seq<Boid>) returns (r: Vec2)
    ensures r == Cohesion(boid, boids)
  {
    var x, y, count := 0.0, 0.0, 0.0;
    for i := 0 to |boids|
      invariant Vec2(x, y) == PositionSum(boid, boids[..i], CohesionRadius)
      invariant count == Count(boid, boids[..i], CohesionRadius) as real
    {
      var b := boids[i];
      assert boids[..i + 1][..i] == boids[..i];
      var distance := DistanceSq(boid, b);
      if distance > 0.0 && distance < CohesionRadius * CohesionRadius {
        x := x + b.x;
        y := y + b.y;
        count := count + 1.0;
      }
    }
    assert boids[..|boids|] == boids;
    CountZero(boid, boids, CohesionRadius);
    if count > 0.0 {
      x := x / count;
      y := y / count;

      x := x - boid.x;
      y := y - boid.y;
    }
    r := Vec2(x, y);
  }

  method Separate(boid: Boid, boids: seq<Boid>) returns (r: Vec2)
    ensures r == Separation(boid, boids)
  {
    var x, y := 0.0, 0.0;
    for i := 0 to |boids|
      invariant Vec2(x, y) == OffsetSum(boid, boids[..i], SeparationRadius)
    {
      var b := boids[i];
      assert boids[..i + 1][..i] == boids[..i];
      var distance := DistanceSq(boid, b);
      if distance > 0.0 && distance < SeparationRadius * SeparationRadius {
        x := x - (b.x - boid.x);
        y := y - (b.y - boid.y);
      }
    }
    assert boids[..|boids|] == boids;
    r := Vec2(x, y);
  }

  /** `flock`: combines the three rules and clips each axis; the result is always within the speed limit. */
  method Flock(boid: Boid, boids: seq<Boid>) returns (vx: real, vy: real)
    ensures Vec2(vx, vy) == FlockVelocity(boid, boids)
    ensures -MaxSpeed <= vx <= MaxSpeed && -MaxSpeed <= vy <= MaxSpeed
    ensures var s := Steering(boid, boids);
      (-MaxSpeed <= s.x <= MaxSpeed ==> vx == s.x) && (-MaxSpeed <= s.y <= MaxSpeed ==> vy == s.y)
  {
    var alignment := Align(boid, boids);
    var cohesion := Cohere(boid, boids);
    var separation := Separate(boid, boids);

    vx := boid.vx + alignment.x * AlignmentWeight + cohesion.x * CohesionWeight + separation.x * SeparationWeight;
    vy := boid.vy + alignment.y * AlignmentWeight + cohesion.y * CohesionWeight + separation.y * SeparationWeight;

    vx := LimitSpeed(vx);
    vy := LimitSpeed(vy);
  }

  // ---------------------------------------------------------------------
  // Properties of the rules
  // ---------------------------------------------------------------------

  /** The neighbour count and sums split over a concatenation of slices. */
  lemma {:induction false} CountSplit(boid: Boid, a: seq<Boid>, b: seq<Boid>, radius: real)
    ensures Count(boid, a + b, radius) == Count(boid, a, radius) + Count(boid, b, radius)
  {
    if b == [] {
      assert a + b == a;
    } else {
      var init := b[..|b| - 1];
      CountSplit(boid, a, init, radius);
      assert (a + b)[..|a + b| - 1] == a + init;
    }
  }

  lemma {:induction false} VelocitySumSplit(boid: Boid, a: seq<Boid>, b: seq<Boid>, radius: real)
    ensures VelocitySum(boid, a + b, radius) == VelocitySum(boid, a, radius).Plus(VelocitySum(boid, b, radius))
  {
    if b == [] {
      assert a + b == a;
    } else {
      var init := b[..|b| - 1];
      var last := b[|b| - 1];
      var e := if Within(boid, last, radius) then last.Velocity() else Zero;
      assert (a + b)[..|a + b| - 1] == a + init;
      assert (a + b)[|a + b| - 1] == last;
      calc {
        VelocitySum(boid, a + b, radius);
        VelocitySum(boid, a + init, radius).Plus(e);
        { VelocitySumSplit(boid, a, init, radius); }
        VelocitySum(boid, a, radius).Plus(VelocitySum(boid, init, radius)).Plus(e);
        VelocitySum(boid, a, radius).Plus(VelocitySum(boid, init, radius).Plus(e));
        VelocitySum(boid, a, radius).Plus(VelocitySum(boid, b, radius));
      }
    }
  }

  lemma {:induction false} PositionSumSplit(boid: Boid, a: seq<Boid>, b: seq<Boid>, radius: real)
    ensures PositionSum(boid, a + b, radius) == PositionSum(boid, a, radius).Plus(PositionSum(boid, b, radius))
  {
    if b == [] {
      assert a + b == a;
    } else {
      var init := b[..|b| - 1];
      var last := b[|b| - 1];
      var e := if Within(boid, last, radius) then last.Position() else Zero;
      assert (a + b)[..|a + b| - 1] == a + init;
      assert (a + b)[|a + b| - 1] == last;
      calc {
        PositionSum(boid, a + b, radius);
        PositionSum(boid, a + init, radius).Plus(e);
        { PositionSumSplit(boid, a, init, radius); }
        PositionSum(boid, a, radius).Plus(PositionSum(boid, init, radius)).Plus(e);
        PositionSum(boid, a, radius).Plus(PositionSum(boid, init, radius).Plus(e));
        PositionSum(boid, a, radius).Plus(PositionSum(boid, b, radius));
      }
    }
  }

  lemma {:induction false} OffsetSumSplit(boid: Boid, a: seq<Boid>, b: seq<Boid>, radius: real)
    ensures OffsetSum(boid, a + b, radius) == OffsetSum(boid, a, radius).Plus(OffsetSum(boid, b, radius))
  {
    if b == [] {
      assert a + b == a;
    } else {
      var init := b[..|b| - 1];
      var last := b[|b| - 1];
      var e := if Within(boid, last, radius) then boid.Position().Minus(last.Position()) else Zero;
      assert (a + b)[..|a + b| - 1] == a + init;
      assert (a + b)[|a + b| - 1] == last;
      calc {
        OffsetSum(boid, a + b, radius);
        OffsetSum(boid, a + init, radius).Plus(e);
        { OffsetSumSplit(boid, a, init, radius); }
        OffsetSum(boid, a, radius).Plus(OffsetSum(boid, init, radius)).Plus(e);
        OffsetSum(boid, a, radius).Plus(OffsetSum(boid, init, radius).Plus(e));
        OffsetSum(boid, a, radius).Plus(OffsetSum(boid, b, radius));
      }
    }
  }

  /** Appending a non-neighbour to a slice changes none of the sums. */
  lemma AppendNonNeighbour(boid: Boid, pre: seq<Boid>, c: Boid, radius: real)
    requires !Within(boid, c, radius)
    ensures Count(boid, pre + [c], radius) == Count(boid, pre, radius)
    ensures VelocitySum(boid, pre + [c], radius) == VelocitySum(boid, pre, radius)
    ensures PositionSum(boid, pre + [c], radius) == PositionSum(boid, pre, radius)
    ensures OffsetSum(boid, pre + [c], radius) == OffsetSum(boid, pre, radius)
  {
    assert (pre + [c])[..|pre|] == pre;
  }

  /** Inserting a boid that is not a neighbour into the slice leaves the count unchanged. */
  lemma CountIgnoresNonNeighbour(boid: Boid, pre: seq<Boid>, c: Boid, post: seq<Boid>, radius: real)
    requires !Within(boid, c, radius)
    ensures Count(boid, pre + [c] + post, radius) == Count(boid, pre + post, radius)
  {
    AppendNonNeighbour(boid, pre, c, radius);
    CountSplit(boid, pre + [c], post, radius);
    CountSplit(boid, pre, post, radius);
  }

  /** Inserting a boid that is not a neighbour leaves the velocity sum unchanged. */
  lemma VelocitySumIgnoresNonNeighbour(boid: Boid, pre: seq<Boid>, c: Boid, post: seq<Boid>, radius: real)
    requires !Within(boid, c, radius)
    ensures VelocitySum(boid, pre + [c] + post, radius) == VelocitySum(boid, pre + post, radius)
  {
    calc {
      VelocitySum(boid, pre + [c] + post, radius);
      { VelocitySumSplit(boid, pre + [c], post, radius); }
      VelocitySum(boid, pre + [c], radius).Plus(VelocitySum(boid, post, radius));
      { AppendNonNeighbour(boid, pre, c, radius); }
      VelocitySum(boid, pre, radius).Plus(VelocitySum(boid, post, radius));
      { VelocitySumSplit(boid, pre, post, radius); }
      VelocitySum(boid, pre + post, radius);
    }
  }

  /** Inserting a boid that is not a neighbour leaves the position sum unchanged. */
  lemma PositionSumIgnoresNonNeighbour(boid: Boid, pre: seq<Boid>, c: Boid, post: seq<Boid>, radius: real)
    requires !Within(boid, c, radius)
    ensures PositionSum(boid, pre + [c] + post, radius) == PositionSum(boid, pre + post, radius)
  {
    calc {
      PositionSum(boid, pre + [c] + post, radius);
      { PositionSumSplit(boid, pre + [c], post, radius); }
      PositionSum(boid, pre + [c], radius).Plus(PositionSum(boid, post, radius));
      { AppendNonNeighbour(boid, pre, c, radius); }
      PositionSum(boid, pre, radius).Plus(PositionSum(boid, post, radius));
      { PositionSumSplit(boid, pre, post, radius); }
      PositionSum(boid, pre + post, radius);
    }
  }

  /** Inserting a boid that is not a neighbour leaves the offset sum unchanged. */
  lemma OffsetSumIgnoresNonNeighbour(boid: Boid, pre: seq<Boid>, c: Boid, post: seq<Boid>, radius: real)
    requires !Within(boid, c, radius)
    ensures OffsetSum(boid, pre + [c] + post, radius) == OffsetSum(boid, pre + post, radius)
  {
    calc {
      OffsetSum(boid, pre + [c] + post, radius);
      { OffsetSumSplit(boid, pre + [c], post, radius); }
      OffsetSum(boid, pre + [c], radius).Plus(OffsetSum(boid, post, radius));
      { AppendNonNeighbour(boid, pre, c, radius); }
      OffsetSum(boid, pre, radius).Plus(OffsetSum(boid, post, radius));
      { OffsetSumSplit(boid, pre, post, radius); }
      OffsetSum(boid, pre + post, radius);
    }
  }

  /**
   * Self-exclusion: a boid at distance 0 from `boid` (the boid itself, or
   * one at the same position), wherever it sits in the slice, contributes
   * nothing to any of the three rules.
   */
  lemma SelfExcluded(boid: Boid, boids: seq<Boid>, k: nat, c: Boid)
    requires k <= |boids|
    requires c.x == boid.x && c.y == boid.y
    ensures Alignment(boid, boids[..k] + [c] + boids[k..]) == Alignment(boid, boids)
    ensures Cohesion(boid, boids[..k] + [c] + boids[k..]) == Cohesion(boid, boids)
    ensures Separation(boid, boids[..k] + [c] + boids[k..]) == Separation(boid, boids)
  {
    DistanceSqSign(boid, c);
    assert boids[..k] + boids[k..] == boids;
    CountIgnoresNonNeighbour(boid, boids[..k], c, boids[k..], AlignmentRadius);
    VelocitySumIgnoresNonNeighbour(boid, boids[..k], c, boids[k..], AlignmentRadius);
    CountIgnoresNonNeighbour(boid, boids[..k], c, boids[k..], CohesionRadius);
    PositionSumIgnoresNonNeighbour(boid, boids[..k], c, boids[k..], CohesionRadius);
    OffsetSumIgnoresNonNeighbour(boid, boids[..k], c, boids[k..], SeparationRadius);
  }

  lemma {:induction false} OffsetSumOfNone(boid: Boid, boids: seq<Boid>, radius: real)
    requires NoneWithin(boid, boids, radius)
    ensures OffsetSum(boid, boids, radius) == Zero
  {
    if boids != [] {
      var init := boids[..|boids| - 1];
      assert forall k :: 0 <= k < |init| ==> init[k] == boids[k];
      OffsetSumOfNone(boid, init, radius);
    }
  }

  /** Each rule gives (0, 0) when no boid lies strictly inside its radius. */
  lemma EmptyNeighbourhood(boid: Boid, boids: seq<Boid>)
    ensures NoneWithin(boid, boids, AlignmentRadius) ==> Alignment(boid, boids) == Zero
    ensures NoneWithin(boid, boids, CohesionRadius) ==> Cohesion(boid, boids) == Zero
    ensures NoneWithin(boid, boids, SeparationRadius) ==> Separation(boid, boids) == Zero
  {
    CountZero(boid, boids, AlignmentRadius);
    CountZero(boid, boids, CohesionRadius);
    if NoneWithin(boid, boids, SeparationRadius) {
      OffsetSumOfNone(boid, boids, SeparationRadius);
    }
  }

  /**
   * An isolated boid (no other boid strictly within the largest radius)
   * keeps its own velocity, clipped to the speed limit.
   */
  lemma IsolatedBoidKeepsVelocity(boid: Boid, boids: seq<Boid>)
    requires NoneWithin(boid, boids, AlignmentRadius)
    ensures FlockVelocity(boid, boids) == Vec2(LimitSpeed(boid.vx), LimitSpeed(boid.vy))
  {
    assert NoneWithin(boid, boids, CohesionRadius);
    assert NoneWithin(boid, boids, SeparationRadius);
    EmptyNeighbourhood(boid, boids);
  }

  /** A neighbour makes the count positive (CountZero gives the converse). */
  lemma CountPositive(boid: Boid, boids: seq<Boid>, radius: real, k: nat)
    requires k < |boids| && Within(boid, boids[k], radius)
    ensures Count(boid, boids, radius) > 0
  {
    CountZero(boid, boids, radius);
  }

  /**
   * If every neighbour lies strictly to the right of boid, separation pushes
   * boid to the left: the x-component is never positive, and negative as soon
   * as there is a neighbour.
   */
  lemma {:induction false} SeparationFromRight(boid: Boid, boids: seq<Boid>, radius: real)
    requires forall k :: 0 <= k < |boids| && Within(boid, boids[k], radius) ==> boids[k].x > boid.x
    ensures OffsetSum(boid, boids, radius).x <= 0.0
    ensures Count(boid, boids, radius) > 0 ==> OffsetSum(boid, boids, radius).x < 0.0
  {
    if boids != [] {
      var init := boids[..|boids| - 1];
      assert forall k :: 0 <= k < |init| ==> init[k] == boids[k];
      SeparationFromRight(boid, init, radius);
    }
  }

  /** The mirror image: neighbours all to the left push boid to the right. */
  lemma {:induction false} SeparationFromLeft(boid: Boid, boids: seq<Boid>, radius: real)
    requires forall k :: 0 <= k < |boids| && Within(boid, boids[k], radius) ==> boids[k].x < boid.x
    ensures OffsetSum(boid, boids, radius).x >= 0.0
    ensures Count(boid, boids, radius) > 0 ==> OffsetSum(boid, boids, radius).x > 0.0
  {
    if boids != [] {
      var init := boids[..|boids| - 1];
      assert forall k :: 0 <= k < |init| ==> init[k] == boids[k];
      SeparationFromLeft(boid, init, radius);
    }
  }

  /**
   * Two boids a and b (b to the right of a, closer than SeparationRadius) in a
   * flock whose members all sit at a's or b's position: separation pushes a
   * to the left and b to the right.
   */
  lemma SeparationPair(a: Boid, b: Boid, boids: seq<Boid>, i: nat, j: nat)
    requires i < |boids| && j < |boids| && boids[i] == a && boids[j] == b
    requires a.x < b.x && Within(a, b, SeparationRadius)
    requires forall k :: 0 <= k < |boids| ==>
      boids[k].Position() == a.Position() || boids[k].Position() == b.Position()
    ensures Separation(a, boids).x < 0.0
    ensures Separation(b, boids).x > 0.0
  {
    DistanceSymmetric(a, b);
    forall k | 0 <= k < |boids| && Within(a, boids[k], SeparationRadius)
      ensures boids[k].x > a.x
    {
      DistanceSqSign(a, boids[k]);
    }
    forall k | 0 <= k < |boids| && Within(b, boids[k], SeparationRadius)
      ensures boids[k].x < b.x
    {
      DistanceSqSign(b, boids[k]);
    }
    CountPositive(a, boids, SeparationRadius, j);
    CountPositive(b, boids, SeparationRadius, i);
    SeparationFromRight(a, boids, SeparationRadius);
    SeparationFromLeft(b, boids, SeparationRadius);
  }

  /** If n copies of lo and hi bracket s, then s / n lies between lo and hi. */
  lemma MeanBetween(s: real, n: real, lo: real, hi: real)
    requires n > 0.0 && Mul(n, lo) <= s <= Mul(n, hi)
    ensures lo <= s / n <= hi
  {
    assert Mul(n, lo) / n == lo;
    assert Mul(n, hi) / n == hi;
  }

  /** n copies of c added up; `RepeatIsMul` shows this is n * c. */
  function Repeat(n: nat, c: real): real
  {
    if n == 0 then 0.0 else Repeat(n - 1, c) + c
  }

  lemma {:induction false} RepeatIsMul(n: nat, c: real)
    ensures Repeat(n, c) == Mul(n as real, c)
  {
    if n > 0 {
      RepeatIsMul(n - 1, c);
    }
  }

  /** The sum of the neighbours' velocities lies between Count * lo and Count * hi on each axis. */
  lemma {:induction false} VelocitySumBetween(boid: Boid, boids: seq<Boid>, radius: real, lo: real, hi: real)
    requires forall k :: 0 <= k < |boids| && Within(boid, boids[k], radius) ==>
      lo <= boids[k].vx <= hi && lo <= boids[k].vy <= hi
    ensures Repeat(Count(boid, boids, radius), lo) <= VelocitySum(boid, boids, radius).x <= Repeat(Count(boid, boids, radius), hi)
    ensures Repeat(Count(boid, boids, radius), lo) <= VelocitySum(boid, boids, radius).y <= Repeat(Count(boid, boids, radius), hi)
  {
    if boids != [] {
      var init := boids[..|boids| - 1];
      var last := boids[|boids| - 1];
      assert forall k :: 0 <= k < |init| ==> init[k] == boids[k];
      VelocitySumBetween(boid, init, radius, lo, hi);
      var n := Count(boid, init, radius);
      if Within(boid, last, radius) {
        assert Count(boid, boids, radius) == n + 1;
        assert VelocitySum(boid, boids, radius) == VelocitySum(boid, init, radius).Plus(last.Velocity());
      } else {
        assert Count(boid, boids, radius) == n;
        assert VelocitySum(boid, boids, radius) == VelocitySum(boid, init, radius).Plus(Zero);
      }
    }
  }

  /** The sum of the neighbours' positions lies between Count * lo and Count * hi on each axis. */
  lemma {:induction false} PositionSumBetween(boid: Boid, boids: seq<Boid>, radius: real, lo: real, hi: real)
    requires forall k :: 0 <= k < |boids| && Within(boid, boids[k], radius) ==>
      lo <= boids[k].x <= hi && lo <= boids[k].y <= hi
    ensures Repeat(Count(boid, boids, radius), lo) <= PositionSum(boid, boids, radius).x <= Repeat(Count(boid, boids, radius), hi)
    ensures Repeat(Count(boid, boids, radius), lo) <= PositionSum(boid, boids, radius).y <= Repeat(Count(boid, boids, radius), hi)
  {
    if boids != [] {
      var init := boids[..|boids| - 1];
      var last := boids[|boids| - 1];
      assert forall k :: 0 <= k < |init| ==> init[k] == boids[k];
      PositionSumBetween(boid, init, radius, lo, hi);
      var n := Count(boid, init, radius);
      if Within(boid, last, radius) {
        assert Count(boid, boids, radius) == n + 1;
        assert PositionSum(boid, boids, radius) == PositionSum(boid, init, radius).Plus(last.Position());
      } else {
        assert Count(boid, boids, radius) == n;
        assert PositionSum(boid, boids, radius) == PositionSum(boid, init, radius).Plus(Zero);
      }
    }
  }

  /**
   * Alignment is a mean: when every neighbour's velocity components lie in
   * [lo, hi], so do the alignment's (and it is (0, 0) without neighbours).
   */
  lemma AlignmentBetween(boid: Boid, boids: seq<Boid>, lo: real, hi: real)
    requires forall k :: 0 <= k < |boids| && Within(boid, boids[k], AlignmentRadius) ==>
      lo <= boids[k].vx <= hi && lo <= boids[k].vy <= hi
    requires !NoneWithin(boid, boids, AlignmentRadius)
    ensures lo <= Alignment(boid, boids).x <= hi && lo <= Alignment(boid, boids).y <= hi
  {
    var n := Count(boid, boids, AlignmentRadius);
    var s := VelocitySum(boid, boids, AlignmentRadius);
    CountZero(boid, boids, AlignmentRadius);
    VelocitySumBetween(boid, boids, AlignmentRadius, lo, hi);
    RepeatIsMul(n, lo);
    RepeatIsMul(n, hi);
    MeanBetween(s.x, n as real, lo, hi);
    MeanBetween(s.y, n as real, lo, hi);
  }

  /**
   * Cohesion steers towards a mean: when every neighbour's coordinates lie
   * in [lo, hi], the point boid is steered towards (its own position plus
   * the cohesion vector) lies in [lo, hi] on both axes.
   */
  lemma CohesionBetween(boid: Boid, boids: seq<Boid>, lo: real, hi: real)
    requires forall k :: 0 <= k < |boids| && Within(boid, boids[k], CohesionRadius) ==>
      lo <= boids[k].x <= hi && lo <= boids[k].y <= hi
    requires !NoneWithin(boid, boids, CohesionRadius)
    ensures lo <= boid.x + Cohesion(boid, boids).x <= hi && lo <= boid.y + Cohesion(boid, boids).y <= hi
  {
    var n := Count(boid, boids, CohesionRadius);
    var s := PositionSum(boid, boids, CohesionRadius);
    CountZero(boid, boids, CohesionRadius);
    PositionSumBetween(boid, boids, CohesionRadius, lo, hi);
    RepeatIsMul(n, lo);
    RepeatIsMul(n, hi);
    MeanBetween(s.x, n as real, lo, hi);
    MeanBetween(s.y, n as real, lo, hi);
  }

  /** The separation radius is the smallest: a boid within it is within the other two radii. */
  lemma NearImpliesWithin(boid: Boid, other: Boid)
    requires Within(boid, other, SeparationRadius)
    ensures Within(boid, other, AlignmentRadius) && Within(boid, other, CohesionRadius)
  {
    assert SeparationRadius * SeparationRadius == 1225.0;
    assert AlignmentRadius * AlignmentRadius == 3136.0;
  }

  /** With a single neighbour, alignment is that neighbour's velocity. */
  lemma OneNeighbourAlignment(boid: Boid, other: Boid)
    requires Within(boid, other, AlignmentRadius)
    ensures Alignment(boid, [other]) == other.Velocity()
  {
    assert [other][..0] == [];
    assert Count(boid, [other], AlignmentRadius) == 1;
    assert VelocitySum(boid, [other], AlignmentRadius) == Zero.Plus(other.Velocity());
  }

  /** With a single neighbour, cohesion points from boid to that neighbour. */
  lemma OneNeighbourCohesion(boid: Boid, other: Boid)
    requires Within(boid, other, CohesionRadius)
    ensures Cohesion(boid, [other]) == other.Position().Minus(boid.Position())
  {
    assert [other][..0] == [];
    assert Count(boid, [other], CohesionRadius) == 1;
    assert PositionSum(boid, [other], CohesionRadius) == Zero.Plus(other.Position());
  }

  /** With a single neighbour, separation points from that neighbour to boid. */
  lemma OneNeighbourSeparation(boid: Boid, other: Boid)
    requires Within(boid, other, SeparationRadius)
    ensures Separation(boid, [other]) == boid.Position().Minus(other.Position())
  {
    assert [other][..0] == [];
    assert OffsetSum(boid, [other], SeparationRadius) == Zero.Plus(boid.Position().Minus(other.Position()));
  }

  /**
   * A flock of two boids closer than SeparationRadius, in either order:
   * each boid steers by its own velocity plus the other's, plus 0.2 of the
   * offset towards the other, minus the whole offset.
   */
  lemma PairSteering(boid: Boid, other: Boid, s: seq<Boid>)
    requires Within(boid, other, SeparationRadius)
    requires s == [boid, other] || s == [other, boid]
    ensures Steering(boid, s) == Vec2(
      boid.vx + other.vx + 0.2 * (other.x - boid.x) + (boid.x - other.x),
      boid.vy + other.vy + 0.2 * (other.y - boid.y) + (boid.y - other.y))
  {
    var k := if s == [boid, other] then 0 else 1;
    assert [other][..k] + [boid] + [other][k..] == s;
    SelfExcluded(boid, [other], k, boid);
    NearImpliesWithin(boid, other);
    OneNeighbourAlignment(boid, other);
    OneNeighbourCohesion(boid, other);
    OneNeighbourSeparation(boid, other);
  }
}
