/**
 * The simulation state of the flocking program (`App` in src/lib.rs): a
 * vector of boids on a width x height canvas, advanced `ups` times per
 * second.  Each tick moves the boids one after the other and writes each
 * one back before the next is moved, so boid i flocks with the new state of
 * boids 0 .. i-1 and the old state of boids i .. n-1.
 */
module Simulation {
  import opened Boids

  newtype u32 = x: int | 0 <= x < 0x1_0000_0000
  newtype u64 = x: int | 0 <= x < 0x1_0000_0000_0000_0000

  /** `width as i32`: the bit pattern of a u32 read as a two's-complement i32. */
  function AsI32(w: u32): (r: int)
    ensures -0x8000_0000 <= r < 0x8000_0000
    ensures w < 0x8000_0000 ==> r == w as int
    ensures w >= 0x8000_0000 ==> r < 0
    ensures (r - w as int) % 0x1_0000_0000 == 0
  {
    if w < 0x8000_0000 then w as int else w as int - 0x1_0000_0000
  }

  /**
   * The four values `rand::random::<f64>()` returns while one boid is
   * created, in the order they are drawn: fractions of width, height,
   * BoidSize, BoidSize.
   */
  datatype Draw = Draw(px: real, py: real, pvx: real, pvy: real)

  /** `rand::random::<f64>()` draws from [0, 1). */
  predicate ValidDraw(d: Draw)
  {
    0.0 <= d.px < 1.0 && 0.0 <= d.py < 1.0 && 0.0 <= d.pvx < 1.0 && 0.0 <= d.pvy < 1.0
  }

  /** Every set of draws in a sequence is valid. */
  predicate AllValid(draws: seq<Draw>)
  {
    forall k :: 0 <= k < |draws| ==> ValidDraw(draws[k])
  }

  /** A fraction p of a positive extent e lies in [0, e). */
  lemma FractionBelow(p: real, e: real)
    ensures 0.0 <= p < 1.0 && e > 0.0 ==> 0.0 <= Mul(p, e) < e
  {
    if 0.0 < p < 1.0 && e > 0.0 {
      MulPos(p, e);
      MulPos(1.0 - p, e);
    }
  }

  /**
   * `Boid::new(width as i32, height as i32)` for one set of draws: x and y
   * are fractions of the cast width and height, vx and vy fractions of
   * BoidSize.  From draws in [0, 1) the boid starts inside the canvas, with
   * each velocity component in [0, BoidSize), as long as width and height
   * are positive and below 2^31.
   */
  function NewBoid(d: Draw, width: u32, height: u32): (b: Boid)
    ensures ValidDraw(d) ==> 0.0 <= b.vx < BoidSize && 0.0 <= b.vy < BoidSize
    ensures ValidDraw(d) && 0 < width < 0x8000_0000 ==> 0.0 <= b.x < width as real
    ensures ValidDraw(d) && 0 < height < 0x8000_0000 ==> 0.0 <= b.y < height as real
  {
    FractionBelow(d.px, AsI32(width) as real);
    FractionBelow(d.py, AsI32(height) as real);
    FractionBelow(d.pvx, BoidSize);
    FractionBelow(d.pvy, BoidSize);
    Boid(Mul(d.px, AsI32(width) as real), Mul(d.py, AsI32(height) as real),
         Mul(d.pvx, BoidSize), Mul(d.pvy, BoidSize))
  }

  /** With a width of 2^31 or more the cast turns negative and a new boid starts at or left of x = 0. */
  lemma WideCanvasNewBoid(d: Draw, width: u32, height: u32)
    requires ValidDraw(d) && width >= 0x8000_0000
    ensures NewBoid(d, width, height).x <= 0.0
  {
    if d.px > 0.0 {
      MulPos(d.px, -(AsI32(width) as real));
    }
  }

  /**
   * `stay_in_view` on one axis: a coordinate past the far edge moves back by
   * one extent, one below zero moves forward by one; a coordinate equal to
   * the extent stays.  Only one extent is ever added or subtracted.
   */
  function Wrap(c: real, extent: real): (r: real)
    ensures 0.0 <= c <= extent ==> r == c
    ensures extent >= 0.0 && -extent <= c <= 2.0 * extent ==> 0.0 <= r <= extent
    ensures r - c in {0.0, extent, -extent}
  {
    if c > extent then c - extent
    else if c < 0.0 then c + extent
    else c
  }

  /** The far edge itself is not wrapped: a boid can sit exactly on x = width, and one at 2 * width lands there. */
  lemma FarEdgeIsOnCanvas(extent: real)
    requires extent > 0.0
    ensures Wrap(extent, extent) == extent
    ensures Wrap(2.0 * extent, extent) == extent
    ensures Wrap(0.0, extent) == 0.0
  {
  }

  /** Wrapping is not a modulo: a coordinate more than one extent past the edge stays outside the canvas. */
  lemma WrapIsNotModulo()
    ensures Wrap(250.0, 100.0) == 150.0
    ensures Wrap(-150.0, 100.0) == -50.0
  {
  }

  /** One iteration of the update loop for a boid `b`, flocking with the slice `flock` as it is at that moment. */
  function StepBoid(b: Boid, flock: seq<Boid>, width: real, height: real, ups: real): (r: Boid)
    requires ups > 0.0
    ensures -MaxSpeed <= r.vx <= MaxSpeed && -MaxSpeed <= r.vy <= MaxSpeed
    ensures r.x - (b.x + r.vx / ups) in {0.0, width, -width}
    ensures r.y - (b.y + r.vy / ups) in {0.0, height, -height}
  {
    var v := FlockVelocity(b, flock);
    Boid(Wrap(b.x + v.x / ups, width), Wrap(b.y + v.y / ups, height), v.x, v.y)
  }

  /**
   * The boids after the first i iterations of the update loop: boid i-1 is
   * stepped against the slice as the first i-1 iterations left it, and
   * written back at index i-1.
   */
  function Partial(s: seq<Boid>, i: nat, width: real, height: real, ups: real): (r: seq<Boid>)
    requires i <= |s| && ups > 0.0
    ensures |r| == |s|
    ensures r[i..] == s[i..]
    decreases i
  {
    if i == 0 then s
    else
      var p := Partial(s, i - 1, width, height, ups);
      p[i - 1 := StepBoid(p[i - 1], p, width, height, ups)]
  }

  /** One whole tick: every boid stepped, in index order, in place. */
  function Tick(s: seq<Boid>, width: real, height: real, ups: real): seq<Boid>
    requires ups > 0.0
  {
    Partial(s, |s|, width, height, ups)
  }

  /**
   * Once iteration i has written boid i, later iterations leave it alone:
   * the first i boids after j >= i iterations are those after i iterations.
   */
  lemma {:induction false} PrefixStable(s: seq<Boid>, i: nat, j: nat, width: real, height: real, ups: real)
    requires i <= j <= |s| && ups > 0.0
    ensures Partial(s, j, width, height, ups)[..i] == Partial(s, i, width, height, ups)[..i]
    decreases j
  {
    if j > i {
      PrefixStable(s, i, j - 1, width, height, ups);
    }
  }

  /**
   * The in-place order of the update loop: boid i of the new flock is boid
   * i of the old flock stepped against the new boids 0 .. i-1 followed by
   * the old boids i .. n-1 (itself included).
   */
  lemma InPlaceOrder(s: seq<Boid>, i: nat, width: real, height: real, ups: real)
    requires i < |s| && ups > 0.0
    ensures Partial(s, i, width, height, ups) == Tick(s, width, height, ups)[..i] + s[i..]
    ensures Tick(s, width, height, ups)[i] ==
      StepBoid(s[i], Tick(s, width, height, ups)[..i] + s[i..], width, height, ups)
  {
    var p := Partial(s, i, width, height, ups);
    PrefixStable(s, i, |s|, width, height, ups);
    PrefixStable(s, i + 1, |s|, width, height, ups);
    assert p == p[..i] + p[i..];
    assert Tick(s, width, height, ups)[i] == Partial(s, i + 1, width, height, ups)[..i + 1][i];
  }

  /** Iteration i changes boid i and no other. */
  lemma StepWritesOnlyOne(s: seq<Boid>, i: nat, k: nat, width: real, height: real, ups: real)
    requires i < |s| && k < |s| && k != i && ups > 0.0
    ensures Partial(s, i + 1, width, height, ups)[k] == Partial(s, i, width, height, ups)[k]
  {
  }

  /** Every boid the tick has already moved is within the speed limit. */
  lemma {:induction false} SpeedBounded(s: seq<Boid>, i: nat, width: real, height: real, ups: real)
    requires i <= |s| && ups > 0.0
    ensures forall k :: 0 <= k < i ==>
      -MaxSpeed <= Partial(s, i, width, height, ups)[k].vx <= MaxSpeed &&
      -MaxSpeed <= Partial(s, i, width, height, ups)[k].vy <= MaxSpeed
    decreases i
  {
    if i > 0 {
      SpeedBounded(s, i - 1, width, height, ups);
    }
  }

  /** Every boid of a flock lies on the canvas [0, width] x [0, height], edges included. */
  predicate InView(s: seq<Boid>, width: real, height: real)
  {
    forall k :: 0 <= k < |s| ==> 0.0 <= s[k].x <= width && 0.0 <= s[k].y <= height
  }

  /** One step at top speed, MaxSpeed / ups, is no longer than the canvas is wide or high. */
  predicate StepFits(width: real, height: real, ups: real)
    requires ups > 0.0
  {
    MaxSpeed / ups <= width && MaxSpeed / ups <= height
  }

  /** A velocity component within the speed limit moves a coordinate by at most MaxSpeed / ups. */
  lemma StepBetween(v: real, ups: real)
    requires ups > 0.0 && -MaxSpeed <= v <= MaxSpeed
    ensures -(MaxSpeed / ups) <= v / ups <= MaxSpeed / ups
  {
    DivMonotonic(v, MaxSpeed, ups);
    DivMonotonic(-MaxSpeed, v, ups);
    assert -MaxSpeed / ups == -(MaxSpeed / ups);
  }

  /** Dividing by a positive number keeps the order. */
  lemma DivMonotonic(a: real, b: real, u: real)
    requires u > 0.0 && a <= b
    ensures a / u <= b / u
  {
    assert b / u - a / u == (b - a) / u;
    assert (b - a) / u >= 0.0;
  }

  /**
   * A boid on the canvas stays on it after one step, provided one step
   * (at most MaxSpeed / ups) is no longer than the canvas.
   */
  lemma StepStaysInView(b: Boid, flock: seq<Boid>, width: real, height: real, ups: real)
    requires ups > 0.0 && StepFits(width, height, ups)
    requires 0.0 <= b.x <= width && 0.0 <= b.y <= height
    ensures var r := StepBoid(b, flock, width, height, ups);
      0.0 <= r.x <= width && 0.0 <= r.y <= height
  {
    var v := FlockVelocity(b, flock);
    StepBetween(v.x, ups);
    StepBetween(v.y, ups);
  }

  /** A tick in progress keeps a flock on the canvas, under the same step-size condition. */
  lemma {:induction false} PartialInView(s: seq<Boid>, i: nat, width: real, height: real, ups: real)
    requires i <= |s| && ups > 0.0 && StepFits(width, height, ups)
    requires InView(s, width, height)
    ensures InView(Partial(s, i, width, height, ups), width, height)
    decreases i
  {
    if i > 0 {
      PartialInView(s, i - 1, width, height, ups);
      var p := Partial(s, i - 1, width, height, ups);
      StepStaysInView(p[i - 1], p, width, height, ups);
    }
  }

  /** A boid that sees no other boid within AlignmentRadius keeps its clipped velocity and drifts with it. */
  lemma IsolatedStep(b: Boid, flock: seq<Boid>, width: real, height: real, ups: real)
    requires ups > 0.0 && NoneWithin(b, flock, AlignmentRadius)
    ensures var r := StepBoid(b, flock, width, height, ups);
      r.vx == LimitSpeed(b.vx) && r.vy == LimitSpeed(b.vy) &&
      r.x == Wrap(b.x + LimitSpeed(b.vx) / ups, width) &&
      r.y == Wrap(b.y + LimitSpeed(b.vy) / ups, height)
  {
    IsolatedBoidKeepsVelocity(b, flock);
  }

  /**
   * Every boid stepped against the flock as it was before the tick; the
   * update loop does NOT do this, see `InPlaceIsNotSnapshot`.
   */
  function SnapshotTick(s: seq<Boid>, width: real, height: real, ups: real): seq<Boid>
    requires ups > 0.0
  {
    seq(|s|, k requires 0 <= k < |s| => StepBoid(s[k], s, width, height, ups))
  }

  // Two boids at rest, 2 apart on a 100 x 100 canvas, 120 updates per second.
  const B0 := Boid(10.0, 10.0, 0.0, 0.0)
  const B1 := Boid(12.0, 10.0, 0.0, 0.0)
  const B0Moved := Boid(749.0 / 75.0, 10.0, -8.0 / 5.0, 0.0)

  /** Boid 0 is pushed left by 8/5 and moves by 1/75. */
  lemma FirstStep()
    ensures StepBoid(B0, [B0, B1], 100.0, 100.0, 120.0) == B0Moved
  {
    assert DistanceSq(B0, B1) == 4.0;
    assert SeparationRadius * SeparationRadius == 1225.0;
    PairSteering(B0, B1, [B0, B1]);
  }

  /** Boid 1 flocks with the moved boid 0 and ends up almost at rest. */
  lemma SecondStep()
    ensures StepBoid(B1, [B0Moved, B1], 100.0, 100.0, 120.0).vx == 4.0 / 375.0
  {
    assert DistanceSq(B1, B0Moved) == 22801.0 / 5625.0;
    assert SeparationRadius * SeparationRadius == 1225.0;
    PairSteering(B1, B0Moved, [B0Moved, B1]);
  }

  /** Against the old boid 0, boid 1 would be pushed right by 8/5. */
  lemma SnapshotSecondStep()
    ensures StepBoid(B1, [B0, B1], 100.0, 100.0, 120.0).vx == 8.0 / 5.0
  {
    assert DistanceSq(B1, B0) == 4.0;
    assert SeparationRadius * SeparationRadius == 1225.0;
    PairSteering(B1, B0, [B0, B1]);
  }

  /** The whole tick on the pair. */
  lemma TickOfPair()
    ensures Tick([B0, B1], 100.0, 100.0, 120.0) ==
      [B0Moved, StepBoid(B1, [B0Moved, B1], 100.0, 100.0, 120.0)]
  {
    var s := [B0, B1];
    var p0 := Partial(s, 0, 100.0, 100.0, 120.0);
    assert p0 == s;
    var p1 := Partial(s, 1, 100.0, 100.0, 120.0);
    assert p1 == p0[0 := StepBoid(p0[0], p0, 100.0, 100.0, 120.0)];
    FirstStep();
    assert p1 == [B0Moved, B1];
    var p2 := Partial(s, 2, 100.0, 100.0, 120.0);
    assert p2 == p1[1 := StepBoid(p1[1], p1, 100.0, 100.0, 120.0)];
  }

  /**
   * The update loop is order-dependent: on the pair above the in-place tick
   * and a tick against a snapshot give boid 1 different velocities.
   */
  lemma InPlaceIsNotSnapshot()
    ensures Tick([B0, B1], 100.0, 100.0, 120.0)[1].vx == 4.0 / 375.0
    ensures SnapshotTick([B0, B1], 100.0, 100.0, 120.0)[1].vx == 8.0 / 5.0
  {
    TickOfPair();
    SecondStep();
    SnapshotSecondStep();
  }

  /**
   * `App` without its drawing backend: the boids, the canvas size and the
   * number of updates per second.  The boid vector never changes length
   * after construction, so it is an array.
   */
  class App {
    const boids: array<Boid>
    const width: u32
    const height: u32
    const ups: u64

    /**
     * `App::new`: `count` boids made by `Boid::new(width as i32, height as i32)`
     * in order, the k-th from the k-th set of random draws.
     */
    constructor(width: u32, height: u32, count: u32, ups: u64, draws: seq<Draw>)
      requires |draws| == count as int
      ensures this.width == width && this.height == height && this.ups == ups
      ensures fresh(boids) && boids.Length == count as int
      ensures forall k :: 0 <= k < boids.Length ==> boids[k] == NewBoid(draws[k], width, height)
      ensures AllValid(draws) && 0 < width < 0x8000_0000 && 0 < height < 0x8000_0000 ==>
        InView(boids[..], width as real, height as real)
    {
      var a := new Boid[count as int];
      for k := 0 to count as int
        invariant forall j :: 0 <= j < k ==> a[j] == NewBoid(draws[j], width, height)
      {
        a[k] := NewBoid(draws[k], width, height);
      }
      this.boids := a;
      this.width := width;
      this.height := height;
      this.ups := ups;
    }

    /** `stay_in_view`: wraps each coordinate back onto the canvas by at most one width or height. */
    method StayInView(x: real, y: real) returns (rx: real, ry: real)
      ensures rx == Wrap(x, width as real) && ry == Wrap(y, height as real)
    {
      rx, ry := x, y;

      if rx > width as real {
        rx := rx - width as real;
      } else if rx < 0.0 {
        rx := rx + width as real;
      }

      if ry > height as real {
        ry := ry - height as real;
      } else if ry < 0.0 {
        ry := ry + height as real;
      }
    }

    /**
     * `update`: one tick.  Boid i flocks with the array as the earlier
     * iterations left it, moves by its new velocity / ups, is wrapped onto
     * the canvas and is written back before boid i + 1 is considered.
     * Afterwards every boid is within the speed limit, and a flock that was
     * on the canvas still is when one step fits on the canvas.
     */
    method Update()
      requires ups > 0
      modifies boids
      ensures boids[..] == Tick(old(boids[..]), width as real, height as real, ups as real)
      ensures forall k :: 0 <= k < boids.Length ==>
        -MaxSpeed <= boids[k].vx <= MaxSpeed && -MaxSpeed <= boids[k].vy <= MaxSpeed
      ensures StepFits(width as real, height as real, ups as real) ==>
        InView(old(boids[..]), width as real, height as real) ==> InView(boids[..], width as real, height as real)
    {
      ghost var s := boids[..];
      for i := 0 to boids.Length
        invariant boids[..] == Partial(s, i, width as real, height as real, ups as real)
      {
        ghost var p := boids[..];
        var boid := boids[i];
        var vx, vy := Flock(boid, boids[..]);

        var x := boid.x + vx / ups as real;
        var y := boid.y + vy / ups as real;

        x, y := StayInView(x, y);

        assert Boid(x, y, vx, vy) == StepBoid(p[i], p, width as real, height as real, ups as real);
        boids[i] := Boid(x, y, vx, vy);
        assert boids[..] == p[i := StepBoid(p[i], p, width as real, height as real, ups as real)];
      }
      SpeedBounded(s, |s|, width as real, height as real, ups as real);
      if StepFits(width as real, height as real, ups as real) && InView(s, width as real, height as real) {
        PartialInView(s, |s|, width as real, height as real, ups as real);
      }
    }
  }
}
