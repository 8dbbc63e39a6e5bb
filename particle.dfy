/**
 * One particle of the background field: its random creation, the six-step
 * update rule run once per frame, and the numbers its draw call computes.
 * Numbers are reals; the canvas size and the pointer are explicit inputs;
 * the square root of the browser's Math library is a parameter `sqrt` that
 * returns the exact non-negative root.
 */
module Particles {

  /** Largest depth; depth is clamped into [0, MaxDepth] every frame. */
  const MaxDepth: real := 2.0
  /** Pointer capture radius per unit of (depth + 1). */
  const ReachPerDepth: real := 150.0
  /** Multiplicative velocity damping applied every frame. */
  const Damping: real := 0.99
  /** Largest speed a particle keeps after an update. */
  const MaxSpeed: real := 1.5

  /** Squared length of the vector (x, y). */
  function Norm2(x: real, y: real): real {
    x * x + y * y
  }

  /** `sqrt` returns the exact non-negative square root of every v >= 0. */
  ghost predicate IsSqrt(sqrt: real -> real) {
    forall v: real :: 0.0 <= v ==> 0.0 <= sqrt(v) && sqrt(v) * sqrt(v) == v
  }

  /** The nine draws of Math.random() made by the constructor, each in [0, 1). */
  datatype Draws = Draws(x: real, y: real, z: real, size: real,
                         speedX: real, speedY: real, speedZ: real,
                         hue: real, alpha: real)
  {
    predicate InUnit() {
      && 0.0 <= x < 1.0 && 0.0 <= y < 1.0 && 0.0 <= z < 1.0 && 0.0 <= size < 1.0
      && 0.0 <= speedX < 1.0 && 0.0 <= speedY < 1.0 && 0.0 <= speedZ < 1.0
      && 0.0 <= hue < 1.0 && 0.0 <= alpha < 1.0
    }
  }

  /** The two palette hues: rgb(30, 144, 255) and rgb(255, 165, 0). */
  datatype Hue = DodgerBlue | Orange

  /** A particle's colour: its hue and its base alpha in hundredths (toFixed(2)). */
  datatype Color = Color(hue: Hue, alphaHundredths: int)

  /** The part of a particle that `update` changes. */
  datatype Motion = Motion(x: real, y: real, z: real, speedX: real, speedY: real)

  /** The numbers `draw` hands to the canvas: centre, radius and fill alpha. */
  datatype Disc = Disc(x: real, y: real, radius: real, opacity: real)

  /** Number.prototype.toFixed(2) of a non-negative value, as whole hundredths. */
  function Hundredths(v: real): (n: int)
    ensures (n as real) - 0.5 <= v * 100.0 < (n as real) + 0.5
  {
    (v * 100.0 + 0.5).Floor
  }

  /** Depth after drift: values above 2 become 2, values below 0 become 0. */
  function ClampDepth(z: real): (r: real)
    ensures 0.0 <= r <= MaxDepth
    ensures 0.0 <= z <= MaxDepth ==> r == z
    ensures z > MaxDepth ==> r == MaxDepth
    ensures z < 0.0 ==> r == 0.0
  {
    var z1 := if z > MaxDepth then MaxDepth else z;
    if z1 < 0.0 then 0.0 else z1
  }

  /**
   * One coordinate after the edge check: past the far edge it re-enters at 0,
   * below 0 it re-enters at the far edge, in between it stays.
   */
  function Wrap(p: real, extent: nat): (r: real)
    ensures 0.0 <= r <= extent as real
    ensures 0.0 <= p <= extent as real ==> r == p
    ensures p > extent as real ==> r == 0.0
    ensures p < 0.0 ==> r == extent as real
  {
    var p1 := if p > extent as real then 0.0 else p;
    if p1 < 0.0 then extent as real else p1
  }

  /** Capture radius of the pointer for a particle at depth z. */
  function Reach(z: real): real {
    ReachPerDepth * (z + 1.0)
  }

  /** Strength (reach - d) / reach of the pointer force at distance d. */
  function Strength(d: real, reach: real): real
    requires reach > 0.0
  {
    (reach - d) / reach
  }

  /**
   * Velocity after the pointer force. (dx, dy) runs from the particle to the
   * pointer and d is its length; the code divides by d without a guard, so a
   * particle exactly on the pointer is outside this function's domain.
   */
  function Steer(vx: real, vy: real, dx: real, dy: real, d: real, reach: real): (r: (real, real))
    requires d > 0.0 && d * d == Norm2(dx, dy) && reach > 0.0
    ensures d >= reach ==> r == (vx, vy)
  {
    if d < reach then
      var force := Strength(d, reach);
      var forceX := (dx / d) * force * 2.0;
      var forceY := (dy / d) * force * 2.0;
      (vx - forceX * 0.5, vy - forceY * 0.5)
    else
      (vx, vy)
  }

  /** Velocity after damping. */
  function Damp(vx: real, vy: real): (r: (real, real))
    ensures Norm2(r.0, r.1) <= Norm2(vx, vy)
  {
    SquareSumScales(vx, vy, Damping);
    SquareSumNonNegative(vx, vy);
    (vx * Damping, vy * Damping)
  }

  /** Velocity after the speed limit; s is the length of (vx, vy). */
  function Cap(vx: real, vy: real, s: real): (r: (real, real))
    requires s >= 0.0 && s * s == Norm2(vx, vy)
    ensures s <= MaxSpeed ==> r == (vx, vy)
  {
    if s > MaxSpeed then ((vx / s) * MaxSpeed, (vy / s) * MaxSpeed) else (vx, vy)
  }

  /**
   * The pointer force with the distance taken by `sqrt`: the velocity after
   * the push of the pointer at offset (dx, dy) on a particle at depth z.
   */
  function Repel(vx: real, vy: real, dx: real, dy: real, z: real, sqrt: real -> real): (r: (real, real))
    requires IsSqrt(sqrt) && (dx, dy) != (0.0, 0.0) && 0.0 <= z
  {
    SquareSumPositive(dx, dy);
    RootOf(sqrt, Norm2(dx, dy));
    Steer(vx, vy, dx, dy, sqrt(Norm2(dx, dy)), Reach(z))
  }

  /**
   * The pointer force is local and repulsive: a particle at or beyond the
   * capture radius Reach(z) keeps its velocity; one inside it receives an
   * impulse parallel to the offset, pointing away from the pointer, of
   * length (reach - d) / reach in (0, 1).
   */
  lemma {:induction false} RepelPushesAway(vx: real, vy: real, dx: real, dy: real, z: real, sqrt: real -> real)
    requires IsSqrt(sqrt) && (dx, dy) != (0.0, 0.0) && 0.0 <= z
    ensures Norm2(dx, dy) >= Reach(z) * Reach(z) ==> Repel(vx, vy, dx, dy, z, sqrt) == (vx, vy)
    ensures Norm2(dx, dy) < Reach(z) * Reach(z) ==>
              var r := Repel(vx, vy, dx, dy, z, sqrt);
              var d := sqrt(Norm2(dx, dy));
              && (r.0 - vx) * dx + (r.1 - vy) * dy < 0.0
              && (r.0 - vx) * dy == (r.1 - vy) * dx
              && Norm2(r.0 - vx, r.1 - vy) == Strength(d, Reach(z)) * Strength(d, Reach(z))
              && 0.0 < Strength(d, Reach(z)) < 1.0
  {
    var d := sqrt(Norm2(dx, dy));
    RepelSteers(vx, vy, dx, dy, z, sqrt);
    SquareMonotone(d, Reach(z));
    if d < Reach(z) {
      SteerPushesAway(vx, vy, dx, dy, d, Reach(z));
    }
  }

  /** The speed limit with the speed taken by `sqrt`. */
  function Limit(vx: real, vy: real, sqrt: real -> real): (r: (real, real))
    requires IsSqrt(sqrt)
  {
    SquareSumNonNegative(vx, vy);
    RootOf(sqrt, Norm2(vx, vy));
    Cap(vx, vy, sqrt(Norm2(vx, vy)))
  }

  /**
   * After the speed limit the speed is at most MaxSpeed; a velocity no faster
   * than that is kept as it is, a faster one is rescaled to length exactly
   * MaxSpeed in the same direction.
   */
  lemma {:induction false} LimitCapsSpeed(vx: real, vy: real, sqrt: real -> real)
    requires IsSqrt(sqrt)
    ensures var r := Limit(vx, vy, sqrt);
            Norm2(r.0, r.1) <= MaxSpeed * MaxSpeed
    ensures Norm2(vx, vy) <= MaxSpeed * MaxSpeed ==> Limit(vx, vy, sqrt) == (vx, vy)
    ensures Norm2(vx, vy) > MaxSpeed * MaxSpeed ==>
              var r := Limit(vx, vy, sqrt);
              && Norm2(r.0, r.1) == MaxSpeed * MaxSpeed
              && r.0 * vy == r.1 * vx
              && r.0 * vx + r.1 * vy > 0.0
  {
    SquareSumNonNegative(vx, vy);
    var s := sqrt(Norm2(vx, vy));
    RootOf(sqrt, Norm2(vx, vy));
    SquareMonotone(s, MaxSpeed);
    CapLimits(vx, vy, s);
  }

  /** One coordinate moved by its velocity scaled by depth + 1: nearer particles move faster. */
  function Displace(p: real, v: real, z: real): real {
    p + v * (z + 1.0)
  }

  /** Position after displacement and wrapping, before the pointer force. */
  function Landing(m: Motion, w: nat, h: nat): (r: (real, real))
    ensures 0.0 <= r.0 <= w as real && 0.0 <= r.1 <= h as real
  {
    (Wrap(Displace(m.x, m.speedX, m.z), w), Wrap(Displace(m.y, m.speedY, m.z), h))
  }

  /** Everything a particle keeps between frames: on the canvas, depth in range, speed limited. */
  predicate InBounds(m: Motion, w: nat, h: nat) {
    && 0.0 <= m.x <= w as real && 0.0 <= m.y <= h as real
    && 0.0 <= m.z <= MaxDepth
    && Norm2(m.speedX, m.speedY) <= MaxSpeed * MaxSpeed
  }

  /**
   * The velocity half of the update: pointer force for the offset (dx, dy) to
   * the pointer at depth z, then damping, then the speed limit.
   */
  function Velocity(vx: real, vy: real, dx: real, dy: real, z: real, sqrt: real -> real): (r: (real, real))
    requires IsSqrt(sqrt) && (dx, dy) != (0.0, 0.0) && 0.0 <= z
  {
    var pushed := Repel(vx, vy, dx, dy, z, sqrt);
    var damped := Damp(pushed.0, pushed.1);
    Limit(damped.0, damped.1, sqrt)
  }

  /** Whatever the pointer does, the velocity leaves the update under the speed cap. */
  lemma VelocityCapped(vx: real, vy: real, dx: real, dy: real, z: real, sqrt: real -> real)
    requires IsSqrt(sqrt) && (dx, dy) != (0.0, 0.0) && 0.0 <= z
    ensures var r := Velocity(vx, vy, dx, dy, z, sqrt);
            Norm2(r.0, r.1) <= MaxSpeed * MaxSpeed
  {
    var pushed := Repel(vx, vy, dx, dy, z, sqrt);
    var damped := Damp(pushed.0, pushed.1);
    LimitCapsSpeed(damped.0, damped.1, sqrt);
  }

  /**
   * The whole update rule in its source order: displace by velocity times
   * (old depth + 1), drift and clamp depth, wrap, then the velocity half with
   * the new position and depth.
   */
  function Advance(m: Motion, speedZ: real, w: nat, h: nat, mouseX: real, mouseY: real,
                   sqrt: real -> real): (r: Motion)
    requires IsSqrt(sqrt)
    requires Landing(m, w, h) != (mouseX, mouseY)
    ensures (r.x, r.y) == Landing(m, w, h)
  {
    var p := Landing(m, w, h);
    var z := ClampDepth(m.z + speedZ);
    var v := Velocity(m.speedX, m.speedY, mouseX - p.0, mouseY - p.1, z, sqrt);
    Motion(p.0, p.1, z, v.0, v.1)
  }

  /** Every step keeps the particle on the canvas, in depth and under the speed cap. */
  lemma AdvanceInBounds(m: Motion, speedZ: real, w: nat, h: nat, mouseX: real, mouseY: real,
                        sqrt: real -> real)
    requires IsSqrt(sqrt)
    requires Landing(m, w, h) != (mouseX, mouseY)
    ensures InBounds(Advance(m, speedZ, w, h, mouseX, mouseY, sqrt), w, h)
  {
    var p := Landing(m, w, h);
    VelocityCapped(m.speedX, m.speedY, mouseX - p.0, mouseY - p.1, ClampDepth(m.z + speedZ), sqrt);
  }

  /**
   * The update's domain is not always met: a particle in the far corner of
   * the canvas moving outwards wraps to (0, 0) on both axes, which is where
   * the pointer sits until the first pointer move; its distance to the
   * pointer is then 0, the value the force divides by.
   */
  lemma CornerReachesPointer(w: nat, h: nat)
    ensures InBounds(Motion(w as real, h as real, 0.0, 0.5, 0.5), w, h)
    ensures Landing(Motion(w as real, h as real, 0.0, 0.5, 0.5), w, h) == (0.0, 0.0)
  {
  }

  /** Draw-time fill alpha (depth + 1) / 3. */
  function Opacity(z: real): (r: real)
    ensures 0.0 <= z <= MaxDepth ==> 1.0 / 3.0 <= r <= 1.0
  {
    (z + 1.0) / 3.0
  }

  /** Draw-time radius size * (depth + 1). */
  function Radius(size: real, z: real): (r: real)
    ensures 0.0 <= z <= MaxDepth && size >= 0.0 ==> size <= r <= 3.0 * size
  {
    if 0.0 <= z <= MaxDepth && size >= 0.0 then
      ProductNonNegative(size, z);
      ProductNonNegative(size, MaxDepth - z);
      size * (z + 1.0)
    else
      size * (z + 1.0)
  }

  // ---------------------------------------------------------------------
  // Arithmetic facts about the step functions.
  // ---------------------------------------------------------------------

  /** A product of two positive numbers plus a non-negative one is positive. */
  lemma ProductPositive(p: real, q: real, a: real)
    requires p > 0.0 && q > 0.0 && a >= 0.0
    ensures p * q + a > 0.0
  {
    assert p * q > 0.0;
  }

  /** A product of two non-negative numbers is non-negative. */
  lemma ProductNonNegative(p: real, q: real)
    requires p >= 0.0 && q >= 0.0
    ensures p * q >= 0.0
  {
  }

  /** Scaling a vector by k scales its squared length by k * k. */
  lemma SquareSumScales(vx: real, vy: real, k: real)
    ensures Norm2(vx * k, vy * k) == (k * k) * Norm2(vx, vy)
  {
  }

  lemma SquareSumNonNegative(vx: real, vy: real)
    ensures Norm2(vx, vy) >= 0.0
  {
    assert vx * vx >= 0.0 && vy * vy >= 0.0;
  }

  /** What IsSqrt promises at one argument. */
  lemma RootOf(sqrt: real -> real, v: real)
    requires IsSqrt(sqrt) && 0.0 <= v
    ensures 0.0 <= sqrt(v) && sqrt(v) * sqrt(v) == v
    ensures 0.0 < v ==> 0.0 < sqrt(v)
  {
  }

  /** Comparing non-negative reals is comparing their squares. */
  lemma SquareMonotone(a: real, b: real)
    requires 0.0 <= a && 0.0 <= b
    ensures a < b <==> a * a < b * b
  {
    if a < b {
      ProductPositive(b - a, b + a, 0.0);
    } else {
      ProductNonNegative(a - b, a + b);
    }
  }

  /** A non-zero offset has a positive squared length. */
  lemma SquareSumPositive(dx: real, dy: real)
    requires (dx, dy) != (0.0, 0.0)
    ensures Norm2(dx, dy) > 0.0
  {
    if dx > 0.0 {
      ProductPositive(dx, dx, dy * dy);
    } else if dx < 0.0 {
      ProductPositive(-dx, -dx, dy * dy);
    } else if dy > 0.0 {
      ProductPositive(dy, dy, dx * dx);
    } else {
      ProductPositive(-dy, -dy, dx * dx);
    }
  }

  /** Strictly between the pointer and the edge of its reach the strength is in (0, 1). */
  lemma StrengthBetween(d: real, reach: real)
    requires 0.0 < d < reach
    ensures 0.0 < Strength(d, reach) < 1.0
  {
    var f := Strength(d, reach);
    assert f * reach == reach - d;
    if f <= 0.0 {
      ProductNonNegative(-f, reach);
    }
    if f >= 1.0 {
      ProductNonNegative(f - 1.0, reach);
    }
  }

  /** The code's (a / d) * force * 2 * 0.5 is a times force / d. */
  lemma HalvedForce(a: real, d: real, force: real)
    requires d != 0.0
    ensures (a / d) * force * 2.0 * 0.5 == a * (force / d)
  {
  }

  /**
   * Inside the capture radius the pointer force changes the velocity by an
   * impulse of length (reach - d) / reach in (0, 1), parallel to the offset
   * (dx, dy) and pointing away from the pointer.
   */
  lemma {:induction false} SteerPushesAway(vx: real, vy: real, dx: real, dy: real, d: real, reach: real)
    requires d > 0.0 && d * d == Norm2(dx, dy) && reach > 0.0 && d < reach
    ensures 0.0 < Strength(d, reach) < 1.0
    ensures var r := Steer(vx, vy, dx, dy, d, reach);
            (r.0 - vx) * dx + (r.1 - vy) * dy < 0.0
    ensures var r := Steer(vx, vy, dx, dy, d, reach);
            (r.0 - vx) * dy == (r.1 - vy) * dx
    ensures var r := Steer(vx, vy, dx, dy, d, reach);
            Norm2(r.0 - vx, r.1 - vy) == Strength(d, reach) * Strength(d, reach)
  {
    var f := Strength(d, reach);
    StrengthBetween(d, reach);
    SteerImpulse(vx, vy, dx, dy, d, reach);
    var r := Steer(vx, vy, dx, dy, d, reach);
    PushGeometry(r.0 - vx, r.1 - vy, dx, dy, d, f / d, f);
  }

  /**
   * An impulse (ix, iy) = -q (dx, dy) with q d = f > 0, where d > 0 is the
   * length of (dx, dy): it points against the offset, is parallel to it and
   * has squared length f * f.
   */
  lemma PushGeometry(ix: real, iy: real, dx: real, dy: real, d: real, q: real, f: real)
    requires ix == dx * -q && iy == dy * -q
    requires d * d == Norm2(dx, dy) && q * d == f && 0.0 < f && 0.0 < d
    ensures ix * dx + iy * dy < 0.0
    ensures ix * dy == iy * dx
    ensures Norm2(ix, iy) == f * f
  {
    ScaledOffset(dx, dy, d, q);
    EqualTimes(q * d, f, d);
    EqualTimes(ix, dx * -q, dx);
    EqualTimes(iy, dy * -q, dy);
    EqualTimes(ix, dx * -q, dy);
    EqualTimes(iy, dy * -q, dx);
    ProductPositive(f, d, 0.0);
  }

  lemma EqualTimes(a: real, b: real, c: real)
    requires a == b
    ensures a * c == b * c
  {
  }

  /**
   * The offset (dx, dy) of length d scaled by -q: its dot product with the
   * offset is -(q d) d, its squared length (q d)^2, and it is parallel to the offset.
   */
  lemma ScaledOffset(dx: real, dy: real, d: real, q: real)
    requires d * d == Norm2(dx, dy)
    ensures (dx * -q) * dx + (dy * -q) * dy == -((q * d) * d)
    ensures Norm2(dx * -q, dy * -q) == (q * d) * (q * d)
    ensures (dx * -q) * dy == (dy * -q) * dx
  {
    SquareSumScales(dx, dy, -q);
    assert (dx * -q) * dx + (dy * -q) * dy == -q * Norm2(dx, dy);
  }

  /** Inside the reach the impulse is the offset scaled by -(strength / d). */
  lemma SteerImpulse(vx: real, vy: real, dx: real, dy: real, d: real, reach: real)
    requires d > 0.0 && d * d == Norm2(dx, dy) && reach > 0.0 && d < reach
    ensures Steer(vx, vy, dx, dy, d, reach).0 == vx - dx * (Strength(d, reach) / d)
    ensures Steer(vx, vy, dx, dy, d, reach).1 == vy - dy * (Strength(d, reach) / d)
  {
    HalvedForce(dx, d, Strength(d, reach));
    HalvedForce(dy, d, Strength(d, reach));
  }

  /**
   * After the speed limit the speed is at most MaxSpeed; a velocity that was
   * faster is rescaled to exactly MaxSpeed in the same direction.
   */
  lemma {:induction false} CapLimits(vx: real, vy: real, s: real)
    requires s >= 0.0 && s * s == Norm2(vx, vy)
    ensures var r := Cap(vx, vy, s);
            && Norm2(r.0, r.1) <= MaxSpeed * MaxSpeed
            && (s > MaxSpeed ==>
                  && Norm2(r.0, r.1) == MaxSpeed * MaxSpeed
                  && r.0 * vy == r.1 * vx
                  && r.0 * vx + r.1 * vy > 0.0)
  {
    var r := Cap(vx, vy, s);
    if s > MaxSpeed {
      var k := MaxSpeed / s;
      assert r.0 == vx * k && r.1 == vy * k;
      SquareSumScales(vx, vy, k);
      assert k * s == MaxSpeed;
      assert (k * k) * (s * s) == (k * s) * (k * s);
      assert Norm2(r.0, r.1) == MaxSpeed * MaxSpeed;
      assert r.0 * vx + r.1 * vy == k * (s * s);
      ProductPositive(k, s * s, 0.0);
    } else {
      SquareMonotone(s, MaxSpeed);
    }
  }

  /**
   * The pointer block of the update: velocity after the push away from the
   * pointer at offset (dx, dy) for a particle at depth z.
   */
  method PointerForce(vx: real, vy: real, dx: real, dy: real, z: real, sqrt: real -> real)
    returns (speedX: real, speedY: real)
    requires IsSqrt(sqrt) && (dx, dy) != (0.0, 0.0) && 0.0 <= z
    ensures speedX == Repel(vx, vy, dx, dy, z, sqrt).0 && speedY == Repel(vx, vy, dx, dy, z, sqrt).1
  {
    var distance := sqrt(dx * dx + dy * dy);
    var maxDistance := 150.0 * (z + 1.0);
    assert distance == sqrt(Norm2(dx, dy)) && maxDistance == Reach(z);
    RepelSteers(vx, vy, dx, dy, z, sqrt);
    SteerFormula(vx, vy, dx, dy, distance, maxDistance);
    speedX, speedY := vx, vy;
    if distance < maxDistance {
      var force := (maxDistance - distance) / maxDistance;
      var forceX := (dx / distance) * force * 2.0;
      var forceY := (dy / distance) * force * 2.0;
      speedX := speedX - forceX * 0.5;
      speedY := speedY - forceY * 0.5;
    }
  }

  /** The speed-limit block of the update: velocity after rescaling to at most MaxSpeed. */
  method LimitSpeed(vx: real, vy: real, sqrt: real -> real) returns (speedX: real, speedY: real)
    requires IsSqrt(sqrt)
    ensures speedX == Limit(vx, vy, sqrt).0 && speedY == Limit(vx, vy, sqrt).1
  {
    speedX, speedY := vx, vy;
    var maxSpeed := 1.5;
    var speed := sqrt(speedX * speedX + speedY * speedY);
    assert speedX * speedX + speedY * speedY == Norm2(vx, vy);
    if speed > maxSpeed {
      speedX := (speedX / speed) * maxSpeed;
      speedY := (speedY / speed) * maxSpeed;
    }
  }

  /** Repel takes a positive distance whose square is the squared offset, and steers by it. */
  lemma RepelSteers(vx: real, vy: real, dx: real, dy: real, z: real, sqrt: real -> real)
    requires IsSqrt(sqrt) && (dx, dy) != (0.0, 0.0) && 0.0 <= z
    ensures var d := sqrt(Norm2(dx, dy));
            && d > 0.0 && d * d == Norm2(dx, dy) && Reach(z) > 0.0
            && Repel(vx, vy, dx, dy, z, sqrt).0 == Steer(vx, vy, dx, dy, d, Reach(z)).0
            && Repel(vx, vy, dx, dy, z, sqrt).1 == Steer(vx, vy, dx, dy, d, Reach(z)).1
  {
    SquareSumPositive(dx, dy);
    RootOf(sqrt, Norm2(dx, dy));
  }

  /** The source's inline arithmetic for the pointer force is Steer. */
  lemma SteerFormula(vx: real, vy: real, dx: real, dy: real, d: real, reach: real)
    requires d > 0.0 && d * d == Norm2(dx, dy) && reach > 0.0
    ensures d < reach ==> Steer(vx, vy, dx, dy, d, reach).0 == vx - ((dx / d) * ((reach - d) / reach) * 2.0) * 0.5
    ensures d < reach ==> Steer(vx, vy, dx, dy, d, reach).1 == vy - ((dy / d) * ((reach - d) / reach) * 2.0) * 0.5
  {
  }

  /**
   * A particle: position, depth, visual size, velocity, depth drift and colour.
   */
  class Particle {
    var x: real
    var y: real
    var z: real
    var size: real
    var speedX: real
    var speedY: real
    var speedZ: real
    var color: Color

    function State(): Motion
      reads this
    {
      Motion(x, y, z, speedX, speedY)
    }

    /** What every particle keeps on a w-by-h canvas. */
    predicate Valid(w: nat, h: nat)
      reads this
    {
      && InBounds(State(), w, h)
      && 1.0 <= size < 3.0
      && -0.01 <= speedZ < 0.01
      && 30 <= color.alphaHundredths <= 80
    }

    /** The fields hold what the constructor computes from the draws r on a w-by-h canvas. */
    predicate SpawnedFrom(w: nat, h: nat, r: Draws)
      reads this
    {
      && x == r.x * w as real
      && y == r.y * h as real
      && z == r.z * 2.0
      && size == r.size * 2.0 + 1.0
      && speedX == (r.speedX * 2.0 - 1.0) * 0.5
      && speedY == (r.speedY * 2.0 - 1.0) * 0.5
      && speedZ == r.speedZ * 0.02 - 0.01
      && color == Color(if r.hue > 0.5 then DodgerBlue else Orange, Hundredths(r.alpha * 0.5 + 0.3))
    }

    constructor (w: nat, h: nat, r: Draws)
      requires r.InUnit()
      ensures SpawnedFrom(w, h, r)
      ensures Valid(w, h)
    {
      x := r.x * w as real;
      y := r.y * h as real;
      z := r.z * 2.0;
      size := r.size * 2.0 + 1.0;
      speedX := (r.speedX * 2.0 - 1.0) * 0.5;
      speedY := (r.speedY * 2.0 - 1.0) * 0.5;
      speedZ := r.speedZ * 0.02 - 0.01;
      color := Color(if r.hue > 0.5 then DodgerBlue else Orange, Hundredths(r.alpha * 0.5 + 0.3));
      new;
      SpawnedRanges(this, w, h, r);
    }

    /**
     * One frame of movement in the source's order: move and wrap, then the
     * pointer block, the damping and the speed-limit block.
     */
    method Update(w: nat, h: nat, mouseX: real, mouseY: real, sqrt: real -> real)
      requires IsSqrt(sqrt)
      requires Landing(State(), w, h) != (mouseX, mouseY)
      modifies this
      ensures State() == Advance(old(State()), speedZ, w, h, mouseX, mouseY, sqrt)
      ensures InBounds(State(), w, h)
      ensures size == old(size) && speedZ == old(speedZ) && color == old(color)
    {
      ghost var m := State();
      Move(w, h);
      Push(mouseX, mouseY, sqrt);
      AdvanceInBounds(m, speedZ, w, h, mouseX, mouseY, sqrt);
    }

    /**
     * The first half of the update: displace by the velocity scaled by
     * depth + 1, drift and clamp the depth, then wrap at the canvas edges.
     */
    method Move(w: nat, h: nat)
      modifies this
      ensures (x, y) == Landing(old(State()), w, h)
      ensures z == ClampDepth(old(z) + speedZ)
      ensures speedX == old(speedX) && speedY == old(speedY)
      ensures size == old(size) && speedZ == old(speedZ) && color == old(color)
    {
      ghost var m := State();
      x := x + speedX * (z + 1.0);
      y := y + speedY * (z + 1.0);
      ghost var x0, y0 := x, y;
      assert x0 == Displace(m.x, m.speedX, m.z);
      assert y0 == Displace(m.y, m.speedY, m.z);
      z := z + speedZ;

      if z > 2.0 { z := 2.0; }
      if z < 0.0 { z := 0.0; }

      if x > w as real { x := 0.0; }
      if x < 0.0 { x := w as real; }
      assert x == Wrap(x0, w);
      if y > h as real { y := 0.0; }
      if y < 0.0 { y := h as real; }
      assert y == Wrap(y0, h);
    }

    /**
     * The second half of the update: the pointer force at the new position
     * and depth, damping, and the speed limit, each on the velocity fields.
     */
    method Push(mouseX: real, mouseY: real, sqrt: real -> real)
      requires IsSqrt(sqrt) && (x, y) != (mouseX, mouseY) && 0.0 <= z
      modifies this
      ensures x == old(x) && y == old(y) && z == old(z)
      ensures (speedX, speedY) == Velocity(old(speedX), old(speedY), mouseX - x, mouseY - y, z, sqrt)
      ensures size == old(size) && speedZ == old(speedZ) && color == old(color)
    {
      var dx := mouseX - x;
      var dy := mouseY - y;
      speedX, speedY := PointerForce(speedX, speedY, dx, dy, z, sqrt);
      ghost var pushed := (speedX, speedY);

      speedX := speedX * 0.99;
      speedY := speedY * 0.99;
      ghost var damped := Damp(pushed.0, pushed.1);
      assert speedX == damped.0 && speedY == damped.1;
      speedX, speedY := LimitSpeed(speedX, speedY, sqrt);
    }

    /** The numbers `draw` computes: fill alpha (z + 1) / 3 and radius size * (z + 1). */
    function Draw(): (d: Disc)
      reads this
      ensures d.x == x && d.y == y
      ensures 0.0 <= z <= MaxDepth && size >= 0.0 ==>
                1.0 / 3.0 <= d.opacity <= 1.0 && size <= d.radius <= 3.0 * size
    {
      Disc(x, y, Radius(size, z), Opacity(z))
    }
  }

  /**
   * A freshly made particle lies on the canvas (strictly inside the far edges
   * when the canvas has area along that axis), has depth in [0, 2), size in
   * [1, 3), speed components of magnitude at most 0.5, drift in [-0.01, 0.01)
   * and base alpha in [0.30, 0.80]; so it satisfies Valid.
   */
  lemma SpawnedRanges(p: Particle, w: nat, h: nat, r: Draws)
    requires r.InUnit() && p.SpawnedFrom(w, h, r)
    ensures 0.0 <= p.x <= w as real && (w > 0 ==> p.x < w as real)
    ensures 0.0 <= p.y <= h as real && (h > 0 ==> p.y < h as real)
    ensures 0.0 <= p.z < 2.0 && 1.0 <= p.size < 3.0
    ensures -0.5 <= p.speedX < 0.5 && -0.5 <= p.speedY < 0.5
    ensures -0.01 <= p.speedZ < 0.01
    ensures 30 <= p.color.alphaHundredths <= 80
    ensures p.Valid(w, h)
  {
    ScaledBelow(r.x, w, p.x);
    ScaledBelow(r.y, h, p.y);
    SlowStart(p.speedX, p.speedY);
    AlphaRange(r.alpha);
  }

  /** Both components in [-0.5, 0.5] keep the speed below MaxSpeed. */
  lemma SlowStart(sx: real, sy: real)
    requires -0.5 <= sx <= 0.5 && -0.5 <= sy <= 0.5
    ensures Norm2(sx, sy) <= MaxSpeed * MaxSpeed
  {
    SquareAtMostQuarter(sx);
    SquareAtMostQuarter(sy);
  }

  /** The base alpha (u * 0.5 + 0.3).toFixed(2) of a draw u in [0, 1) is 0.30 .. 0.80. */
  lemma AlphaRange(u: real)
    requires 0.0 <= u < 1.0
    ensures 30 <= Hundredths(u * 0.5 + 0.3) <= 80
  {
    var a := u * 0.5 + 0.3;
    assert 30.0 <= a * 100.0 < 80.0;
  }

  /** A draw u in [0, 1) scaled by an extent n lands in [0, n], and below n when n > 0. */
  lemma ScaledBelow(u: real, n: nat, p: real)
    requires 0.0 <= u < 1.0 && p == u * n as real
    ensures 0.0 <= p <= n as real
    ensures n > 0 ==> p < n as real
  {
    ProductNonNegative(u, n as real);
    ProductNonNegative(1.0 - u, n as real);
    if n > 0 {
      ProductPositive(1.0 - u, n as real, 0.0);
    }
  }

  lemma SquareAtMostQuarter(v: real)
    requires -0.5 <= v <= 0.5
    ensures v * v <= 0.25
  {
    ProductNonNegative(0.5 - v, 0.5 + v);
  }
}
