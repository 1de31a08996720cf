/**
 * A sphere bouncing between walls at -1 and 1 on each axis: explicit-Euler
 * updates of its velocity and position, one axis at a time, and a wall
 * collision that clamps the centre to [-1 - radius, 1 - radius] and
 * reverses the velocity along each axis.
 */
module Particles {

  // ---------------------------------------------------------------------
  // The constructor's random draws

  /** A value Math.random() can return. */
  predicate Unit(r: real)
  {
    0.0 <= r < 1.0
  }

  /** A coordinate of the starting position, r * 2 - 1. */
  function DrawnPosition(r: real): (p: real)
    requires Unit(r)
    ensures -1.0 <= p < 1.0
  {
    r * 2.0 - 1.0
  }

  /** A component of the starting velocity, r * 6 - 3. */
  function DrawnVelocity(r: real): (v: real)
    requires Unit(r)
    ensures -3.0 <= v < 3.0
  {
    r * 6.0 - 3.0
  }

  /** The radius, r * 0.15 + 0.02. */
  function DrawnRadius(r: real): (radius: real)
    requires Unit(r)
    ensures 0.02 <= radius < 0.17
  {
    r * 0.15 + 0.02
  }

  /** The mass, r + 0.5. */
  function DrawnMass(r: real): (m: real)
    requires Unit(r)
    ensures 0.5 <= m < 1.5
  {
    r + 0.5
  }

  // ---------------------------------------------------------------------
  // Explicit Euler

  /** One Euler step on the three axes: x[k] scaled by f, plus rate[k] * dt. */
  function Euler(x: seq<real>, rate: seq<real>, f: real, dt: real): (r: seq<real>)
    requires |x| == 3 && |rate| == 3
    ensures |r| == 3
  {
    [x[0] * f + rate[0] * dt, x[1] * f + rate[1] * dt, x[2] * f + rate[2] * dt]
  }

  /**
   * A property of the model's position step (update_position at a fixed
   * velocity), not of the animation, which updates the velocity between
   * moves: two steps of dt1 and dt2 land where one step of dt1 + dt2 does.
   */
  lemma EulerPositionSteps(p: seq<real>, v: seq<real>, dt1: real, dt2: real)
    requires |p| == 3 && |v| == 3
    ensures Euler(Euler(p, v, 1.0, dt1), v, 1.0, dt2) == Euler(p, v, 1.0, dt1 + dt2)
  {
    forall k | 0 <= k < 3
      ensures (p[k] * 1.0 + v[k] * dt1) * 1.0 + v[k] * dt2 == p[k] * 1.0 + v[k] * (dt1 + dt2)
    {
      assert v[k] * (dt1 + dt2) == v[k] * dt1 + v[k] * dt2;
    }
  }

  /**
   * The drag factor update_velocity applies over dt is (1 - drag) ** dt, and
   * by the exponent law (1 - drag) ** (dt1 + dt2) is (1 - drag) ** dt1 times
   * (1 - drag) ** dt2. For a `decay` obeying that law at dt1 and dt2, two
   * velocity steps without acceleration for dt1 and dt2 equal one step for
   * dt1 + dt2.
   */
  lemma EulerDragSteps(v: seq<real>, decay: real -> real, dt1: real, dt2: real)
    requires |v| == 3
    requires decay(dt1 + dt2) == decay(dt1) * decay(dt2)
    ensures Euler(Euler(v, [0.0, 0.0, 0.0], decay(dt1), dt1), [0.0, 0.0, 0.0], decay(dt2), dt2)
            == Euler(v, [0.0, 0.0, 0.0], decay(dt1 + dt2), dt1 + dt2)
  {
    var once := Euler(v, [0.0, 0.0, 0.0], decay(dt1), dt1);
    var twice := Euler(once, [0.0, 0.0, 0.0], decay(dt2), dt2);
    var both := Euler(v, [0.0, 0.0, 0.0], decay(dt1 + dt2), dt1 + dt2);
    forall k | 0 <= k < 3
      ensures twice[k] == both[k]
    {
      assert once[k] == v[k] * decay(dt1);
      assert (v[k] * decay(dt1)) * decay(dt2) == v[k] * (decay(dt1) * decay(dt2));
    }
  }

  // ---------------------------------------------------------------------
  // Collision with the walls, one axis at a time

  /** The position and velocity of the particle along one axis. */
  datatype Axis = Axis(p: real, v: real)

  /**
   * One turn of resolve_collision's loop: at or below min, clamp to min and
   * negate the velocity; then, at or above max, clamp to max and negate it.
   */
  function ResolveAxis(a: Axis, min: real, max: real): (r: Axis)
    ensures r.v == a.v || r.v == -a.v
    ensures min <= max ==> min <= r.p <= max
  {
    var b := if a.p <= min then Axis(min, -a.v) else a;
    if b.p >= max then Axis(max, -b.v) else b
  }

  /** Strictly between the walls nothing happens. */
  lemma ResolveInside(a: Axis, min: real, max: real)
    requires min < a.p < max
    ensures ResolveAxis(a, min, max) == a
  {
  }

  /**
   * When min < max a wall that is hit reverses the velocity exactly once:
   * the particle ends on that wall moving the other way.
   */
  lemma ResolveHit(a: Axis, min: real, max: real)
    requires min < max
    ensures a.p <= min ==> ResolveAxis(a, min, max) == Axis(min, -a.v)
    ensures a.p >= max ==> ResolveAxis(a, min, max) == Axis(max, -a.v)
  {
  }

  /**
   * One frame from rest at the centre of the box: update_velocity,
   * update_position and resolve_collision, in the order the animation calls
   * them. Gravity gives velocity (0, -9.8 dt, 0) whatever the drag factor,
   * the particle moves to (0, -9.8 dt^2, 0), and the walls leave x and z
   * alone. Along y it has fallen 9.8 dt^2 unless that takes it to the lower
   * clamping plane -1 - radius, where it is clamped and bounces up at 9.8 dt.
   */
  lemma FrameFromRest(rd: real, dt: real, decay: real)
    requires Unit(rd)
    ensures var v := Euler([0.0, 0.0, 0.0], [0.0, -9.8, 0.0], decay, dt);
            var p := Euler([0.0, 0.0, 0.0], v, 1.0, dt);
            var min, max := -1.0 - DrawnRadius(rd), 1.0 - DrawnRadius(rd);
            v == [0.0, -9.8 * dt, 0.0] && p == [0.0, -9.8 * dt * dt, 0.0] &&
            ResolveAxis(Axis(p[0], v[0]), min, max) == Axis(0.0, 0.0) &&
            ResolveAxis(Axis(p[2], v[2]), min, max) == Axis(0.0, 0.0) &&
            ResolveAxis(Axis(p[1], v[1]), min, max)
            == if min < -9.8 * dt * dt then Axis(-9.8 * dt * dt, -9.8 * dt) else Axis(min, 9.8 * dt)
  {
    var v := Euler([0.0, 0.0, 0.0], [0.0, -9.8, 0.0], decay, dt);
    var p := Euler([0.0, 0.0, 0.0], v, 1.0, dt);
    assert v[0] == 0.0 * decay + 0.0 * dt == 0.0 && v[1] == -9.8 * dt && v[2] == 0.0;
    assert p[0] == 0.0 && p[1] == -9.8 * dt * dt && p[2] == 0.0;
    assert 0.0 <= dt * dt;
  }

  /**
   * With both walls at the same place a particle at or below them is
   * clamped by both tests and its velocity flips twice, back to what it was.
   */
  lemma ResolveDegenerate(a: Axis, m: real)
    requires a.p <= m
    ensures ResolveAxis(a, m, m) == Axis(m, a.v)
  {
  }

  /**
   * A clamped position stays put under a second resolution, although a
   * particle left on a wall has its velocity reversed again.
   */
  lemma ResolveClampStable(a: Axis, min: real, max: real)
    requires min < max
    ensures ResolveAxis(ResolveAxis(a, min, max), min, max).p == ResolveAxis(a, min, max).p
  {
  }

  // ---------------------------------------------------------------------
  // The Particle class

  class Particle {
    var position: seq<real>
    var velocity: seq<real>
    /** Fields the source sets in the constructor and never writes again. */
    const acceleration: seq<real>
    const color: seq<real>
    const radius: real
    const mass: real
    const drag: real
    const boxBoundMax: real
    const boxBoundMin: real

    /** Three components per vector, and a box that is not empty. */
    ghost predicate Valid()
      reads this
    {
      |position| == 3 && |velocity| == 3 && |acceleration| == 3 && |color| == 3 && boxBoundMin < boxBoundMax
    }

    /** Every coordinate lies between the two clamping planes resolve_collision uses. */
    ghost predicate InBox()
      reads this
      requires Valid()
    {
      forall k :: 0 <= k < 3 ==> boxBoundMin - radius <= position[k] <= boxBoundMax - radius
    }

    /**
     * The constructor, with the eleven Math.random() draws as arguments in
     * the order the source takes them: position, velocity, color, radius,
     * mass.
     */
    constructor(pd: seq<real>, vd: seq<real>, cd: seq<real>, rd: real, md: real)
      requires |pd| == 3 && |vd| == 3 && |cd| == 3
      requires forall k :: 0 <= k < 3 ==> Unit(pd[k]) && Unit(vd[k]) && Unit(cd[k])
      requires Unit(rd) && Unit(md)
      ensures Valid()
      ensures position == [DrawnPosition(pd[0]), DrawnPosition(pd[1]), DrawnPosition(pd[2])]
      ensures velocity == [DrawnVelocity(vd[0]), DrawnVelocity(vd[1]), DrawnVelocity(vd[2])]
      ensures acceleration == [0.0, -9.8, 0.0] && color == cd
      ensures radius == DrawnRadius(rd) && mass == DrawnMass(md) && drag == 0.15
      ensures boxBoundMax == 1.0 && boxBoundMin == -1.0
    {
      acceleration := [0.0, -9.8, 0.0];
      drag := 0.15;
      boxBoundMax := 1.0;
      boxBoundMin := -1.0;
      color := [cd[0], cd[1], cd[2]];
      radius := DrawnRadius(rd);
      mass := DrawnMass(md);
      new;
      position := [0.0, 0.0, 0.0];
      velocity := [0.0, 0.0, 0.0];
      position := position[0 := DrawnPosition(pd[0])];
      position := position[1 := DrawnPosition(pd[1])];
      position := position[2 := DrawnPosition(pd[2])];
      velocity := velocity[0 := DrawnVelocity(vd[0])];
      velocity := velocity[1 := DrawnVelocity(vd[1])];
      velocity := velocity[2 := DrawnVelocity(vd[2])];
    }

    /**
     * update_velocity(dt): velocity[k] * decay + acceleration[k] * dt on each
     * axis, where decay stands for (1 - drag) ** dt with the page's global drag.
     */
    method UpdateVelocity(dt: real, decay: real)
      requires Valid()
      modifies this`velocity
      ensures Valid()
      ensures velocity == Euler(old(velocity), acceleration, decay, dt)
    {
      ghost var v0 := velocity;
      velocity := velocity[0 := velocity[0] * decay + acceleration[0] * dt];
      velocity := velocity[1 := velocity[1] * decay + acceleration[1] * dt];
      velocity := velocity[2 := velocity[2] * decay + acceleration[2] * dt];
      assert forall k :: 0 <= k < 3 ==> velocity[k] == Euler(v0, acceleration, decay, dt)[k];
    }

    /** update_position(dt): position[k] += velocity[k] * dt on each axis. */
    method UpdatePosition(dt: real)
      requires Valid()
      modifies this`position
      ensures Valid()
      ensures position == Euler(old(position), velocity, 1.0, dt)
    {
      ghost var p0 := position;
      position := position[0 := position[0] + velocity[0] * dt];
      position := position[1 := position[1] + velocity[1] * dt];
      position := position[2 := position[2] + velocity[2] * dt];
      assert forall k :: 0 <= k < 3 ==> position[k] == Euler(p0, velocity, 1.0, dt)[k];
    }

    /**
     * resolve_collision(dt): each axis in turn against the planes
     * boxBoundMin - radius and boxBoundMax - radius. Axis k depends only on
     * position[k] and velocity[k]; dt is not used.
     */
    method ResolveCollision(dt: real)
      requires Valid()
      modifies this`position, this`velocity
      ensures Valid() && InBox()
      ensures forall k :: 0 <= k < 3 ==>
                Axis(position[k], velocity[k])
                == ResolveAxis(Axis(old(position)[k], old(velocity)[k]), boxBoundMin - radius, boxBoundMax - radius)
    {
      var max := boxBoundMax - radius;
      var min := boxBoundMin - radius;
      var i := 0;
      while i < 3
        invariant 0 <= i <= 3 && |position| == 3 && |velocity| == 3
        invariant forall k :: 0 <= k < i ==>
                    Axis(position[k], velocity[k]) == ResolveAxis(Axis(old(position)[k], old(velocity)[k]), min, max)
        invariant forall k :: i <= k < 3 ==> position[k] == old(position)[k] && velocity[k] == old(velocity)[k]
      {
        if position[i] <= min {
          position := position[i := min];
          velocity := velocity[i := velocity[i] * -1.0];
        }
        if position[i] >= max {
          position := position[i := max];
          velocity := velocity[i := velocity[i] * -1.0];
        }
        i := i + 1;
      }
    }
  }
}
