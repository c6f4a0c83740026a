/**
 * Camera poses and the pure numeric part of the teleport animation:
 * the cubic ease-in-out curve, per-component interpolation and the raw
 * progress of a move countdown. Positions and angles are exact reals; the
 * single-precision casts of the original are not modelled.
 */
module Poses {

  /** A Nukkit Location without its level: position and view angles. */
  datatype Pose = Pose(x: real, y: real, z: real, yaw: real, pitch: real)

  /** How far below the camera pose the proxy entity is kept. */
  const CameraYOffset: real := 10000.0

  /** The pose at which the proxy entity is placed for a camera pose. */
  function Below(p: Pose): Pose
  {
    p.(y := p.y - CameraYOffset)
  }

  function Cube(u: real): real
  {
    u * u * u
  }

  /** easeInOutCubic: 4t^3 on the first half, 1 - (2 - 2t)^3 / 2 on the second. */
  function EaseInOutCubic(t: real): real
  {
    if t < 0.5 then 4.0 * Cube(t) else 1.0 - Cube(-2.0 * t + 2.0) / 2.0
  }

  /** The curve starts at 0, passes through 1/2 halfway and ends at 1. */
  lemma EaseEndpoints()
    ensures EaseInOutCubic(0.0) == 0.0
    ensures EaseInOutCubic(0.5) == 0.5
    ensures EaseInOutCubic(1.0) == 1.0
  {
    assert Cube(0.0) == 0.0;
    assert Cube(1.0) == 1.0;
  }

  lemma CubeMonotone(a: real, b: real)
    requires 0.0 <= a <= b
    ensures 0.0 <= Cube(a) <= Cube(b)
  {
    assert 0.0 <= a * a <= a * b <= b * b by {
      assert a * a <= a * b;
      assert a * b <= b * b;
    }
    assert a * a * a <= b * b * a;
    assert b * b * a <= b * b * b;
  }

  /** The eased progress of a progress value in [0, 1] is again in [0, 1]. */
  lemma EaseRange(t: real)
    requires 0.0 <= t <= 1.0
    ensures 0.0 <= EaseInOutCubic(t) <= 1.0
    ensures t < 0.5 ==> EaseInOutCubic(t) < 0.5
    ensures t >= 0.5 ==> EaseInOutCubic(t) >= 0.5
  {
    if t < 0.5 {
      CubeMonotone(t, 0.5);
    } else {
      CubeMonotone(-2.0 * t + 2.0, 1.0);
    }
  }

  /** The curve never turns back: a later progress value is never eased to an earlier one. */
  lemma EaseMonotone(t1: real, t2: real)
    requires 0.0 <= t1 <= t2 <= 1.0
    ensures EaseInOutCubic(t1) <= EaseInOutCubic(t2)
  {
    if t2 < 0.5 {
      CubeMonotone(t1, t2);
    } else if t1 >= 0.5 {
      CubeMonotone(-2.0 * t2 + 2.0, -2.0 * t1 + 2.0);
    } else {
      EaseRange(t1);
      EaseRange(t2);
    }
  }

  /** Ease-in mirrors ease-out: the curve is point-symmetric about (1/2, 1/2). */
  lemma EaseSymmetric(t: real)
    requires 0.0 <= t <= 1.0
    ensures EaseInOutCubic(1.0 - t) == 1.0 - EaseInOutCubic(t)
  {
    if t < 0.5 {
      assert -2.0 * (1.0 - t) + 2.0 == 2.0 * t;
      CubeDouble(t);
    } else if t > 0.5 {
      assert -2.0 * t + 2.0 == 2.0 * (1.0 - t);
      CubeDouble(1.0 - t);
    } else {
      EaseEndpoints();
    }
  }

  lemma CubeDouble(u: real)
    ensures Cube(2.0 * u) == 8.0 * Cube(u)
  {
    assert (2.0 * u) * (2.0 * u) == 4.0 * (u * u);
    assert 4.0 * (u * u) * (2.0 * u) == 8.0 * (u * u * u);
  }

  /** One interpolated component: start + (end - start) * w. */
  function Lerp(s: real, e: real, w: real): real
  {
    s + (e - s) * w
  }

  /** Every component of a pose interpolated independently with the same weight. */
  function Interpolate(a: Pose, b: Pose, w: real): (p: Pose)
    ensures w == 0.0 ==> p == a
    ensures w == 1.0 ==> p == b
  {
    Pose(Lerp(a.x, b.x, w), Lerp(a.y, b.y, w), Lerp(a.z, b.z, w),
         Lerp(a.yaw, b.yaw, w), Lerp(a.pitch, b.pitch, w))
  }

  predicate Between(s: real, e: real, v: real)
  {
    (s <= v <= e) || (e <= v <= s)
  }

  /** A pose lies, component by component, between the two poses a and b. */
  predicate Within(a: Pose, b: Pose, p: Pose)
  {
    Between(a.x, b.x, p.x) && Between(a.y, b.y, p.y) && Between(a.z, b.z, p.z)
    && Between(a.yaw, b.yaw, p.yaw) && Between(a.pitch, b.pitch, p.pitch)
  }

  /** A pose between a and b is seen from below between the poses below a and b; b itself is between a and b. */
  lemma BelowWithin(a: Pose, b: Pose, p: Pose)
    ensures Within(a, b, b)
    ensures Within(a, b, p) ==> Within(Below(a), Below(b), Below(p))
  {
  }

  lemma ScaleAtMost(c: real, w: real)
    requires 0.0 <= c && 0.0 <= w <= 1.0
    ensures 0.0 <= c * w <= c
  {
    assert 0.0 <= c * (1.0 - w) == c - c * w;
  }

  lemma NegateProduct(c: real, w: real)
    ensures (-c) * w == -(c * w)
  {
  }

  lemma LerpBetween(s: real, e: real, w: real)
    requires 0.0 <= w <= 1.0
    ensures Between(s, e, Lerp(s, e, w))
  {
    var p := (e - s) * w;
    assert Lerp(s, e, w) == s + p;
    if s <= e {
      ScaleAtMost(e - s, w);
      assert s <= s + p <= e;
    } else {
      ScaleAtMost(s - e, w);
      NegateProduct(s - e, w);
      assert p == -((s - e) * w);
      assert e <= s + p <= s;
    }
  }

  /** Interpolating with a weight in [0, 1] never overshoots either end pose. */
  lemma InterpolateWithin(a: Pose, b: Pose, w: real)
    requires 0.0 <= w <= 1.0
    ensures Within(a, b, Interpolate(a, b, w))
  {
    LerpBetween(a.x, b.x, w);
    LerpBetween(a.y, b.y, w);
    LerpBetween(a.z, b.z, w);
    LerpBetween(a.yaw, b.yaw, w);
    LerpBetween(a.pitch, b.pitch, w);
  }

  /** The raw progress a move tick computes from its countdown: 1 - counter / duration. */
  function RawProgress(counter: int, duration: int): real
    requires duration >= 1
  {
    1.0 - (counter as real) / (duration as real)
  }

  /**
   * On the tick that finds the countdown at duration - k (k ticks already run)
   * the raw progress is k / duration: 0 on the first tick, below 1 on every
   * tick that still finds the countdown positive.
   */
  lemma ProgressOfTick(duration: int, k: int)
    requires duration >= 1 && 0 <= k < duration
    ensures RawProgress(duration - k, duration) == (k as real) / (duration as real)
    ensures 0.0 <= RawProgress(duration - k, duration) < 1.0
    ensures k == 0 ==> RawProgress(duration - k, duration) == 0.0
  {
    var d := duration as real;
    assert ((duration - k) as real) == d - (k as real);
    assert (d - (k as real)) / d == d / d - (k as real) / d;
    assert (k as real) / d < 1.0;
  }

  /** The camera pose a move tick computes when it finds the countdown at counter. */
  function TickPose(start: Pose, end: Pose, duration: int, counter: int): Pose
    requires duration >= 1
  {
    Interpolate(start, end, EaseInOutCubic(RawProgress(counter, duration)))
  }

  /**
   * The first tick of a move shows the start pose exactly, and every tick of
   * a move stays within the box spanned by its start and end poses.
   */
  lemma TickPoseWithin(start: Pose, end: Pose, duration: int, counter: int)
    requires 1 <= counter <= duration
    ensures Within(start, end, TickPose(start, end, duration, counter))
    ensures counter == duration ==> TickPose(start, end, duration, counter) == start
  {
    ProgressOfTick(duration, duration - counter);
    var t := RawProgress(counter, duration);
    EaseRange(t);
    InterpolateWithin(start, end, EaseInOutCubic(t));
  }

  /**
   * A countdown at its full duration shows the start pose, and one at zero
   * would show the end pose.
   */
  lemma MoveEndpoints(start: Pose, end: Pose, duration: int)
    requires duration >= 1
    ensures TickPose(start, end, duration, duration) == start
    ensures TickPose(start, end, duration, 0) == end
  {
    var d := duration as real;
    assert RawProgress(duration, duration) == 1.0 - d / d == 0.0;
    assert RawProgress(0, duration) == 1.0;
    EaseEndpoints();
  }
}
