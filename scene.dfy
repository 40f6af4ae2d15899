/** The per-frame integrator: it moves the store's altitude toward the target by
    a lerp with factor delta * 2, commits only changes above 0.01, and places the
    camera at one tenth of the smoothed altitude. */
module Scene {
  import opened MathUtils
  import opened Store

  /** The smoothing rate: the lerp factor is frameDelta * RATE. */
  const RATE: real := 2.0
  /** Changes of this size or less are not written back to the store. */
  const COMMIT_EPSILON: real := 0.01
  /** World units per metre of altitude. */
  const WORLD_SCALE: real := 0.1
  /** The camera's fixed distance from the mountain axis. */
  const CAMERA_Z: real := 10.0

  datatype Point = Point(x: real, y: real, z: real)

  /** The parts of the camera the integrator writes. */
  class Camera {
    var y: real
    var z: real
    var lookAt: Point

    /** The canvas camera as mounted: at (0, 2, 5), pointed at the origin. */
    constructor ()
      ensures y == 2.0 && z == 5.0 && lookAt == Point(0.0, 0.0, 0.0)
    {
      y, z, lookAt := 2.0, 5.0, Point(0.0, 0.0, 0.0);
    }
  }

  function Abs(x: real): (r: real)
    ensures 0.0 <= r && (r == x || r == -x)
  {
    if x < 0.0 then -x else x
  }

  /** MathUtils.lerp(altitude, target, delta * 2): the gap to the target is
      scaled by 1 - 2 delta, whatever the sign of that factor. */
  function Smoothed(altitude: real, target: real, delta: real): (r: real)
    ensures target - r == (target - altitude) * (1.0 - delta * RATE)
  {
    Lerp(altitude, target, delta * RATE)
  }

  /** The store's altitude after the frame: the smoothed value when it moved by
      more than 0.01, the old altitude otherwise. */
  function Committed(altitude: real, target: real, delta: real): (r: real)
    ensures r == altitude || r == Smoothed(altitude, target, delta)
    ensures r != altitude ==> Abs(r - altitude) > COMMIT_EPSILON
  {
    var s := Smoothed(altitude, target, delta);
    if Abs(s - altitude) > COMMIT_EPSILON then s else altitude
  }

  /** One useFrame callback. The camera follows the smoothed value even when the
      store is not written; the target is never written. */
  method FrameStep(store: AltitudeStore, camera: Camera, delta: real)
    modifies store`altitude, camera
    ensures store.altitude == Committed(old(store.altitude), old(store.targetAltitude), delta)
    ensures store.targetAltitude == old(store.targetAltitude)
    ensures camera.y == Smoothed(old(store.altitude), old(store.targetAltitude), delta) * WORLD_SCALE
    ensures camera.z == CAMERA_Z
    ensures camera.lookAt == Point(0.0, camera.y, 0.0)
  {
    var altitude := store.altitude;
    var targetAltitude := store.targetAltitude;
    var smoothedAltitude := Lerp(altitude, targetAltitude, delta * RATE);
    if Abs(smoothedAltitude - altitude) > COMMIT_EPSILON {
      store.SetAltitude(smoothedAltitude);
    }
    var yPos := smoothedAltitude * WORLD_SCALE;
    camera.y := yPos;
    camera.z := CAMERA_Z;
    camera.lookAt := Point(0.0, yPos, 0.0);
  }

  /** With a factor delta * 2 in [0, 1] the smoothed value lies between the
      altitude and the target: no overshoot. */
  lemma SmoothedNoOvershoot(altitude: real, target: real, delta: real)
    requires 0.0 <= delta * RATE <= 1.0
    ensures altitude <= target ==> altitude <= Smoothed(altitude, target, delta) <= target
    ensures target <= altitude ==> target <= Smoothed(altitude, target, delta) <= altitude
  {
    LerpBetween(altitude, target, delta * RATE);
  }

  /** The factor is not clamped: a frame longer than half a second carries the
      altitude past the target (here a one-second frame from 800 toward 6000). */
  lemma LongFrameOvershoots()
    ensures Smoothed(800.0, 6000.0, 1.0) == 11200.0
    ensures Committed(800.0, 6000.0, 1.0) > 6000.0
  {
  }

  /** The commit guard exactly: the altitude stays put when the step would be at
      most 0.01, and otherwise the remaining gap shrinks by the factor (1 - 2 delta). */
  lemma CommittedGap(altitude: real, target: real, delta: real)
    ensures Abs((target - altitude) * (delta * RATE)) <= COMMIT_EPSILON ==>
              Committed(altitude, target, delta) == altitude
    ensures Abs((target - altitude) * (delta * RATE)) > COMMIT_EPSILON ==>
              target - Committed(altitude, target, delta) == (target - altitude) * (1.0 - delta * RATE)
  {
    assert Smoothed(altitude, target, delta) - altitude == (target - altitude) * (delta * RATE);
  }

  /** For a frame delta in [0, 0.5] one frame never widens the gap to the target
      and never crosses it. */
  lemma GapNonIncreasing(altitude: real, target: real, delta: real)
    requires 0.0 <= delta <= 0.5
    ensures Abs(target - Committed(altitude, target, delta)) <= Abs(target - altitude)
    ensures altitude <= target ==> altitude <= Committed(altitude, target, delta) <= target
    ensures target <= altitude ==> target <= Committed(altitude, target, delta) <= altitude
  {
    SmoothedNoOvershoot(altitude, target, delta);
  }

  /** The store's altitude after n frames of the same delta with the target held fixed. */
  function Settle(altitude: real, target: real, delta: real, n: nat): (r: real)
    ensures altitude == target ==> r == target
    decreases n
  {
    if n == 0 then altitude else Settle(Committed(altitude, target, delta), target, delta, n - 1)
  }

  /** Over any number of frames with a fixed delta in [0, 0.5] the altitude
      approaches the target monotonically: it stays on its starting side, moves
      only toward the target, and the gap never grows. */
  lemma {:induction false} SettleApproaches(altitude: real, target: real, delta: real, n: nat)
    requires 0.0 <= delta <= 0.5
    ensures Abs(target - Settle(altitude, target, delta, n)) <= Abs(target - altitude)
    ensures altitude <= target ==> altitude <= Settle(altitude, target, delta, n) <= target
    ensures target <= altitude ==> target <= Settle(altitude, target, delta, n) <= altitude
    decreases n
  {
    if n > 0 {
      var next := Committed(altitude, target, delta);
      GapNonIncreasing(altitude, target, delta);
      SettleApproaches(next, target, delta, n - 1);
    }
  }

  /** The commit guard can stall the approach: once one frame's step is at most
      0.01, no frame writes the store again and the altitude stays short of the
      target for good. */
  lemma {:induction false} SettleStalls(altitude: real, target: real, delta: real, n: nat)
    requires Abs((target - altitude) * (delta * RATE)) <= COMMIT_EPSILON
    ensures Settle(altitude, target, delta, n) == altitude
    decreases n
  {
    CommittedGap(altitude, target, delta);
    if n > 0 {
      SettleStalls(altitude, target, delta, n - 1);
    }
  }

  /** At 60 frames per second an altitude 0.3 below its target never moves. */
  lemma SmallGapNeverCloses(n: nat)
    ensures Settle(800.0, 800.3, 1.0 / 60.0, n) == 800.0
  {
    SettleStalls(800.0, 800.3, 1.0 / 60.0, n);
  }

  /** Frames keep the gap shrinking: the settled altitude after n + 1 frames is
      no farther from the target than after n. */
  lemma {:induction false} SettleMonotone(altitude: real, target: real, delta: real, n: nat)
    requires 0.0 <= delta <= 0.5
    ensures Abs(target - Settle(altitude, target, delta, n + 1)) <= Abs(target - Settle(altitude, target, delta, n))
    decreases n
  {
    if n == 0 {
      GapNonIncreasing(altitude, target, delta);
    } else {
      SettleMonotone(Committed(altitude, target, delta), target, delta, n - 1);
    }
  }
}
