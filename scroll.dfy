/** The input driver: wheel and touch handlers that move the store's target
    altitude by a scaled delta and clamp it into [800, 6000]. */
module Scroll {
  import opened MathUtils
  import opened Store

  const MIN_TARGET: real := 800.0
  const MAX_TARGET: real := 6000.0
  /** Wheel deltaY is halved before it is applied. */
  const WHEEL_SCALE: real := 0.5
  /** A touch drag is doubled, and its sign flipped so that swiping up ascends. */
  const TOUCH_SCALE: real := 2.0

  /** The target after a wheel event with vertical delta deltaY. */
  function WheelTarget(current: real, deltaY: real): (r: real)
    ensures MIN_TARGET <= r <= MAX_TARGET
  {
    Clamp(current + deltaY * WHEEL_SCALE, MIN_TARGET, MAX_TARGET)
  }

  /** The altitude delta of a touch move from startY to touchY (client coordinates, y grows downward). */
  function TouchDelta(startY: real, touchY: real): (d: real)
    ensures d > 0.0 <==> touchY < startY
    ensures d < 0.0 <==> startY < touchY
  {
    (startY - touchY) * TOUCH_SCALE
  }

  /** The target after a touch move. */
  function TouchTarget(current: real, startY: real, touchY: real): (r: real)
    ensures MIN_TARGET <= r <= MAX_TARGET
  {
    Clamp(current + TouchDelta(startY, touchY), MIN_TARGET, MAX_TARGET)
  }

  /** The three handlers with the touchStartY variable they share across events. */
  class InputDriver {
    const store: AltitudeStore
    var touchStartY: real

    constructor (store: AltitudeStore)
      ensures this.store == store && touchStartY == 0.0
    {
      this.store := store;
      touchStartY := 0.0;
    }

    /** handleWheel: only the target changes, to the clamped wheel target. */
    method HandleWheel(deltaY: real)
      modifies store`targetAltitude
      ensures store.targetAltitude == WheelTarget(old(store.targetAltitude), deltaY)
      ensures MIN_TARGET <= store.targetAltitude <= MAX_TARGET
      ensures store.altitude == old(store.altitude)
    {
      var currentTarget := store.targetAltitude;
      var delta := deltaY * WHEEL_SCALE;
      var newAltitude := Clamp(currentTarget + delta, MIN_TARGET, MAX_TARGET);
      store.SetTargetAltitude(newAltitude);
    }

    /** handleTouchStart: remembers where the finger went down; the store is untouched. */
    method HandleTouchStart(clientY: real)
      modifies this`touchStartY
      ensures touchStartY == clientY
    {
      touchStartY := clientY;
    }

    /** handleTouchMove: the target moves by the drag since the last sample,
        and that sample becomes the new reference. */
    method HandleTouchMove(touchY: real)
      modifies this`touchStartY, store`targetAltitude
      ensures store.targetAltitude == TouchTarget(old(store.targetAltitude), old(touchStartY), touchY)
      ensures MIN_TARGET <= store.targetAltitude <= MAX_TARGET
      ensures touchStartY == touchY
      ensures store.altitude == old(store.altitude)
    {
      var delta := TouchDelta(touchStartY, touchY);
      var currentTarget := store.targetAltitude;
      var newAltitude := Clamp(currentTarget + delta, MIN_TARGET, MAX_TARGET);
      store.SetTargetAltitude(newAltitude);
      touchStartY := touchY;
    }
  }

  /** Both handlers leave the target in [800, 6000], whatever it was before. */
  lemma TargetsInRange(current: real, deltaY: real, startY: real, touchY: real)
    ensures MIN_TARGET <= WheelTarget(current, deltaY) <= MAX_TARGET
    ensures MIN_TARGET <= TouchTarget(current, startY, touchY) <= MAX_TARGET
  {
  }

  /** A wheel delta big enough to cross either end saturates at exactly that end,
      from any starting target; for example a delta of +/-1e9. */
  lemma WheelSaturates(current: real, deltaY: real)
    ensures current + deltaY * WHEEL_SCALE >= MAX_TARGET ==> WheelTarget(current, deltaY) == MAX_TARGET
    ensures current + deltaY * WHEEL_SCALE <= MIN_TARGET ==> WheelTarget(current, deltaY) == MIN_TARGET
    ensures WheelTarget(800.0, 1000000000.0) == MAX_TARGET
    ensures WheelTarget(6000.0, -1000000000.0) == MIN_TARGET
  {
  }

  /** Within range, a wheel event moves the target by exactly half the wheel delta. */
  lemma WheelExactInRange(current: real, deltaY: real)
    requires MIN_TARGET <= current + deltaY * WHEEL_SCALE <= MAX_TARGET
    ensures WheelTarget(current, deltaY) - current == deltaY / 2.0
  {
  }

  /** Moving the finger up the screen (touchY <= startY) never lowers an in-range
      target, and moving it down never raises one. */
  lemma SwipeDirection(current: real, startY: real, touchY: real)
    requires MIN_TARGET <= current <= MAX_TARGET
    ensures touchY <= startY ==> TouchTarget(current, startY, touchY) >= current
    ensures startY <= touchY ==> TouchTarget(current, startY, touchY) <= current
  {
  }

  /** Because each move re-bases touchStartY, two successive moves that do not
      hit either end add up to the single move over the whole drag. */
  lemma IncrementalMoves(current: real, y0: real, y1: real, y2: real)
    requires MIN_TARGET <= current + TouchDelta(y0, y1) <= MAX_TARGET
    requires MIN_TARGET <= current + TouchDelta(y0, y2) <= MAX_TARGET
    ensures TouchTarget(TouchTarget(current, y0, y1), y1, y2) == TouchTarget(current, y0, y2)
  {
  }

  /** A touch sequence on a fresh store and driver: the start event changes no
      altitude, the moves apply incremental deltas, and a long drag saturates. */
  method TouchScenario() returns (afterStart: real, afterFirst: real, afterSecond: real, afterLong: real)
    ensures afterStart == 800.0
    ensures afterFirst == 1000.0 && afterSecond == 1100.0
    ensures afterLong == MAX_TARGET
  {
    var s := new AltitudeStore();
    var d := new InputDriver(s);
    d.HandleTouchStart(500.0);
    afterStart := s.targetAltitude;
    d.HandleTouchMove(400.0);
    afterFirst := s.targetAltitude;
    d.HandleTouchMove(350.0);
    afterSecond := s.targetAltitude;
    d.HandleTouchMove(-100000.0);
    afterLong := s.targetAltitude;
  }
}
