/** The sky gradient and the star field: a top colour chosen by altitude
    thresholds, a bottom colour from the zone, and a star opacity that ramps in
    between 3500 m and 5500 m, each moved toward its target every frame. */
module Sky {
  import opened MathUtils
  import opened Zones

  /** The gradient colours move toward their targets by delta * GRADIENT_RATE. */
  const GRADIENT_RATE: real := 0.5
  /** The stars turn by delta * STAR_SPIN radians per frame. */
  const STAR_SPIN: real := 0.01

  /** The top colours, one per altitude band. */
  const SKY_TOPS: seq<Colour> :=
    [Colour("#4CA1AF"), Colour("#2C3E50"), Colour("#1a2a6c"), Colour("#0f0c29"), Colour("#000000")]

  /** The top target colour, by thresholds of its own. */
  function TopColour(altitude: real): (r: Colour)
    ensures r in SKY_TOPS
  {
    if altitude < 1800.0 then SKY_TOPS[0]
    else if altitude < 2800.0 then SKY_TOPS[1]
    else if altitude < 4000.0 then SKY_TOPS[2]
    else if altitude < 5000.0 then SKY_TOPS[3]
    else SKY_TOPS[4]
  }

  /** The bottom target colour: the zone's fog colour, which outside the
      table's range is the summit's. */
  function BottomColour(altitude: real): (r: Colour)
    ensures altitude < FLOOR || CEILING <= altitude ==> r == SUMMIT.fogColor
  {
    ZoneAtClosedForm(altitude);
    ZoneAt(altitude).fogColor
  }

  /** The sky's thresholds are the zone table's: from 800 m up, the top colour is
      the one at the index of the zone the altitude resolves to. Below 800 m
      they part: the top is the day colour while the zone falls back to Arctic
      Summit, so the bottom takes the summit's fog colour. */
  lemma TopColourFollowsZones(altitude: real)
    ensures FLOOR <= altitude ==>
      exists i :: 0 <= i < |ZONES| && ZoneAt(altitude) == ZONES[i] && TopColour(altitude) == SKY_TOPS[i]
    ensures altitude < FLOOR ==>
      TopColour(altitude) == SKY_TOPS[0] && BottomColour(altitude) == SUMMIT.fogColor
  {
    ZoneAtClosedForm(altitude);
    if FLOOR <= altitude {
      var i := if altitude < 1800.0 then 0 else if altitude < 2800.0 then 1
               else if altitude < 4000.0 then 2 else if altitude < 5000.0 then 3 else 4;
      assert ZoneAt(altitude) == ZONES[i] && TopColour(altitude) == SKY_TOPS[i];
    }
  }

  /** The star field's target opacity: 0 up to 3500 m, then mapLinear(altitude,
      3500, 5500, 0, 1), which keeps rising past 1 above 5500 m. */
  function StarTarget(altitude: real): (r: real)
    ensures 0.0 <= r
    ensures altitude <= 5500.0 ==> r <= 1.0
  {
    if altitude > 3500.0 then MapLinear(altitude, 3500.0, 5500.0, 0.0, 1.0) else 0.0
  }

  /** The ramp in closed form and its landmarks. */
  lemma StarTargetShape(altitude: real)
    ensures altitude <= 3500.0 ==> StarTarget(altitude) == 0.0
    ensures altitude > 3500.0 ==> StarTarget(altitude) == (altitude - 3500.0) / 2000.0
    ensures StarTarget(5500.0) == 1.0
    ensures altitude > 5500.0 ==> StarTarget(altitude) > 1.0
    ensures altitude <= 5500.0 ==> 0.0 <= StarTarget(altitude) <= 1.0
  {
  }

  /** Higher never means fewer stars. */
  lemma StarTargetMonotone(a: real, b: real)
    requires a <= b
    ensures StarTarget(a) <= StarTarget(b)
  {
    StarTargetShape(a);
    StarTargetShape(b);
  }

  class SkyGradient {
    var top: Tint
    var bottom: Tint

    /** The shader's initial uniforms. */
    constructor ()
      ensures top == Solid(Colour("#0077ff")) && bottom == Solid(Colour("#ffffff"))
    {
      top := Solid(Colour("#0077ff"));
      bottom := Solid(Colour("#ffffff"));
    }

    /** One frame: both uniforms move toward their targets by delta * 0.5. */
    method FrameStep(altitude: real, delta: real)
      modifies this
      ensures bottom == Blend(old(bottom), BottomColour(altitude), delta * GRADIENT_RATE)
      ensures top == Blend(old(top), TopColour(altitude), delta * GRADIENT_RATE)
    {
      var zone := ZoneAt(altitude);
      var targetBottom := zone.fogColor;
      var targetTop;
      if altitude < 1800.0 { targetTop := Colour("#4CA1AF"); }
      else if altitude < 2800.0 { targetTop := Colour("#2C3E50"); }
      else if altitude < 4000.0 { targetTop := Colour("#1a2a6c"); }
      else if altitude < 5000.0 { targetTop := Colour("#0f0c29"); }
      else { targetTop := Colour("#000000"); }
      bottom := Blend(bottom, targetBottom, delta * GRADIENT_RATE);
      top := Blend(top, targetTop, delta * GRADIENT_RATE);
    }
  }

  class Stars {
    var opacity: real
    var rotationY: real

    /** The material starts transparent and unrotated. */
    constructor ()
      ensures opacity == 0.0 && rotationY == 0.0
    {
      opacity := 0.0;
      rotationY := 0.0;
    }

    /** One frame: turn by delta * 0.01 and lerp the opacity toward the target by delta. */
    method FrameStep(altitude: real, delta: real)
      modifies this
      ensures rotationY == old(rotationY) + delta * STAR_SPIN
      ensures opacity == Lerp(old(opacity), StarTarget(altitude), delta)
    {
      rotationY := rotationY + delta * STAR_SPIN;
      var targetOpacity := 0.0;
      if altitude > 3500.0 {
        targetOpacity := MapLinear(altitude, 3500.0, 5500.0, 0.0, 1.0);
      }
      opacity := Lerp(opacity, targetOpacity, delta);
    }
  }

  /** At or below 5500 m, with frame deltas in [0, 1], the star opacity stays a
      proper opacity in [0, 1]. */
  lemma StarOpacityStaysInUnit(opacity: real, altitude: real, delta: real)
    requires 0.0 <= opacity <= 1.0
    requires altitude <= 5500.0
    requires 0.0 <= delta <= 1.0
    ensures 0.0 <= Lerp(opacity, StarTarget(altitude), delta) <= 1.0
  {
    StarTargetShape(altitude);
    LerpBetween(opacity, StarTarget(altitude), delta);
  }
}
