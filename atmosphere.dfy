/** The scene fog: created from the zone at mount, then moved each frame toward
    the current zone's fog colour and density by a factor of delta. */
module Atmosphere {
  import opened MathUtils
  import opened Zones

  /** The fog smoothing rate: the factor is delta * FOG_RATE. */
  const FOG_RATE: real := 1.0

  /** What scene.fog holds: nothing, some other kind of fog, or a FogExp2. */
  datatype FogKind = NoFog | OtherFog | Exp2Fog

  /** The new density after one frame. */
  function DensityStep(density: real, target: real, factor: real): (r: real)
    ensures target - r == (target - density) * (1.0 - factor)
  {
    density + (target - density) * factor
  }

  /** The smallest and largest fog densities of the table. */
  const MIN_DENSITY: real := 0.015
  const MAX_DENSITY: real := 0.04

  class SceneFog {
    var kind: FogKind
    var colour: Tint
    var density: real

    /** A scene before the fog is created. */
    constructor ()
      ensures kind == NoFog
    {
      kind := NoFog;
      colour := Solid(Colour("#000000"));
      density := 0.0;
    }

    /** The mount effect: a FogExp2 with the colour and density of the zone at
        the store's current altitude. */
    method Mount(altitude: real)
      modifies this
      ensures kind == Exp2Fog
      ensures colour == Solid(ZoneAt(altitude).fogColor) && density == ZoneAt(altitude).fogDensity
      ensures MIN_DENSITY <= density <= MAX_DENSITY
    {
      var initialZone := ZoneAt(altitude);
      kind := Exp2Fog;
      colour := Solid(initialZone.fogColor);
      density := initialZone.fogDensity;
    }

    /** One frame: if the fog is a FogExp2, colour and density move toward the
        current zone's by the factor delta; any other fog is left as it is. */
    method FrameStep(altitude: real, delta: real)
      modifies this
      ensures kind == old(kind)
      ensures kind != Exp2Fog ==> colour == old(colour) && density == old(density)
      ensures kind == Exp2Fog ==>
                colour == Blend(old(colour), ZoneAt(altitude).fogColor, delta * FOG_RATE) &&
                density == DensityStep(old(density), ZoneAt(altitude).fogDensity, delta * FOG_RATE)
    {
      var currentZone := ZoneAt(altitude);
      var targetColor := currentZone.fogColor;
      var targetDensity := currentZone.fogDensity;
      if kind == Exp2Fog {
        var lerpFactor := delta * FOG_RATE;
        colour := Blend(colour, targetColor, lerpFactor);
        density := density + (targetDensity - density) * lerpFactor;
      }
    }
  }

  /** The density step is a lerp toward the target: for a factor in [0, 1] it
      lands between the old density and the target, and a density already at
      its target stays there. */
  lemma DensityStepBetween(density: real, target: real, factor: real)
    requires 0.0 <= factor <= 1.0
    ensures density <= target ==> density <= DensityStep(density, target, factor) <= target
    ensures target <= density ==> target <= DensityStep(density, target, factor) <= density
    ensures DensityStep(target, target, factor) == target
  {
    assert DensityStep(density, target, factor) == Lerp(density, target, factor);
    LerpBetween(density, target, factor);
  }

  /** Every zone's fog density lies between the table's extremes. */
  lemma ZoneDensityInRange(altitude: real)
    ensures MIN_DENSITY <= ZoneAt(altitude).fogDensity <= MAX_DENSITY
  {
    ZoneAtClosedForm(altitude);
  }

  /** Once mounted, and with frame deltas in [0, 1], the fog density never
      leaves [0.015, 0.04]: in particular it stays positive. */
  lemma DensityStaysInRange(density: real, altitude: real, delta: real)
    requires MIN_DENSITY <= density <= MAX_DENSITY
    requires 0.0 <= delta <= 1.0
    ensures MIN_DENSITY <= DensityStep(density, ZoneAt(altitude).fogDensity, delta * FOG_RATE) <= MAX_DENSITY
  {
    ZoneDensityInRange(altitude);
    DensityStepBetween(density, ZoneAt(altitude).fogDensity, delta * FOG_RATE);
  }
}
