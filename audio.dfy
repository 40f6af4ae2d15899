/** The ambient mixer's altitude logic: four layer weights that crossfade
    piecewise-linearly across the zones, the per-layer gain scaling, and the
    rule that nothing is applied before audio has been started. */
module Audio {
  import opened MathUtils

  /** One value per sound layer. */
  datatype Layers = Layers(low: real, mid: real, high: real, summit: real)

  /** The gain each layer's weight is scaled by. */
  const LOW_SCALE: real := 0.5
  const MID_SCALE: real := 0.4
  const HIGH_SCALE: real := 0.3
  const SUMMIT_SCALE: real := 0.15
  /** The time constant of every gain ramp, in seconds. */
  const RAMP_TIME: real := 0.1

  /** The layer weights at an altitude. */
  function LayerWeights(alt: real): (w: Layers)
    ensures alt < 2800.0 ==> w.low + w.mid == 1.0
  {
    if alt < 1800.0 then
      Layers(MapLinear(alt, 800.0, 1800.0, 1.0, 0.8), MapLinear(alt, 800.0, 1800.0, 0.0, 0.2), 0.0, 0.0)
    else if alt < 2800.0 then
      Layers(MapLinear(alt, 1800.0, 2800.0, 0.8, 0.2), MapLinear(alt, 1800.0, 2800.0, 0.2, 0.8), 0.0, 0.0)
    else if alt < 4000.0 then
      Layers(0.0, MapLinear(alt, 2800.0, 4000.0, 0.8, 0.6), MapLinear(alt, 2800.0, 4000.0, 0.0, 0.4), 0.0)
    else if alt < 5000.0 then
      Layers(0.0, MapLinear(alt, 4000.0, 5000.0, 0.6, 0.0), MapLinear(alt, 4000.0, 5000.0, 0.4, 0.8),
             MapLinear(alt, 4000.0, 5000.0, 0.0, 0.2))
    else
      Layers(0.0, 0.0, MapLinear(alt, 5000.0, 6000.0, 0.8, 0.3), MapLinear(alt, 5000.0, 6000.0, 0.2, 0.8))
  }

  /** The gain targets handed to the layers: each weight times its layer's scale. */
  function GainTargets(w: Layers): (g: Layers)
    ensures 0.0 <= w.low <= 1.0 ==> 0.0 <= g.low <= LOW_SCALE
    ensures 0.0 <= w.mid <= 1.0 ==> 0.0 <= g.mid <= MID_SCALE
    ensures 0.0 <= w.high <= 1.0 ==> 0.0 <= g.high <= HIGH_SCALE
    ensures 0.0 <= w.summit <= 1.0 ==> 0.0 <= g.summit <= SUMMIT_SCALE
  {
    Layers(w.low * LOW_SCALE, w.mid * MID_SCALE, w.high * HIGH_SCALE, w.summit * SUMMIT_SCALE)
  }

  predicate InUnit(x: real)
  {
    0.0 <= x <= 1.0
  }

  /** Over the reachable range [800, 6000] every weight is in [0, 1]. */
  lemma WeightsInUnit(alt: real)
    requires 800.0 <= alt <= 6000.0
    ensures InUnit(LayerWeights(alt).low) && InUnit(LayerWeights(alt).mid)
    ensures InUnit(LayerWeights(alt).high) && InUnit(LayerWeights(alt).summit)
  {
  }

  /** Which layers are silent where: low from 2800 m up, high below 2800 m,
      summit below 4000 m. */
  lemma SilentLayers(alt: real)
    ensures alt >= 2800.0 ==> LayerWeights(alt).low == 0.0
    ensures alt < 2800.0 ==> LayerWeights(alt).high == 0.0
    ensures alt < 4000.0 ==> LayerWeights(alt).summit == 0.0
  {
  }

  /** The crossfade's ends: the low layer alone at 800 m, high and summit at 6000 m. */
  lemma WeightEndpoints()
    ensures LayerWeights(800.0) == Layers(1.0, 0.0, 0.0, 0.0)
    ensures LayerWeights(6000.0) == Layers(0.0, 0.0, 0.3, 0.8)
  {
  }

  /** Mid, high and summit change by at most 0.0006 per metre anywhere in
      [800, 6000], so they are continuous across 1800, 2800, 4000 and 5000. */
  lemma CrossfadeContinuous(a: real, b: real)
    requires 800.0 <= a <= b <= 6000.0
    ensures LayerWeights(b).mid - LayerWeights(a).mid <= 0.0006 * (b - a)
    ensures LayerWeights(a).mid - LayerWeights(b).mid <= 0.0006 * (b - a)
    ensures LayerWeights(b).high - LayerWeights(a).high <= 0.0006 * (b - a)
    ensures LayerWeights(a).high - LayerWeights(b).high <= 0.0006 * (b - a)
    ensures LayerWeights(b).summit - LayerWeights(a).summit <= 0.0006 * (b - a)
    ensures LayerWeights(a).summit - LayerWeights(b).summit <= 0.0006 * (b - a)
  {
  }

  /** The low layer is continuous below 2800 m (at most 0.0006 per metre) but
      drops from above 0.2 to 0 at 2800 m. */
  lemma LowDropsAt2800(a: real, b: real)
    requires 800.0 <= a <= b < 2800.0
    ensures LayerWeights(a).low - LayerWeights(b).low <= 0.0006 * (b - a)
    ensures LayerWeights(b).low <= LayerWeights(a).low
    ensures LayerWeights(b).low > 0.2
    ensures LayerWeights(2800.0).low == 0.0
  {
  }

  /** Past the top of the range the ramps keep going: at 7000 m, which a long
      frame can reach, the high layer's gain target is negative and the summit
      weight exceeds 1. */
  lemma OvershootLeavesUnit()
    ensures LayerWeights(7000.0).high < 0.0 && GainTargets(LayerWeights(7000.0)).high < 0.0
    ensures LayerWeights(7000.0).summit > 1.0
  {
  }

  /** A setTargetAtTime request: the four gain targets and the time constant. */
  datatype GainRamp = GainRamp(targets: Layers, timeConstant: real)

  /** The mixer's altitude subscription. The audio graph itself is not modelled:
      `ramps` records the gain requests it would receive, oldest first. */
  class Mixer {
    var started: bool
    var ramps: seq<GainRamp>

    constructor ()
      ensures !started && ramps == []
    {
      started := false;
      ramps := [];
    }

    /** The "Enable Audio" button. */
    method Start()
      modifies this
      ensures started && ramps == old(ramps)
    {
      started := true;
    }

    /** Any store update: once started, ramp all four layers to the gains for
        the store's altitude; before that, do nothing. */
    method StoreChanged(altitude: real)
      modifies this
      ensures started == old(started)
      ensures !started ==> ramps == old(ramps)
      ensures started ==> ramps == old(ramps) + [GainRamp(GainTargets(LayerWeights(altitude)), RAMP_TIME)]
    {
      if !started {
        return;
      }
      var w := LayerWeights(altitude);
      ramps := ramps + [GainRamp(GainTargets(w), RAMP_TIME)];
    }
  }

  /** Before the button, altitude changes reach no gain; after it, each one does. */
  method StartGuardScenario() returns (before: nat, after: nat, last: Layers)
    ensures before == 0 && after == 1
    ensures last == Layers(0.5, 0.0, 0.0, 0.0)
  {
    var mixer := new Mixer();
    mixer.StoreChanged(2000.0);
    mixer.StoreChanged(3000.0);
    before := |mixer.ramps|;
    mixer.Start();
    mixer.StoreChanged(800.0);
    after := |mixer.ramps|;
    last := mixer.ramps[0].targets;
  }
}
