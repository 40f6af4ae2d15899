/** The overlay's presentation state: the rounded altitude and its zone, the
    idle-fade flag with its restartable 3000 ms timer, and the zone-label
    crossfade with its cancellable 1000 ms swap, driven by an explicit clock. */
module UI {
  import opened MathUtils
  import opened Zones

  /** Milliseconds without an altitude change before the overlay fades out. */
  const IDLE_DELAY: nat := 3000
  /** Milliseconds the old zone label stays (faded) before the new one replaces it. */
  const SWAP_DELAY: nat := 1000
  /** The scroll hint shows while the displayed altitude is below this. */
  const HINT_BELOW: int := 850

  /** A single-shot timer: nothing pending, or due at an absolute time in ms. */
  datatype Timer = Idle | Pending(deadline: nat)

  /** The altitude the overlay prints: Math.round of the store's altitude. */
  function DisplayedAltitude(altitude: real): (n: int)
    ensures altitude - 0.5 < n as real <= altitude + 0.5
  {
    Round(altitude)
  }

  /** The zone the overlay resolves, from the rounded altitude rather than the raw one. */
  function UiZone(altitude: real): (z: Zone)
    ensures z in ZONES
    ensures z == ZoneAt(DisplayedAltitude(altitude) as real)
  {
    ZoneAt(Round(altitude) as real)
  }

  /** Whether "Scroll to Ascend" is shown: in terms of the raw altitude,
      exactly below 849.5. */
  predicate ShowsScrollHint(altitude: real)
    ensures ShowsScrollHint(altitude) <==> altitude < 849.5
  {
    DisplayedAltitude(altitude) < HINT_BELOW
  }

  /** The overlay's zone in closed form: resolving from the rounded value moves
      every threshold of the table, the floor included, half a metre down. */
  lemma UiZoneClosedForm(altitude: real)
    ensures UiZone(altitude) ==
      if altitude < 799.5 then SUMMIT
      else if altitude < 1799.5 then CULTIVATION
      else if altitude < 2799.5 then RAINFOREST
      else if altitude < 3999.5 then MOORLAND
      else if altitude < 4999.5 then ALPINE
      else SUMMIT
  {
    ZoneAtClosedForm(Round(altitude) as real);
  }

  /** At 1799.5 the label already names the Rainforest Zone, which the raw
      lookup does not. */
  lemma RoundedZoneLeads()
    ensures UiZone(1799.5) == RAINFOREST && ZoneAt(1799.5) == CULTIVATION
    ensures UiZone(1799.4) == CULTIVATION
  {
    ZoneAtClosedForm(1800.0);
    ZoneAtClosedForm(1799.5);
    ZoneAtClosedForm(1799.0);
  }

  /** Just below the floor the two resolutions disagree: between 799.5 and 800
      the label names the Cultivation Zone while the renderers, which resolve
      the raw altitude, get Arctic Summit. */
  lemma LabelDisagreesBelowFloor(altitude: real)
    requires 799.5 <= altitude < FLOOR
    ensures UiZone(altitude) == CULTIVATION && ZoneAt(altitude) == SUMMIT
  {
    UiZoneClosedForm(altitude);
    ZoneAtFallback(altitude);
  }

  class Overlay {
    /** The clock, in ms. */
    var now: nat
    /** The store altitude the overlay last saw. */
    var altitude: real
    /** The zone resolved at the last render (the effect's dependency). */
    var currentZone: Zone
    /** The idle-fade flag and its timer. */
    var visible: bool
    var hideTimer: Timer
    /** The zone label: the zone shown, whether it is faded in, the name of the
        last zone swapped in (a ref), and the pending swap with the zone it captured. */
    var displayZone: Zone
    var fadeZone: bool
    var prevZoneName: string
    var swapTimer: Timer
    var swapZone: Zone

    /** The overlay's invariant: the fade flag is on exactly while its timer is
        pending, a swap is pending exactly while the resolved zone differs from
        the last swapped-in name, and pending deadlines lie in the future. */
    ghost predicate Valid()
      reads this
    {
      && currentZone == UiZone(altitude)
      && (visible <==> hideTimer.Pending?)
      && (hideTimer.Pending? ==> now < hideTimer.deadline <= now + IDLE_DELAY)
      && displayZone.name == prevZoneName
      && (swapTimer.Pending? <==> currentZone.name != prevZoneName)
      && (swapTimer.Pending? ==> now < swapTimer.deadline <= now + SWAP_DELAY && swapZone == currentZone && !fadeZone)
    }

    /** Mounting at time `start`: visible with a 3000 ms timer, the label showing
        the current zone, faded in. */
    constructor (storeAltitude: real, start: nat)
      ensures Valid()
      ensures now == start && altitude == storeAltitude
      ensures visible && hideTimer == Pending(start + IDLE_DELAY)
      ensures displayZone == UiZone(storeAltitude) && fadeZone && swapTimer == Idle
    {
      var z := UiZone(storeAltitude);
      now := start;
      altitude := storeAltitude;
      currentZone := z;
      visible := true;
      hideTimer := Pending(start + IDLE_DELAY);
      displayZone := z;
      fadeZone := true;
      prevZoneName := z.name;
      swapTimer := Idle;
      swapZone := z;
    }

    /** A store update at the current time carrying the store's altitude. A
        changed altitude makes the overlay visible and restarts the 3000 ms
        timer; an update that leaves altitude as it was (one that changes only
        the target) does not. When the resolved zone changes, the pending swap is
        cancelled, and if the new zone is not the one already swapped in, the
        label fades out and a swap to the new zone is scheduled in 1000 ms. */
    method StoreChanged(storeAltitude: real)
      requires Valid()
      modifies this
      ensures Valid()
      ensures now == old(now) && altitude == storeAltitude
      ensures currentZone == UiZone(storeAltitude)
      ensures storeAltitude != old(altitude) ==> visible && hideTimer == Pending(now + IDLE_DELAY)
      ensures storeAltitude == old(altitude) ==> visible == old(visible) && hideTimer == old(hideTimer)
      ensures displayZone == old(displayZone) && prevZoneName == old(prevZoneName)
      ensures currentZone == old(currentZone) ==>
                fadeZone == old(fadeZone) && swapTimer == old(swapTimer) && swapZone == old(swapZone)
      ensures currentZone != old(currentZone) && currentZone.name != prevZoneName ==>
                !fadeZone && swapTimer == Pending(now + SWAP_DELAY) && swapZone == currentZone
      ensures currentZone != old(currentZone) && currentZone.name == prevZoneName ==>
                fadeZone == old(fadeZone) && swapTimer == Idle
    {
      if storeAltitude != altitude {
        visible := true;
        hideTimer := Pending(now + IDLE_DELAY);
      }
      altitude := storeAltitude;
      var z := UiZone(storeAltitude);
      if z != currentZone {
        // the effect's cleanup clears the previous swap before it runs again
        swapTimer := Idle;
        if z.name != prevZoneName {
          fadeZone := false;
          swapTimer := Pending(now + SWAP_DELAY);
          swapZone := z;
        }
        currentZone := z;
      }
    }

    /** Lets dt ms pass, firing every timer that falls due: the idle timer hides
        the overlay, the swap timer shows the captured zone faded in. The two
        timers write different fields, so their order does not matter. */
    method Advance(dt: nat)
      requires Valid()
      modifies this
      ensures Valid()
      ensures now == old(now) + dt
      ensures altitude == old(altitude) && currentZone == old(currentZone) && swapZone == old(swapZone)
      ensures old(hideTimer).Pending? && old(hideTimer).deadline <= now ==> !visible && hideTimer == Idle
      ensures !(old(hideTimer).Pending? && old(hideTimer).deadline <= now) ==>
                visible == old(visible) && hideTimer == old(hideTimer)
      ensures old(swapTimer).Pending? && old(swapTimer).deadline <= now ==>
                displayZone == old(swapZone) && fadeZone && prevZoneName == old(swapZone).name && swapTimer == Idle
      ensures !(old(swapTimer).Pending? && old(swapTimer).deadline <= now) ==>
                displayZone == old(displayZone) && fadeZone == old(fadeZone) &&
                prevZoneName == old(prevZoneName) && swapTimer == old(swapTimer)
    {
      now := now + dt;
      if hideTimer.Pending? && hideTimer.deadline <= now {
        visible := false;
        hideTimer := Idle;
      }
      if swapTimer.Pending? && swapTimer.deadline <= now {
        displayZone := swapZone;
        fadeZone := true;
        prevZoneName := swapZone.name;
        swapTimer := Idle;
      }
    }
  }

  /** The tested idle fade (hidden once 3000 ms pass, shown again by an
      altitude change), extended to the 2999 ms point and to the second fade,
      which comes 3000 ms after the change rather than after mount. */
  method IdleFadeScenario() returns (at2999: bool, at3000: bool, afterChange: bool, at5999: bool, at6000: bool)
    ensures at2999 && !at3000 && afterChange && at5999 && !at6000
  {
    var ui := new Overlay(800.0, 0);
    ui.Advance(2999);
    at2999 := ui.visible;
    ui.Advance(1);
    at3000 := ui.visible;
    ui.StoreChanged(850.0);
    afterChange := ui.visible;
    ui.Advance(2999);
    at5999 := ui.visible;
    ui.Advance(1);
    at6000 := ui.visible;
  }

  /** A store update that leaves the altitude as it was (only the target moved)
      does not bring a faded overlay back. */
  method TargetOnlyScenario() returns (visibleAfter: bool)
    ensures !visibleAfter
  {
    var ui := new Overlay(800.0, 0);
    ui.Advance(3000);
    ui.StoreChanged(800.0);
    visibleAfter := ui.visible;
  }

  /** The tested crossfade (Rainforest Zone faded in 1000 ms after moving from
      800 m to 2000 m), extended to the immediate fade-out and to the label
      still naming the Cultivation Zone at 999 ms. */
  method CrossfadeScenario() returns (fadeAtChange: bool, nameAt999: string, nameAt1000: string, fadeAt1000: bool)
    ensures !fadeAtChange
    ensures nameAt999 == "Cultivation Zone"
    ensures nameAt1000 == "Rainforest Zone" && fadeAt1000
  {
    ZoneAtClosedForm(800.0);
    ZoneAtClosedForm(2000.0);
    var ui := new Overlay(800.0, 0);
    ui.StoreChanged(2000.0);
    fadeAtChange := ui.fadeZone;
    ui.Advance(999);
    nameAt999 := ui.displayZone.name;
    ui.Advance(1);
    nameAt1000 := ui.displayZone.name;
    fadeAt1000 := ui.fadeZone;
  }

  /** Going back to the displayed zone before the swap fires cancels the swap
      and schedules none, so the label stays faded out with the old zone for
      as long as the altitude stays in that zone. */
  method BounceBackScenario() returns (name: string, fade: bool, pending: bool)
    ensures name == "Cultivation Zone" && !fade && !pending
  {
    ZoneAtClosedForm(800.0);
    ZoneAtClosedForm(2000.0);
    var ui := new Overlay(800.0, 0);
    ui.StoreChanged(2000.0);
    ui.Advance(500);
    ui.StoreChanged(900.0);
    ui.Advance(60000);
    name, fade, pending := ui.displayZone.name, ui.fadeZone, ui.swapTimer.Pending?;
  }
}
