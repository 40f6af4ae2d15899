/** The fixed table of five altitude bands and the lookup that resolves an
    altitude to its band, falling back to the last band. */
module Zones {
  import opened MathUtils

  datatype Option<T> = None | Some(value: T)

  /** One altitude band: [minAltitude, maxAltitude) in metres, with its display
      name, colours, fog density and quote. */
  datatype Zone = Zone(
    name: string,
    minAltitude: real,
    maxAltitude: real,
    color: Colour,
    fogColor: Colour,
    fogDensity: real,
    quote: string)

  const CULTIVATION := Zone("Cultivation Zone", 800.0, 1800.0, Colour("#e6c229"), Colour("#d4a76a"), 0.02,
                            "You begin where life already exists.")
  const RAINFOREST := Zone("Rainforest Zone", 1800.0, 2800.0, Colour("#2d5a27"), Colour("#1a3c18"), 0.04,
                           "Lush, enveloping, damp silence.")
  const MOORLAND := Zone("Moorland Zone", 2800.0, 4000.0, Colour("#6b4c35"), Colour("#583e2f"), 0.03,
                         "Alien calm, thinning air.")
  const ALPINE := Zone("Alpine Desert", 4000.0, 5000.0, Colour("#8c8c8c"), Colour("#a6a6a6"), 0.02,
                       "Vast, exposed, quiet.")
  const SUMMIT := Zone("Arctic Summit", 5000.0, 6000.0, Colour("#ffffff"), Colour("#e6f7ff"), 0.015,
                       "You are standing above weather.")

  /** The ZONES table, in ascending order. */
  const ZONES: seq<Zone> := [CULTIVATION, RAINFOREST, MOORLAND, ALPINE, SUMMIT]

  /** The altitude range the table covers. */
  const FLOOR: real := 800.0
  const CEILING: real := 6000.0

  /** The half-open band test the lookup applies to each zone. */
  predicate InBand(z: Zone, altitude: real)
    ensures InBand(z, altitude) ==> z.minAltitude < z.maxAltitude
  {
    z.minAltitude <= altitude < z.maxAltitude
  }

  /** Array.prototype.find with the band test: the first zone of zs whose band
      holds the altitude, or None when there is none. */
  function FindZone(zs: seq<Zone>, altitude: real): (r: Option<nat>)
    ensures r.Some? ==> r.value < |zs| && InBand(zs[r.value], altitude)
    ensures r.Some? ==> forall j :: 0 <= j < r.value ==> !InBand(zs[j], altitude)
    ensures r.None? ==> forall j :: 0 <= j < |zs| ==> !InBand(zs[j], altitude)
  {
    if zs == [] then None
    else if InBand(zs[0], altitude) then Some(0)
    else match FindZone(zs[1..], altitude)
      case None => None
      case Some(i) => Some(i + 1)
  }

  /** getZoneAtAltitude: the zone whose band holds the altitude, else the last zone. */
  function ZoneAt(altitude: real): (z: Zone)
    ensures z in ZONES
  {
    match FindZone(ZONES, altitude)
    case Some(i) => ZONES[i]
    case None => ZONES[|ZONES| - 1]
  }

  /** The table is contiguous and increasing, starts at 800 and ends at 6000. */
  lemma TableContiguous()
    ensures |ZONES| == 5
    ensures ZONES[0].minAltitude == FLOOR && ZONES[|ZONES| - 1].maxAltitude == CEILING
    ensures forall i :: 0 <= i < |ZONES| ==> ZONES[i].minAltitude < ZONES[i].maxAltitude
    ensures forall i :: 0 <= i < |ZONES| - 1 ==> ZONES[i].maxAltitude == ZONES[i + 1].minAltitude
  {
  }

  /** Every zone's fog is strictly positive. */
  lemma FogDensityPositive()
    ensures forall z :: z in ZONES ==> z.fogDensity > 0.0
  {
  }

  /** No band holds an altitude outside [800, 6000). */
  lemma OutsideRangeInNoBand(altitude: real)
    requires altitude < FLOOR || CEILING <= altitude
    ensures forall j :: 0 <= j < |ZONES| ==> !InBand(ZONES[j], altitude)
  {
  }

  /** Inside [800, 6000) the band holding an altitude is unique, and the lookup returns it. */
  lemma ZoneAtInRange(altitude: real, i: int)
    requires FLOOR <= altitude < CEILING
    requires 0 <= i < |ZONES| && InBand(ZONES[i], altitude)
    ensures ZoneAt(altitude) == ZONES[i]
    ensures forall j :: 0 <= j < |ZONES| && InBand(ZONES[j], altitude) ==> j == i
  {
    var r := FindZone(ZONES, altitude);
    assert r.Some?;
    BandsDisjoint(r.value, i, altitude);
  }

  /** Inside [800, 6000) some band holds the altitude. */
  lemma InRangeHasBand(altitude: real)
    requires FLOOR <= altitude < CEILING
    ensures InBand(ZoneAt(altitude), altitude)
  {
    var i := if altitude < 1800.0 then 0 else if altitude < 2800.0 then 1
             else if altitude < 4000.0 then 2 else if altitude < 5000.0 then 3 else 4;
    assert InBand(ZONES[i], altitude);
    ZoneAtInRange(altitude, i);
  }

  /** Two different bands of the table never hold the same altitude. */
  lemma BandsDisjoint(i: int, j: int, altitude: real)
    requires 0 <= i < |ZONES| && 0 <= j < |ZONES|
    requires InBand(ZONES[i], altitude) && InBand(ZONES[j], altitude)
    ensures i == j
  {
  }

  /** Outside [800, 6000), both below 800 and at or above 6000, the lookup
      falls back to the last zone, Arctic Summit. */
  lemma ZoneAtFallback(altitude: real)
    requires altitude < FLOOR || CEILING <= altitude
    ensures ZoneAt(altitude) == SUMMIT
  {
    OutsideRangeInNoBand(altitude);
  }

  /** The resolved zone's band holds the altitude exactly when the altitude is in [800, 6000). */
  lemma ZoneAtHoldsIff(altitude: real)
    ensures InBand(ZoneAt(altitude), altitude) <==> FLOOR <= altitude < CEILING
  {
    if FLOOR <= altitude < CEILING {
      InRangeHasBand(altitude);
    } else {
      OutsideRangeInNoBand(altitude);
      assert ZoneAt(altitude) == ZONES[4];
    }
  }

  /** The tested lookups: band interiors, boundaries resolving upward, and 7000. */
  lemma ZoneAtTestedValues()
    ensures ZoneAt(800.0).name == "Cultivation Zone" && ZoneAt(1000.0).name == "Cultivation Zone"
    ensures ZoneAt(1799.0).name == "Cultivation Zone"
    ensures ZoneAt(1800.0).name == "Rainforest Zone" && ZoneAt(2500.0).name == "Rainforest Zone"
    ensures ZoneAt(2799.0).name == "Rainforest Zone"
    ensures ZoneAt(2800.0).name == "Moorland Zone" && ZoneAt(3500.0).name == "Moorland Zone"
    ensures ZoneAt(3999.0).name == "Moorland Zone"
    ensures ZoneAt(4000.0).name == "Alpine Desert" && ZoneAt(4500.0).name == "Alpine Desert"
    ensures ZoneAt(4999.0).name == "Alpine Desert"
    ensures ZoneAt(5000.0).name == "Arctic Summit" && ZoneAt(5500.0).name == "Arctic Summit"
    ensures ZoneAt(5999.0).name == "Arctic Summit"
    ensures ZoneAt(7000.0).name == "Arctic Summit"
  {
    ZoneAtInRange(800.0, 0);
    ZoneAtInRange(1000.0, 0);
    ZoneAtInRange(1799.0, 0);
    ZoneAtInRange(2500.0, 1);
    ZoneAtInRange(3500.0, 2);
    ZoneAtInRange(4500.0, 3);
    ZoneAtInRange(5500.0, 4);
    ZoneAtInRange(1800.0, 1);
    ZoneAtInRange(2799.0, 1);
    ZoneAtInRange(2800.0, 2);
    ZoneAtInRange(3999.0, 2);
    ZoneAtInRange(4000.0, 3);
    ZoneAtInRange(4999.0, 3);
    ZoneAtInRange(5000.0, 4);
    ZoneAtInRange(5999.0, 4);
    ZoneAtFallback(7000.0);
  }

  /** The lookup in closed form: the table's thresholds, with every altitude
      outside [800, 6000) resolving to the last zone. */
  lemma ZoneAtClosedForm(altitude: real)
    ensures ZoneAt(altitude) ==
      if altitude < FLOOR then SUMMIT
      else if altitude < 1800.0 then CULTIVATION
      else if altitude < 2800.0 then RAINFOREST
      else if altitude < 4000.0 then MOORLAND
      else if altitude < 5000.0 then ALPINE
      else SUMMIT
  {
    if altitude < FLOOR || CEILING <= altitude { ZoneAtFallback(altitude); }
    else if altitude < 1800.0 { ZoneAtInRange(altitude, 0); }
    else if altitude < 2800.0 { ZoneAtInRange(altitude, 1); }
    else if altitude < 4000.0 { ZoneAtInRange(altitude, 2); }
    else if altitude < 5000.0 { ZoneAtInRange(altitude, 3); }
    else { ZoneAtInRange(altitude, 4); }
  }

  /** The five zone names are pairwise distinct, so a zone is identified by its name. */
  lemma NamesDistinct()
    ensures forall i, j :: 0 <= i < |ZONES| && 0 <= j < |ZONES| && ZONES[i].name == ZONES[j].name ==> i == j
  {
  }
}
