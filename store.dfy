/** The shared altitude record: the animated altitude and the input-driven
    target, with setters that store what they are given. */
module Store {

  /** The altitude both fields start at, the foot of the mountain. */
  const START_ALTITUDE: real := 800.0

  class AltitudeStore {
    /** The rendered, animated altitude in metres. */
    var altitude: real
    /** The altitude the input asks for, in metres. */
    var targetAltitude: real

    constructor ()
      ensures altitude == START_ALTITUDE && targetAltitude == START_ALTITUDE
    {
      altitude := START_ALTITUDE;
      targetAltitude := START_ALTITUDE;
    }

    /** setTargetAltitude: stores v verbatim (no clamping) and leaves altitude alone. */
    method SetTargetAltitude(v: real)
      modifies this`targetAltitude
      ensures targetAltitude == v
      ensures altitude == old(altitude)
    {
      targetAltitude := v;
    }

    /** setAltitude: stores v verbatim (no clamping) and leaves targetAltitude alone. */
    method SetAltitude(v: real)
      modifies this`altitude
      ensures altitude == v
      ensures targetAltitude == old(targetAltitude)
    {
      altitude := v;
    }
  }

  /** The tested setter round trip, extended to every value (even one outside
      [800, 6000]) and to the other field being left alone: from 800/800, each
      setter stores its value verbatim. */
  method StoreScenario(v: real, w: real) returns (altitude: real, target: real)
    ensures altitude == w && target == v
  {
    var s := new AltitudeStore();
    assert s.altitude == 800.0 && s.targetAltitude == 800.0;
    s.SetTargetAltitude(v);
    assert s.altitude == 800.0;
    s.SetAltitude(w);
    altitude, target := s.altitude, s.targetAltitude;
  }
}
