/** The particle field: per-zone motion parameters chosen by name, and the
    per-frame in-place update of the position buffer that drifts each particle
    and recycles it around the camera. */
module Particles {
  import opened MathUtils
  import opened Zones

  /** Number of particles; the buffer holds x, y, z for each. */
  const COUNT: nat := 1000
  /** Half-width of the box kept around the camera. */
  const RADIUS: real := 20.0
  /** The material's opacity and size move by delta * MATERIAL_RATE; its colour by delta. */
  const MATERIAL_RATE: real := 2.0

  /** Fall and drift speeds (units per second), point size and opacity. */
  datatype Motion = Motion(speedY: real, speedX: real, size: real, opacity: real)

  /** The values used when no zone name matches. */
  const DEFAULT_MOTION := Motion(-2.0, 0.0, 0.05, 0.5)

  /** part occurs in s starting at position k. */
  predicate OccursAt(s: string, part: string, k: nat)
  {
    k + |part| <= |s| && s[k..k + |part|] == part
  }

  /** String.prototype.includes: the part occurs at some position of s. */
  predicate Includes(s: string, part: string)
    ensures Includes(s, part) ==> |part| <= |s|
  {
    exists k: nat :: k <= |s| && OccursAt(s, part, k)
  }

  /** As in JavaScript, every string includes the empty string. */
  lemma EmptyPartIncluded(s: string)
    ensures Includes(s, "")
  {
    assert OccursAt(s, "", 0);
  }

  /** The motion for a zone, by the first keyword its name includes. */
  function ZoneMotion(name: string): (r: Motion)
    ensures r.speedY < 0.0 && 0.0 < r.size && 0.0 < r.opacity <= 1.0
  {
    if Includes(name, "Cultivation") then Motion(-0.5, 0.2, 0.05, 0.2)
    else if Includes(name, "Rainforest") then Motion(-4.0, 0.1, 0.05, 0.4)
    else if Includes(name, "Moorland") then Motion(-1.0, 1.5, 0.05, 0.3)
    else if Includes(name, "Alpine") then Motion(-0.2, 0.5, 0.05, 0.2)
    else if Includes(name, "Summit") then Motion(-0.5, 0.2, 0.08, 0.6)
    else DEFAULT_MOTION
  }

  /** Every character of an included part occurs in the string. */
  lemma IncludedCharsOccur(s: string, part: string, j: nat)
    requires Includes(s, part) && j < |part|
    ensures part[j] in s
  {
    var k: nat :| k <= |s| && OccursAt(s, part, k);
    assert s[k + j] == part[j];
  }

  /** A part that starts at position k of a string is included in it. */
  lemma IncludesAt(s: string, part: string, k: nat)
    requires OccursAt(s, part, k)
    ensures Includes(s, part)
  {
  }

  lemma MotionCultivation()
    ensures ZoneMotion(CULTIVATION.name) == Motion(-0.5, 0.2, 0.05, 0.2)
  {
    IncludesAt(CULTIVATION.name, "Cultivation", 0);
  }

  lemma MotionRainforest()
    ensures ZoneMotion(RAINFOREST.name) == Motion(-4.0, 0.1, 0.05, 0.4)
  {
    Excludes(RAINFOREST.name, "Cultivation", 0);
    IncludesAt(RAINFOREST.name, "Rainforest", 0);
  }

  lemma MotionMoorland()
    ensures ZoneMotion(MOORLAND.name) == Motion(-1.0, 1.5, 0.05, 0.3)
  {
    Excludes(MOORLAND.name, "Cultivation", 0);
    Excludes(MOORLAND.name, "Rainforest", 0);
    IncludesAt(MOORLAND.name, "Moorland", 0);
  }

  lemma MotionAlpine()
    ensures ZoneMotion(ALPINE.name) == Motion(-0.2, 0.5, 0.05, 0.2)
  {
    Excludes(ALPINE.name, "Cultivation", 0);
    Excludes(ALPINE.name, "Rainforest", 0);
    Excludes(ALPINE.name, "Moorland", 0);
    IncludesAt(ALPINE.name, "Alpine", 0);
  }

  lemma MotionSummit()
    ensures ZoneMotion(SUMMIT.name) == Motion(-0.5, 0.2, 0.08, 0.6)
  {
    Excludes(SUMMIT.name, "Cultivation", 0);
    Excludes(SUMMIT.name, "Rainforest", 0);
    Excludes(SUMMIT.name, "Moorland", 0);
    Excludes(SUMMIT.name, "Alpine", 1);
    assert SUMMIT.name[7..13] == "Summit";
    IncludesAt(SUMMIT.name, "Summit", 7);
  }

  /** A part with a character the string lacks is not included. */
  lemma Excludes(s: string, part: string, k: nat)
    requires k < |part| && part[k] !in s
    ensures !Includes(s, part)
  {
    if Includes(s, part) {
      IncludedCharsOccur(s, part, k);
    }
  }

  /** No zone of the table falls through to the default motion. */
  lemma NoZoneUsesDefault()
    ensures forall z :: z in ZONES ==> ZoneMotion(z.name) != DEFAULT_MOTION
  {
    MotionCultivation();
    MotionRainforest();
    MotionMoorland();
    MotionAlpine();
    MotionSummit();
  }

  /** One particle's position. */
  datatype Particle = Particle(x: real, y: real, z: real)

  /** The horizontal wrap: past +RADIUS jumps to -RADIUS, then below -RADIUS jumps to +RADIUS. */
  function WrapX(x: real): (r: real)
    ensures -RADIUS <= r <= RADIUS
    ensures -RADIUS <= x <= RADIUS ==> r == x
  {
    var x1 := if x > RADIUS then -RADIUS else x;
    if x1 < -RADIUS then RADIUS else x1
  }

  /** A particle that has fallen below cameraY - RADIUS is recycled. */
  predicate Recycled(p: Particle, m: Motion, delta: real, cameraY: real)
    ensures m.speedY <= 0.0 && 0.0 <= delta && p.y < cameraY - RADIUS ==> Recycled(p, m, delta, cameraY)
  {
    p.y + m.speedY * delta < cameraY - RADIUS
  }

  /** One particle's frame: drift by the speeds; a particle that fell out of the
      box restarts at its top with the fresh x and z drawn for it; then x wraps. */
  function StepParticle(p: Particle, m: Motion, delta: real, cameraY: real, freshX: real, freshZ: real): (r: Particle)
    ensures -RADIUS <= r.x <= RADIUS && r.y >= cameraY - RADIUS
  {
    var y := p.y + m.speedY * delta;
    var x := p.x + m.speedX * delta;
    if y < cameraY - RADIUS then Particle(WrapX(freshX), cameraY + RADIUS, freshZ)
    else Particle(WrapX(x), y, p.z)
  }

  /** What a frame does to one particle: x always ends in [-20, 20] and y at or
      above the bottom of the box; a particle that is not recycled falls by
      speedY * delta, drifts by speedX * delta (then wraps) and keeps its z; a
      recycled one starts at the top of the box with the fresh x and z it drew. */
  lemma StepParticleSpec(p: Particle, m: Motion, delta: real, cameraY: real, freshX: real, freshZ: real)
    ensures -RADIUS <= StepParticle(p, m, delta, cameraY, freshX, freshZ).x <= RADIUS
    ensures StepParticle(p, m, delta, cameraY, freshX, freshZ).y >= cameraY - RADIUS
    ensures !Recycled(p, m, delta, cameraY) ==>
              StepParticle(p, m, delta, cameraY, freshX, freshZ) ==
              Particle(WrapX(p.x + m.speedX * delta), p.y + m.speedY * delta, p.z)
    ensures Recycled(p, m, delta, cameraY) && -RADIUS <= freshX < RADIUS ==>
              StepParticle(p, m, delta, cameraY, freshX, freshZ) == Particle(freshX, cameraY + RADIUS, freshZ)
  {
    if Recycled(p, m, delta, cameraY) && -RADIUS <= freshX < RADIUS {
      assert WrapX(freshX) == freshX;
    }
  }

  /** The wrap leaves an x inside the box alone and moves any other into it. */
  lemma WrapXSpec(x: real)
    ensures -RADIUS <= WrapX(x) <= RADIUS
    ensures -RADIUS <= x <= RADIUS ==> WrapX(x) == x
    ensures x > RADIUS ==> WrapX(x) == -RADIUS
    ensures x < -RADIUS ==> WrapX(x) == RADIUS
  {
  }

  /** The particle stored at slot i of a position buffer. */
  function ParticleAt(s: seq<real>, i: nat): (p: Particle)
    requires 3 * i + 2 < |s|
  {
    Particle(s[3 * i], s[3 * i + 1], s[3 * i + 2])
  }

  /** Coordinate c (0 for x, 1 for y, 2 for z) of a particle. */
  function Coord(p: Particle, c: nat): (v: real)
    requires c < 3
  {
    if c == 0 then p.x else if c == 1 then p.y else p.z
  }

  /** Entry j of the buffer after a frame, for j inside the particles: coordinate
      j % 3 of particle j / 3, stepped. */
  function SteppedEntry(s: seq<real>, j: nat, m: Motion, delta: real, cameraY: real, freshX: seq<real>, freshZ: seq<real>): (v: real)
    requires j < 3 * COUNT <= |s| && |freshX| == COUNT && |freshZ| == COUNT
  {
    Coord(StepParticle(ParticleAt(s, j / 3), m, delta, cameraY, freshX[j / 3], freshZ[j / 3]), j % 3)
  }

  /** The buffer after a frame: the first 3 * COUNT entries hold the stepped
      particles, the rest are as they were. */
  function FrameBuffer(s: seq<real>, m: Motion, delta: real, cameraY: real, freshX: seq<real>, freshZ: seq<real>): (r: seq<real>)
    requires |s| >= 3 * COUNT && |freshX| == COUNT && |freshZ| == COUNT
    ensures |r| == |s|
  {
    seq(|s|, j requires 0 <= j < |s| =>
      if j < 3 * COUNT then SteppedEntry(s, j, m, delta, cameraY, freshX, freshZ) else s[j])
  }

  /** Particle i of buffer s after a frame. */
  function StepSlot(s: seq<real>, i: nat, m: Motion, delta: real, cameraY: real, freshX: seq<real>, freshZ: seq<real>): (p: Particle)
    requires i < COUNT && 3 * COUNT <= |s| && |freshX| == COUNT && |freshZ| == COUNT
  {
    StepParticle(ParticleAt(s, i), m, delta, cameraY, freshX[i], freshZ[i])
  }

  /** The three entries of particle i after a frame are its stepped coordinates. */
  lemma SteppedEntries(s: seq<real>, i: nat, m: Motion, delta: real, cameraY: real, freshX: seq<real>, freshZ: seq<real>)
    requires i < COUNT && 3 * COUNT <= |s| && |freshX| == COUNT && |freshZ| == COUNT
    ensures SteppedEntry(s, 3 * i, m, delta, cameraY, freshX, freshZ) ==
            StepParticle(ParticleAt(s, i), m, delta, cameraY, freshX[i], freshZ[i]).x
    ensures SteppedEntry(s, 3 * i + 1, m, delta, cameraY, freshX, freshZ) ==
            StepParticle(ParticleAt(s, i), m, delta, cameraY, freshX[i], freshZ[i]).y
    ensures SteppedEntry(s, 3 * i + 2, m, delta, cameraY, freshX, freshZ) ==
            StepParticle(ParticleAt(s, i), m, delta, cameraY, freshX[i], freshZ[i]).z
  {
    assert (3 * i) / 3 == i && (3 * i) % 3 == 0;
    assert (3 * i + 1) / 3 == i && (3 * i + 1) % 3 == 1;
    assert (3 * i + 2) / 3 == i && (3 * i + 2) % 3 == 2;
  }

  /** After a frame every particle of the buffer is inside the box horizontally
      and not below it, particle i is particle i stepped, and entries past the
      particles are untouched. */
  lemma FrameBufferSpec(s: seq<real>, m: Motion, delta: real, cameraY: real, freshX: seq<real>, freshZ: seq<real>, i: nat)
    requires |s| >= 3 * COUNT && |freshX| == COUNT && |freshZ| == COUNT
    requires i < COUNT
    ensures ParticleAt(FrameBuffer(s, m, delta, cameraY, freshX, freshZ), i) ==
            StepParticle(ParticleAt(s, i), m, delta, cameraY, freshX[i], freshZ[i])
    ensures -RADIUS <= FrameBuffer(s, m, delta, cameraY, freshX, freshZ)[3 * i] <= RADIUS
    ensures FrameBuffer(s, m, delta, cameraY, freshX, freshZ)[3 * i + 1] >= cameraY - RADIUS
    ensures forall j :: 3 * COUNT <= j < |s| ==> FrameBuffer(s, m, delta, cameraY, freshX, freshZ)[j] == s[j]
  {
    SteppedEntries(s, i, m, delta, cameraY, freshX, freshZ);
    StepParticleSpec(ParticleAt(s, i), m, delta, cameraY, freshX[i], freshZ[i]);
  }

  /** The useFrame loop over the Float32Array: each particle is read, moved,
      recycled or wrapped, and written back in place. freshX and freshZ hold the
      random values a recycled particle draws. */
  method UpdatePositions(positions: array<real>, m: Motion, delta: real, cameraY: real, freshX: seq<real>, freshZ: seq<real>)
    requires positions.Length >= 3 * COUNT && |freshX| == COUNT && |freshZ| == COUNT
    modifies positions
    ensures positions[..] == FrameBuffer(old(positions[..]), m, delta, cameraY, freshX, freshZ)
  {
    ghost var s0 := positions[..];
    var i := 0;
    while i < COUNT
      invariant 0 <= i <= COUNT
      invariant forall k :: 0 <= k < i ==> ParticleAt(positions[..], k) == StepSlot(s0, k, m, delta, cameraY, freshX, freshZ)
      invariant forall j :: 3 * i <= j < positions.Length ==> positions[j] == s0[j]
    {
      var x := positions[3 * i];
      var y := positions[3 * i + 1];
      var z := positions[3 * i + 2];
      ghost var before := Particle(x, y, z);
      assert before == ParticleAt(s0, i);
      ghost var stepped := StepParticle(before, m, delta, cameraY, freshX[i], freshZ[i]);
      y := y + m.speedY * delta;
      x := x + m.speedX * delta;
      if y < cameraY - RADIUS {
        y := cameraY + RADIUS;
        x := freshX[i];
        z := freshZ[i];
        assert stepped == Particle(WrapX(x), y, z);
      } else {
        assert stepped == Particle(WrapX(x), y, z);
      }
      ghost var unwrapped := x;
      if x > RADIUS { x := -RADIUS; }
      if x < -RADIUS { x := RADIUS; }
      assert x == WrapX(unwrapped);
      assert Particle(x, y, z) == StepSlot(s0, i, m, delta, cameraY, freshX, freshZ);
      positions[3 * i] := x;
      positions[3 * i + 1] := y;
      positions[3 * i + 2] := z;
      i := i + 1;
    }
    forall j | 0 <= j < positions.Length
      ensures positions[j] == FrameBuffer(s0, m, delta, cameraY, freshX, freshZ)[j]
    {
      if j < 3 * COUNT {
        var k := j / 3;
        SteppedEntries(s0, k, m, delta, cameraY, freshX, freshZ);
        assert ParticleAt(positions[..], k) == StepSlot(s0, k, m, delta, cameraY, freshX, freshZ);
      }
    }
  }

  /** The particle field: its position buffer and the material it lerps. */
  class ParticleField {
    const positions: array<real>
    var opacity: real
    var size: real
    var tint: Tint

    /** The buffer of COUNT particles with the given start positions, and the
        material's initial size, colour and opacity. */
    constructor (start: seq<real>)
      requires |start| == 3 * COUNT
      ensures fresh(positions) && positions[..] == start
      ensures opacity == 0.5 && size == 0.05 && tint == Solid(Colour("#ffffff"))
    {
      positions := new real[3 * COUNT](j => if 0 <= j < |start| then start[j] else 0.0);
      opacity := 0.5;
      size := 0.05;
      tint := Solid(Colour("#ffffff"));
    }

    /** One frame at the given altitude and camera height. */
    method FrameStep(altitude: real, cameraY: real, delta: real, freshX: seq<real>, freshZ: seq<real>)
      requires positions.Length == 3 * COUNT && |freshX| == COUNT && |freshZ| == COUNT
      modifies this, positions
      ensures positions[..] ==
              FrameBuffer(old(positions[..]), ZoneMotion(ZoneAt(altitude).name), delta, cameraY, freshX, freshZ)
      ensures opacity == Lerp(old(opacity), ZoneMotion(ZoneAt(altitude).name).opacity, delta * MATERIAL_RATE)
      ensures size == Lerp(old(size), ZoneMotion(ZoneAt(altitude).name).size, delta * MATERIAL_RATE)
      ensures tint == Blend(old(tint), ZoneAt(altitude).fogColor, delta)
    {
      var zone := ZoneAt(altitude);
      var motion := ZoneMotion(zone.name);
      UpdatePositions(positions, motion, delta, cameraY, freshX, freshZ);
      opacity := Lerp(opacity, motion.opacity, delta * MATERIAL_RATE);
      size := Lerp(size, motion.size, delta * MATERIAL_RATE);
      tint := Blend(tint, zone.fogColor, delta);
    }
  }
}
