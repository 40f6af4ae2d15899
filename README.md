# Kilimanjaro ascent: the altitude core in Dafny

The visualisation climbs Mount Kilimanjaro as the user scrolls. One shared
store holds two reals: `altitude` (the animated value) and `targetAltitude` (what
the input asks for). The rest of the core consists of small deterministic rules
that read these two values:

- **Zone table** (`zones.dfy`): five half-open bands from 800 m to 6000 m, and
  `getZoneAtAltitude`. The lookup is `find` over the bands, falling back to the
  last band.
- **Store** (`store.dfy`): a class with the two fields and two setters that
  store their argument verbatim.
- **Input driver** (`scroll.dfy`): the wheel and touch handlers. They move the
  target by a scaled delta and clamp it into [800, 6000]. `touchStartY` is
  carried between events.
- **Integrator** (`scene.dfy`): the per-frame step. It computes
  `lerp(altitude, target, delta * 2)`, writes the result only if it moved by
  more than 0.01, and places the camera at a tenth of the smoothed value.
- **Overlay** (`ui.dfy`): the rounded altitude, the zone resolved from it, and
  the scroll hint. It also holds the idle fade (a restartable 3000 ms timer) and
  the zone-label crossfade (a cancellable 1000 ms swap). This is a class with an
  explicit millisecond clock and at most one pending timer of each kind.
- **Zone-reactive renderers**:
  - `atmosphere.dfy`: fog density and colour.
  - `sky.dfy`: the gradient's top and bottom colours, and the star opacity and
    rotation.
  - `particles.dfy`: per-zone particle motion, and the in-place update of the
    position buffer with recycling and wrap-around.
  - `audio.dfy`: the piecewise-linear layer weights, the gain scaling, and the
    started guard.

Altitudes, deltas, densities, opacities and gains are exact `real`s.
`MathUtils.lerp`, `clamp` and `mapLinear` and `Math.round` are defined in
`mathutils.dfy`. Colours are opaque tokens: a `Colour` holds the hex string the
source uses. A colour lerped in place is recorded as
`Blend(previous, target, factor)`.

Two behaviours of the code are worth knowing when reading the lemmas:

- The integrator's factor `delta * 2` is not clamped (Scene.tsx:14).
  `Scene.LongFrameOvershoots` shows that a one-second frame overshoots the
  target, and `Audio.OvershootLeavesUnit` shows that the audio weights computed
  at such an altitude leave [0, 1].
- The overlay resolves its zone from the rounded altitude, and every renderer
  resolves it from the raw one. `UI.UiZoneClosedForm` moves each threshold half
  a metre down. `UI.LabelDisagreesBelowFloor` shows that between 799.5 and 800
  the label says Cultivation while the scene is drawn as Arctic Summit.

## Model

| member | source | states |
|---|---|---|
| MathUtils.Lerp | app/src/components/Scene.tsx:14 | lerp(x, y, t) gives x at t = 0 and y at t = 1. Its convex-combination bounds are in LerpBetween. |
| MathUtils.Clamp | app/src/hooks/useScroll.ts:17 | The result lies in [lo, hi]. It equals v inside the range and the nearer end outside it. |
| MathUtils.Round | app/src/components/UI.tsx:6 | Math.round: the unique integer n with x - 0.5 < n <= x + 0.5, so halves go up. |
| MathUtils.LerpBetween | app/src/components/Scene.tsx:14 | A lerp with factor in [0, 1] lands between its ends. The remaining gap is scaled by (1 - t). |
| MathUtils.MapLinear | app/src/components/Sky.tsx:126 | mapLinear(x, a1, a2, b1, b2) sends a1 to b1 and a2 to b2. |
| Zones.InBand | app/src/config/zones.ts:60 | The half-open band test min <= altitude < max. A band that holds some altitude is non-empty. |
| Zones.FindZone | app/src/config/zones.ts:60 | `find`: a returned index is a zone whose band holds the altitude, and no earlier zone's band does. None means no band holds it. |
| Zones.ZoneAt | app/src/config/zones.ts:59-61 | The lookup is total and always returns an element of ZONES. |
| Zones.TableContiguous | app/src/config/zones.ts:11-57 | Five non-empty bands. Each maximum is the next band's minimum. They span 800 to 6000. |
| Zones.FogDensityPositive | app/src/config/zones.ts:11-57 | Every zone's fogDensity is positive. |
| Zones.OutsideRangeInNoBand | app/src/config/zones.ts:60 | No band holds an altitude below 800 or at or above 6000. |
| Zones.ZoneAtInRange | app/src/config/zones.ts:60 | In [800, 6000) the band holding the altitude is unique, and the lookup returns it. |
| Zones.InRangeHasBand | app/src/config/zones.ts:60 | In [800, 6000) the resolved zone's band holds the altitude. |
| Zones.BandsDisjoint | app/src/config/zones.ts:11-57 | Two different bands never hold the same altitude. |
| Zones.ZoneAtFallback | app/src/config/zones.ts:60 | Below 800, and at or above 6000, the lookup returns Arctic Summit. Low altitudes do not get the first zone. |
| Zones.ZoneAtHoldsIff | app/src/config/zones.ts:60 | The resolved zone's band holds the altitude if and only if the altitude is in [800, 6000). |
| Zones.ZoneAtTestedValues | app/src/config/zones.test.ts:5-37 | The tested names at 800, 1000, 1799, 1800, 2500, 2799, 2800, 3500, 3999, 4000, 4500, 4999, 5000, 5500, 5999 and 7000. Boundaries resolve to the upper zone. |
| Zones.ZoneAtClosedForm | app/src/config/zones.ts:11-61 | The lookup equals the threshold chain 1800/2800/4000/5000, and Arctic Summit outside [800, 6000). |
| Zones.NamesDistinct | app/src/config/zones.ts:11-57 | The five names are pairwise distinct. |
| Store.AltitudeStore.constructor | app/src/store/useStore.ts:10-12 | Both fields start at 800. |
| Store.AltitudeStore.SetTargetAltitude | app/src/store/useStore.ts:13 | Stores v verbatim, without clamping. altitude is unchanged. |
| Store.AltitudeStore.SetAltitude | app/src/store/useStore.ts:14 | Stores v verbatim, without clamping. targetAltitude is unchanged. |
| Store.StoreScenario | app/src/store/useStore.test.ts:10-24 | Starting from the defaults, setting target v and then altitude w reads back exactly (w, v) for every v and w. |
| Scroll.WheelTarget | app/src/hooks/useScroll.ts:12-17 | The wheel target always lies in [800, 6000]. WheelSaturates and WheelExactInRange give its exact value. |
| Scroll.TouchDelta | app/src/hooks/useScroll.ts:38 | The touch delta is positive exactly when the finger moved up (touchY < touchStartY) and negative exactly when it moved down. |
| Scroll.TouchTarget | app/src/hooks/useScroll.ts:38-41 | The touch target always lies in [800, 6000]. SwipeDirection and IncrementalMoves relate successive moves. |
| Scroll.InputDriver.constructor | app/src/hooks/useScroll.ts:22 | touchStartY starts at 0. |
| Scroll.InputDriver.HandleWheel | app/src/hooks/useScroll.ts:8-20 | The target becomes clamp(old + deltaY * 0.5, 800, 6000) and lies in [800, 6000]. altitude is not written. |
| Scroll.InputDriver.HandleTouchStart | app/src/hooks/useScroll.ts:24-26 | Only touchStartY changes; the store is not touched. |
| Scroll.InputDriver.HandleTouchMove | app/src/hooks/useScroll.ts:28-45 | The target becomes clamp(old + (touchStartY - touchY) * 2, 800, 6000) and lies in [800, 6000]. touchStartY becomes touchY. altitude is not written. |
| Scroll.TargetsInRange | app/src/hooks/useScroll.ts:17-41 | Both handlers' targets lie in [800, 6000] from any starting target. |
| Scroll.WheelSaturates | app/src/hooks/useScroll.ts:12-17 | A delta that reaches either end gives exactly 6000 or exactly 800 from any starting target; for example a delta of +/-1e9. |
| Scroll.WheelExactInRange | app/src/hooks/useScroll.ts:14-17 | Inside the range, the target moves by exactly deltaY / 2. |
| Scroll.SwipeDirection | app/src/hooks/useScroll.ts:38-41 | From an in-range target, moving the finger up never lowers the target and moving it down never raises it. |
| Scroll.IncrementalMoves | app/src/hooks/useScroll.ts:38-44 | Because each move re-bases touchStartY, two unclamped moves equal one move over the whole drag. |
| Scroll.TouchScenario | app/src/hooks/useScroll.ts:22-44 | On a fresh store, touchstart leaves 800; moves of 100 px and 50 px give 1000 and then 1100; a long drag gives exactly 6000. |
| Scene.Camera.constructor | app/src/components/Experience.tsx:9-14 | The canvas camera starts at y = 2, z = 5, pointed at the origin. |
| Scene.Smoothed | app/src/components/Scene.tsx:14 | The gap to the target is scaled by exactly 1 - 2 delta, whatever the sign of that factor. No-overshoot is proved in SmoothedNoOvershoot, and overshoot in LongFrameOvershoots. |
| Scene.Committed | app/src/components/Scene.tsx:14-18 | The new altitude is either the old one or the smoothed one. It differs from the old one only by more than 0.01. CommittedGap and GapNonIncreasing say which case applies and what happens to the gap. |
| Scene.Settle | app/src/components/Scene.tsx:8-18 | n frames with a fixed target and delta: an altitude already at its target stays there. For delta in [0, 0.5], SettleApproaches and SettleMonotone prove a monotone approach without overshoot, and SettleStalls shows that the approach can stop short of the target. |
| Scene.FrameStep | app/src/components/Scene.tsx:8-26 | The altitude becomes Committed(altitude, target, delta). The target is untouched. Camera y is smoothed * 0.1 even when nothing is committed; z is 10; the look-at point is (0, y, 0). |
| Scene.SmoothedNoOvershoot | app/src/components/Scene.tsx:14 | When delta * 2 is in [0, 1], the smoothed value lies between the altitude and the target. |
| Scene.LongFrameOvershoots | app/src/components/Scene.tsx:14-18 | The factor is unclamped: a 1 s frame from 800 toward 6000 commits 11200. |
| Scene.CommittedGap | app/src/components/Scene.tsx:14-18 | If the step is at most 0.01, the altitude is unchanged. Otherwise the gap to the target becomes gap * (1 - 2 delta). |
| Scene.GapNonIncreasing | app/src/components/Scene.tsx:14-18 | With delta in [0, 0.5], one frame never widens the gap and never crosses the target. |
| Scene.SettleApproaches | app/src/components/Scene.tsx:8-18 | After any number of frames with a fixed delta in [0, 0.5], the altitude stays between its start and the target. The gap never exceeds the initial one. |
| Scene.SettleMonotone | app/src/components/Scene.tsx:8-18 | Over those frames the gap to the target is non-increasing, frame by frame. |
| Scene.SettleStalls | app/src/components/Scene.tsx:14-18 | Once one frame's step is at most 0.01, every later frame leaves the altitude where it is. The altitude then never reaches the target. |
| Scene.SmallGapNeverCloses | app/src/components/Scene.tsx:14-18 | At delta = 1/60, an altitude 800 with target 800.3 stays at 800 after any number of frames. |
| UI.DisplayedAltitude | app/src/components/UI.tsx:6 | The shown altitude is Math.round of the store's altitude. |
| UI.UiZone | app/src/components/UI.tsx:6-7 | The overlay's zone is the lookup of the rounded altitude. Its closed form is in UiZoneClosedForm. |
| UI.UiZoneClosedForm | app/src/components/UI.tsx:6-7 | For every altitude, the overlay's zone follows the table's thresholds moved down by half a metre: 799.5, 1799.5, 2799.5, 3999.5, 4999.5. Below 799.5 it is Arctic Summit. |
| UI.LabelDisagreesBelowFloor | app/src/components/UI.tsx:6-7 | In [799.5, 800) the label resolves Cultivation while the raw lookup, which the renderers use, resolves Arctic Summit. |
| UI.ShowsScrollHint | app/src/components/UI.tsx:72 | The hint shows exactly when the rounded altitude is below 850, that is, when the raw altitude is below 849.5. |
| UI.RoundedZoneLeads | app/src/components/UI.tsx:6-7 | Because of the rounding, 1799.5 shows Rainforest while the raw lookup says Cultivation. |
| UI.Overlay.constructor | app/src/components/UI.tsx:9-28 | On mount the overlay is visible with a hide timer due at mount + 3000. The label shows the current zone, faded in, with no swap pending. |
| UI.Overlay.StoreChanged | app/src/components/UI.tsx:19-53 | A changed altitude makes the overlay visible and restarts the single 3000 ms timer; an update with the same altitude leaves visibility alone. On a zone change the pending swap is cancelled. If the new name differs from the last swapped-in name, fadeZone becomes false and a swap to the new zone is scheduled 1000 ms later; otherwise no swap is scheduled and fadeZone is kept. The object invariant Valid() is preserved. |
| UI.Overlay.Advance | app/src/components/UI.tsx:21-47 | Due timers fire. The hide timer sets visible to false. The swap shows the captured zone, sets fadeZone to true and updates prevZoneName. Nothing else changes. Valid() is preserved. |
| UI.IdleFadeScenario | app/src/components/UI.test.tsx:47-80 | Visible at 2999 ms and hidden at 3000 ms. An altitude change shows the overlay again, and it hides 3000 ms after that change. |
| UI.TargetOnlyScenario | app/src/components/UI.tsx:20 | An update that changes only the target does not bring back a faded overlay. |
| UI.CrossfadeScenario | app/src/components/UI.test.tsx:29-45 | Going from 800 to 2000 fades out at once. The label still shows Cultivation at 999 ms and shows Rainforest, faded in, at 1000 ms. |
| UI.BounceBackScenario | app/src/components/UI.tsx:40-53 | Returning to the displayed zone before the swap cancels it and schedules none. The label stays faded out with no swap pending, here 60 s later. |
| Atmosphere.SceneFog.constructor | app/src/components/Atmosphere.tsx:11-16 | Before the mount effect runs, the scene has no fog. |
| Atmosphere.SceneFog.Mount | app/src/components/Atmosphere.tsx:11-16 | The fog becomes a FogExp2 with the colour and density of the zone at the current altitude, so the density starts in [0.015, 0.04]. |
| Atmosphere.SceneFog.FrameStep | app/src/components/Atmosphere.tsx:18-32 | For a FogExp2, the colour blends toward the zone's fogColor by delta, and the density becomes old + (target - old) * delta. Any other fog is untouched. |
| Atmosphere.DensityStep | app/src/components/Atmosphere.tsx:30 | After one step the gap to the target density is scaled by 1 - factor. DensityStepBetween and DensityStaysInRange bound it. |
| Atmosphere.DensityStepBetween | app/src/components/Atmosphere.tsx:27-30 | For a factor in [0, 1] the new density lies between the old density and the target. A density already at its target stays there. |
| Atmosphere.ZoneDensityInRange | app/src/components/Atmosphere.tsx:20-23 | Every target density lies in [0.015, 0.04]. |
| Atmosphere.DensityStaysInRange | app/src/components/Atmosphere.tsx:18-32 | Once mounted, with deltas in [0, 1], the density stays in [0.015, 0.04] and so stays positive. |
| Sky.TopColour | app/src/components/Sky.tsx:71-75 | The top target is always one of the five sky colours. TopColourFollowsZones relates its thresholds to the zone table. |
| Sky.BottomColour | app/src/components/Sky.tsx:63-68 | The bottom target is the zone's fog colour; outside [800, 6000) it is the summit's. |
| Sky.StarTarget | app/src/components/Sky.tsx:124-127 | The star target is never negative and is at most 1 at or below 5500 m. The closed form is in StarTargetShape. |
| Sky.TopColourFollowsZones | app/src/components/Sky.tsx:62-75 | From 800 m up, the top colour is the one at the index of the resolved zone. Below 800 m the top is the day colour, while the bottom takes the summit's fog colour. |
| Sky.StarTargetShape | app/src/components/Sky.tsx:124-127 | The target is 0 up to 3500 and (alt - 3500)/2000 above. It is 1 at 5500, above 1 past 5500, and in [0, 1] at or below 5500. |
| Sky.StarTargetMonotone | app/src/components/Sky.tsx:124-127 | The star target opacity never decreases with altitude. |
| Sky.SkyGradient.constructor | app/src/components/Sky.tsx:15-16 | The initial top and bottom uniforms. |
| Sky.SkyGradient.FrameStep | app/src/components/Sky.tsx:59-80 | The bottom blends toward the zone's fogColor and the top toward the threshold colour, each by delta * 0.5. |
| Sky.Stars.constructor | app/src/components/Sky.tsx:145-153 | The stars start transparent and unrotated. |
| Sky.Stars.FrameStep | app/src/components/Sky.tsx:113-134 | rotation.y grows by delta * 0.01, and opacity becomes lerp(opacity, target, delta). |
| Sky.StarOpacityStaysInUnit | app/src/components/Sky.tsx:124-132 | At or below 5500 m, with delta in [0, 1], the opacity stays in [0, 1]. |
| Particles.Includes | app/src/components/Particles.tsx:43-59 | String.prototype.includes: the part occurs at some start index k <= len(s). An included part is no longer than the string. |
| Particles.EmptyPartIncluded | app/src/components/Particles.tsx:43-59 | As with String.prototype.includes, every string includes the empty string. |
| Particles.ZoneMotion | app/src/components/Particles.tsx:37-64 | Every branch, the default included, makes particles fall (speedY < 0) with a positive size and an opacity in (0, 1]. The Motion lemmas give each zone's values. |
| Particles.MotionCultivation | app/src/components/Particles.tsx:43-47 | Cultivation gives (-0.5, 0.2, 0.05, 0.2). |
| Particles.MotionRainforest | app/src/components/Particles.tsx:48-51 | Rainforest gives (-4.0, 0.1, 0.05, 0.4); its name does not include "Cultivation". |
| Particles.MotionMoorland | app/src/components/Particles.tsx:52-55 | Moorland gives (-1.0, 1.5, 0.05, 0.3). |
| Particles.MotionAlpine | app/src/components/Particles.tsx:56-59 | Alpine Desert gives (-0.2, 0.5, 0.05, 0.2). |
| Particles.MotionSummit | app/src/components/Particles.tsx:60-64 | Arctic Summit gives (-0.5, 0.2, 0.08, 0.6); its name includes none of the earlier keywords. |
| Particles.NoZoneUsesDefault | app/src/components/Particles.tsx:37-64 | No zone of the table falls through to the default (-2, 0, 0.05, 0.5). |
| Particles.WrapX | app/src/components/Particles.tsx:84-85 | The wrapped x lies in [-20, 20], and an x already inside is kept. |
| Particles.Recycled | app/src/components/Particles.tsx:79 | The recycle test y + speedY * delta < cameraY - 20. A falling particle that is already below the box is always recycled. |
| Particles.StepParticle | app/src/components/Particles.tsx:73-85 | A stepped particle has x in [-20, 20] and y >= cameraY - 20. The per-case values are in StepParticleSpec. |
| Particles.StepParticleSpec | app/src/components/Particles.tsx:73-85 | After the step, x is in [-20, 20] and y >= cameraY - 20. A non-recycled particle moves by (speedX * delta, wrapped; speedY * delta) and keeps z. A recycled one gets y = cameraY + 20 and its fresh x and z (for a fresh x in [-20, 20)). |
| Particles.WrapXSpec | app/src/components/Particles.tsx:84-85 | The wrap keeps x in [-20, 20], leaves an in-box x alone, and sends x > 20 to -20 and x < -20 to 20. |
| Particles.FrameBuffer | app/src/components/Particles.tsx:68-90 | The buffer keeps its length after a frame. |
| Particles.FrameBufferSpec | app/src/components/Particles.tsx:68-90 | Particle i of the new buffer is particle i stepped, with x in [-20, 20] and y >= cameraY - 20. Entries past 3 * COUNT are unchanged. |
| Particles.UpdatePositions | app/src/components/Particles.tsx:68-90 | The in-place loop leaves the array equal to FrameBuffer of the old contents. |
| Particles.ParticleField.constructor | app/src/components/Particles.tsx:14-27 | A fresh 3 * COUNT buffer with the given start positions. The material starts at size 0.05, colour white and opacity 0.5. |
| Particles.ParticleField.FrameStep | app/src/components/Particles.tsx:29-99 | The buffer is stepped with the zone's motion. Opacity and size are lerped by delta * 2, and the colour blends toward the zone's fogColor by delta. |
| Audio.LayerWeights | app/src/components/AudioManager.tsx:113-137 | Below 2800 m the low and mid weights sum to exactly 1. The lemmas below give the ranges, silences, endpoints and continuity. |
| Audio.GainTargets | app/src/components/AudioManager.tsx:144-147 | Weights in [0, 1] give gains in [0, 0.5], [0, 0.4], [0, 0.3] and [0, 0.15]. |
| Audio.WeightsInUnit | app/src/components/AudioManager.tsx:113-137 | For altitudes in [800, 6000], all four weights are in [0, 1]. |
| Audio.SilentLayers | app/src/components/AudioManager.tsx:113-137 | low is 0 from 2800 up, high is 0 below 2800, and summit is 0 below 4000. |
| Audio.WeightEndpoints | app/src/components/AudioManager.tsx:117-136 | At 800: (1, 0, 0, 0). At 6000: (0, 0, 0.3, 0.8). |
| Audio.CrossfadeContinuous | app/src/components/AudioManager.tsx:115-137 | mid, high and summit change by at most 0.0006 per metre across [800, 6000], so they are continuous at every boundary. |
| Audio.LowDropsAt2800 | app/src/components/AudioManager.tsx:115-125 | low is continuous and non-increasing below 2800 and stays above 0.2 there. It is 0 at 2800. |
| Audio.OvershootLeavesUnit | app/src/components/AudioManager.tsx:133-136 | At 7000 m, reachable through an overshooting frame, the high weight and its gain target are negative and the summit weight exceeds 1. |
| Audio.Mixer.constructor | app/src/components/AudioManager.tsx:15 | Audio starts off, with no gain requests. |
| Audio.Mixer.Start | app/src/components/AudioManager.tsx:153-158 | The button turns audio on and issues no request. |
| Audio.Mixer.StoreChanged | app/src/components/AudioManager.tsx:99-151 | Before start, nothing is issued. After start, each store update issues one request with the scaled weights for the altitude and time constant 0.1. |
| Audio.StartGuardScenario | app/src/components/AudioManager.tsx:101 | Two updates before the button issue no request. After it, an update at 800 issues (0.5, 0, 0, 0). |

## Left out

- Web Audio graph construction is not modelled. This covers the noise buffer, filters, oscillators, master gain, `resume` and `close`. It is hardware I/O. The audio clock argument of `setTargetAtTime` is dropped: a request records only the targets and the time constant.
- Audio.Mixer.StoreChanged: it assumes the audio context and the layer gain nodes exist, as they do once mounted. The per-node null checks are not modelled.
- Shader strings, `extend` registration, instanced placement in Flora, Clouds, Glacier, Grass, Aurora and the placeholder terrain, and the vertex displacement in `app/src/utils/geometry.ts` (driven by an external noise library) are not part of this model.
- Listener plumbing is not modelled: `addEventListener`/`removeEventListener`, `preventDefault` and the canvas-target check. These are DOM I/O.
- React rendering, CSS classes, the quote text layout and three.js objects are not modelled beyond the fields the core writes. The camera is its y and z position and a look-at point. Its x, which Scene.tsx never writes, is not modelled. Colour channels and `Color.lerp` arithmetic are not modelled: a lerp is recorded as `Blend`.
- Randomness is not modelled. The random x and z of a recycled particle are parameters (`freshX`, `freshZ`), one pair per particle. The source draws them only for recycled particles, in loop order; that order is not modelled. The random initial particle, star and noise positions are parameters or left out.
- The null-ref early returns of the sky, stars and particle frame callbacks (before their objects mount) are not modelled: frames are modelled after mount.
- IEEE floats and the `Float32Array` rounding of stored positions are not modelled: the model uses exact reals. The only rounding modelled is `Math.round`.
- The end-to-end test app/e2e/journey.spec.ts:41 expects a `summit-ui` element. UI.tsx does not render one, so it is not modelled.
- The overlay's timers fire in `Advance` in one step. Timers due in the same interval act on disjoint fields, so the order in which they fire does not matter.
- React re-render scheduling is collapsed: a store update and the re-render it causes happen at the same clock instant in `StoreChanged`.
