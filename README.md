# Camera shake and projectile trails, modelled in Dafny

This project models two parts of the BlackTundra.World Unity library.

**Camera-shake sources** (`Runtime/CameraSystem/CameraShakeSource.cs`). Each source is a small
state machine with these fields:

- `phase`, `loopOffset`, `playing`, `loop`, `changed`;
- the cached `shake` vector.

Its construction checks the times `fadeInTime ≤ fadeOutTime ≤ lifetime`. After that they never change.

Playing, pausing and stopping move the source in and out of a shared buffer of playing sources.
Each engine tick advances every buffered source and stops the finished ones. The camera
samples the buffer: each source contributes in three steps.

1. An envelope: fade-in ramp, sustain, fade-out ramp.
2. The envelope times a noise vector.
3. The result divided by the squared distance, floored at one.

The registry returns the sum of these contributions.

**Projectile instances** (`Runtime/Physics/Ballistics/ProjectileInstance.cs`). A projectile
draws a fixed-length trail. After each physics step, the next rendered frame shifts the trail's
points one slot towards the front and writes the projectile's position into the last slot. An
instance also follows a hand-off protocol between object pools: which pool owns it, and whether it is enabled.

The model has these modules:

- `Vectors`: `Vec3` over reals and the vector sum.
- `Results`: `Option`, `Outcome` and `Result`, used for thrown exceptions.
- `Sequences`: distinctness and removal of an element, for the buffer.
- `ShakeModel`: a source's state as a value, and every transition as a function.
- `ShakeProperties`: lemmas about those transitions.
- `CameraSystem`: the classes `CameraShakeSource` and `SourceBuffer`. Their methods update
  fields in place, and each is proved against its transition function: Play against `Played`, Pause against
  `Paused`, Stop against `Stopped`, InternalUpdate against `Advanced`, SetLoop against `WithLoop`
  and InternalSample against `Sampled`.
- `Ballistics`: the trail as a value, and the classes `ProjectileInstance`, `Projectile` and `ObjectPool`.

The source's static buffer is a `SourceBuffer` object that is passed explicitly. Its invariant
has three parts:

- every buffered source belongs to the buffer's ghost set of sources;
- no source is buffered twice;
- a source is buffered exactly while it plays.

Each source's own invariant is `ShakeModel.Inv`: a validated configuration, a phase that is
never negative, and a phase that never passes the lifetime unless the source loops.

## Model

| member | source | states |
|---|---|---|
| ShakeModel.CheckArgs | Runtime/CameraSystem/CameraShakeSource.cs:381-387 | the factory refuses exactly the arguments outside the range (a negative magnitude, roughness, lifetime or fade time, fadeInTime > fadeOutTime, or fadeOutTime > lifetime), naming the parameter of the first failing check |
| ShakeModel.DefaultArgs | Runtime/CameraSystem/CameraShakeSource.cs:345-347 | the default overload's arguments always pass the checks |
| ShakeModel.ShapedArgs | Runtime/CameraSystem/CameraShakeSource.cs:349-351 | the magnitude/roughness overload is accepted iff both are non-negative |
| ShakeModel.LifetimeArgs | Runtime/CameraSystem/CameraShakeSource.cs:353-355 | the lifetime overload is accepted iff magnitude, roughness and lifetime are non-negative |
| ShakeModel.FadeTimeArgs | Runtime/CameraSystem/CameraShakeSource.cs:357-359 | the single-fade-time overload is accepted iff 0 ≤ fadeTime and 2·fadeTime ≤ lifetime (the fades may not overlap) |
| ShakeModel.FadeSpanArgs | Runtime/CameraSystem/CameraShakeSource.cs:361-367 | the fade-span overloads are accepted iff the spans are non-negative and fit in the lifetime together |
| ShakeModel.Initial | Runtime/CameraSystem/CameraShakeSource.cs:188-214 | a new source keeps the invariant, has phase and loop offset zero, a zero cached shake, and is complete only when it does not loop and its lifetime is zero |
| ShakeModel.Envelope | Runtime/CameraSystem/CameraShakeSource.cs:279-281 | under the invariant no branch divides by zero and the envelope lies in [0, magnitude] |
| ShakeModel.IsComplete | Runtime/CameraSystem/CameraShakeSource.cs:181 | complete iff not looping and phase ≥ lifetime; a looping shake is never complete, and under the invariant complete means exactly at the lifetime (so a shake that reaches its lifetime on a tick is complete while it still plays) |
| ShakeModel.AttenuateShrinks | Runtime/CameraSystem/CameraShakeSource.cs:289 | the distance falloff never enlarges a component or flips its sign, and leaves the shake as it is within distance one |
| ShakeProperties.TransitionsKeepInv | Runtime/CameraSystem/CameraShakeSource.cs:241-246 | play, pause, stop and a non-negative tick keep the invariant; after a tick a non-looping phase is at most the lifetime |
| ShakeProperties.LoopSetterKeepsInv | Runtime/CameraSystem/CameraShakeSource.cs:147-162 | the loop setter as written keeps the invariant wherever its division is defined |
| ShakeProperties.IdleIgnoresTicks | Runtime/CameraSystem/CameraShakeSource.cs:242 | any number of ticks leave a source that is not playing unchanged |
| ShakeProperties.AccumulatedTime | Runtime/CameraSystem/CameraShakeSource.cs:241-246 | after non-negative ticks a non-looping shake's phase is the elapsed time capped at the lifetime; it keeps playing iff that time has not passed the lifetime; it is complete iff that time has reached it |
| ShakeProperties.TransitionsIdempotent | Runtime/CameraSystem/CameraShakeSource.cs:300-339 | play, pause and stop each reach their target playing state in one call, and a repeat changes nothing |
| ShakeProperties.PauseThenPlayResumes | Runtime/CameraSystem/CameraShakeSource.cs:300-319 | pausing, then playing, an incomplete shake gives back exactly the state it had |
| ShakeProperties.StopThenPlayRestarts | Runtime/CameraSystem/CameraShakeSource.cs:304 | a stopped non-looping shake is complete, and playing it restarts from phase zero |
| ShakeProperties.EnvelopeEdges | Runtime/CameraSystem/CameraShakeSource.cs:279-281 | the envelope is zero at the start of a fade-in, the full magnitude between the fades (and throughout a loop's sustain), and zero at the end of a fade-out |
| ShakeProperties.EnvelopeRises | Runtime/CameraSystem/CameraShakeSource.cs:280 | the envelope never decreases over the fade-in |
| ShakeProperties.EnvelopeFalls | Runtime/CameraSystem/CameraShakeSource.cs:281 | the envelope never increases over the fade-out of a non-looping shake |
| ShakeProperties.DefaultShakeScenario | Runtime/CameraSystem/CameraShakeSource.cs:345-347 | the default one-second shake is at 0.4 of its magnitude at 0.1 s and at 0.9 s. It still plays at 0.9 s, and is stopped and complete at 1.1 s |
| ShakeProperties.LoopDisableSeamless | Runtime/CameraSystem/CameraShakeSource.cs:157-161 | disabling the loop clamps the phase to the fade-out start and keeps the noise argument and the envelope unchanged |
| ShakeProperties.LoopEnableAsWritten | Runtime/CameraSystem/CameraShakeSource.cs:149-156 | enabling the loop as written: from the fade-out start on, the phase restarts at zero with the offset kept; in the remap window the noise argument moves by twice the phase's jump |
| ShakeProperties.WrittenRemapJumps | Runtime/CameraSystem/CameraShakeSource.cs:152-155 | with the written remap, enabling the loop 0.1 s into the default shake moves the phase to 0.9 and the noise argument from 0.1 to 1.7 |
| ShakeProperties.WrittenGuardsRestart | Runtime/CameraSystem/CameraShakeSource.cs:150-152 | with the written guards, enabling the loop 0.9 s into the default shake restarts it, dropping the envelope from 0.4 to 0; switching a loop off and on moves its noise argument |
| ShakeProperties.IntendedLoopKeepsInv | Runtime/CameraSystem/CameraShakeSource.cs:147-162 | the corrected loop setter keeps the invariant everywhere |
| ShakeProperties.IntendedLoopEnableSeamless | Runtime/CameraSystem/CameraShakeSource.cs:149-156 | enabling the loop with the corrected setter keeps the noise argument on any unfinished shake, and keeps the envelope when there is a fade-in |
| ShakeProperties.RemapKeepsEnvelope | Runtime/CameraSystem/CameraShakeSource.cs:154 | the corrected remap lands on the point of the fade-in with the same envelope as the fade-out point it left |
| ShakeProperties.IntendedLoopRoundTrip | Runtime/CameraSystem/CameraShakeSource.cs:147-162 | with the corrected setter, turning a loop off and on again keeps its noise argument and its envelope, whenever the fade-out is non-empty or the phase is below the lifetime |
| ShakeProperties.IntendedRoundTripRestarts | Runtime/CameraSystem/CameraShakeSource.cs:147-162 | the remaining case: with an empty fade-out (lifetime 1, fade-out start 1) a looping shake at phase 1.5 switched off and on is clamped to the lifetime and restarted; its noise argument goes from 1.5 to 0.5 and its envelope from 1 to 0 |
| ShakeProperties.RawShakeBounded | Runtime/CameraSystem/CameraShakeSource.cs:279-287 | with noise in [0, 1], each axis of a source's shake is at most half the magnitude times that axis's scale |
| ShakeProperties.TotalShakeSplit | Runtime/CameraSystem/CameraShakeSource.cs:266-275 | the registry's sum over two groups of sources is the sum of the groups' sums |
| ShakeProperties.TotalShakeOrderFree | Runtime/CameraSystem/CameraShakeSource.cs:266-275 | the registry's sum is the same for any order of the same sources |
| ShakeProperties.TotalShakeRemoveAt | Runtime/CameraSystem/CameraShakeSource.cs:266-275 | the sum is any one source's contribution plus the sum over the others |
| ShakeProperties.TotalShakeSuffix | Runtime/CameraSystem/CameraShakeSource.cs:270-272 | adding the contribution at index i to the sum of the sources after it gives the sum from i on, as the backward loop accumulates |
| CameraSystem.CameraShakeSource.constructor | Runtime/CameraSystem/CameraShakeSource.cs:188-214 | the new source's state is the initial state for its arguments |
| CameraSystem.CameraShakeSource.IsComplete | Runtime/CameraSystem/CameraShakeSource.cs:181 | the class query agrees with the state's: for a valid source, complete iff not looping and the phase is exactly the lifetime |
| CameraSystem.SourceBuffer.PlayingIffBuffered | Runtime/CameraSystem/CameraShakeSource.cs:174 | the `IsPlaying` query of a known source holds exactly while the buffer holds the source |
| CameraSystem.CameraShakeSource.SetMagnitude | Runtime/CameraSystem/CameraShakeSource.cs:111-114 | a negative magnitude is refused with the magnitude named and nothing changes; any other value is stored as given |
| CameraSystem.CameraShakeSource.SetRoughness | Runtime/CameraSystem/CameraShakeSource.cs:131-134 | a negative roughness is refused with the roughness named and nothing changes; any other value is stored as given |
| CameraSystem.CameraShakeSource.SetLoop | Runtime/CameraSystem/CameraShakeSource.cs:147-162 | the fields change exactly as the written loop setter says, and the invariant is kept |
| CameraSystem.CameraShakeSource.Play | Runtime/CameraSystem/CameraShakeSource.cs:300-306 | a playing source is left as it is; otherwise it is appended to the buffer, restarted if complete, and set playing; the buffer's invariant holds |
| CameraSystem.CameraShakeSource.Pause | Runtime/CameraSystem/CameraShakeSource.cs:315-319 | a playing source leaves the buffer and stops playing with its phase kept; the buffer's invariant holds |
| CameraSystem.CameraShakeSource.Stop | Runtime/CameraSystem/CameraShakeSource.cs:331-339 | the phase always becomes the lifetime; a playing source also leaves the buffer, drops its cached shake and clears its changed flag; the buffer's invariant is restored |
| CameraSystem.CameraShakeSource.InternalUpdate | Runtime/CameraSystem/CameraShakeSource.cs:241-246 | a playing source advances by the tick and leaves the buffer exactly when a non-looping shake overruns; other sources are untouched |
| CameraSystem.CameraShakeSource.InternalSample | Runtime/CameraSystem/CameraShakeSource.cs:277-290 | the cached shake is refreshed iff the changed flag is set, and the result is that shake attenuated by distance |
| CameraSystem.CameraShakeSource.Dispose | Runtime/CameraSystem/CameraShakeSource.cs:220-222 | a disposed source leaves the buffer and the buffer's set of sources; the invariant holds |
| CameraSystem.SourceBuffer.constructor | Runtime/CameraSystem/CameraShakeSource.cs:27 | the buffer starts empty and valid |
| CameraSystem.SourceBuffer.AddLast | Runtime/CameraSystem/CameraShakeSource.cs:303 | the source is appended at the end |
| CameraSystem.SourceBuffer.Remove | Runtime/CameraSystem/CameraShakeSource.cs:334 | every occurrence goes, the rest keep their order; on a distinct buffer the count removed is one if the source was there and zero otherwise |
| CameraSystem.SourceBuffer.HasSample | Runtime/CameraSystem/CameraShakeSource.cs:255 | a sample is worth taking iff the buffer is not empty, that is iff some source of the buffer is playing |
| CameraSystem.SourceBuffer.Update | Runtime/CameraSystem/CameraShakeSource.cs:230-235 | every source buffered at the start of the tick has advanced by exactly one tick, and the buffer stays valid |
| CameraSystem.SourceBuffer.Sample | Runtime/CameraSystem/CameraShakeSource.cs:266-275 | the result is the sum of every buffered source's contribution (zero for an empty buffer), and each source's cache is refreshed |
| CameraSystem.CreateAt | Runtime/CameraSystem/CameraShakeSource.cs:369-405 | invalid arguments throw, naming the first failing check, and leave the buffer unchanged; otherwise a fresh source in its initial state is added to the buffer iff it plays |
| Ballistics.FrameShifts | Runtime/Physics/Ballistics/ProjectileInstance.cs:66-77 | a frame after a physics step moves every point one slot towards the front, writes the newest position last, keeps the count and clears the flag |
| Ballistics.StepsCollapse | Runtime/Physics/Ballistics/ProjectileInstance.cs:83-88 | any positive number of physics steps leaves the same trail state as one |
| Ballistics.StepsThenOneShift | Runtime/Physics/Ballistics/ProjectileInstance.cs:66-88 | any positive number of physics steps between two frames produces exactly one shift |
| Ballistics.TrailIsRecentHistory | Runtime/Physics/Ballistics/ProjectileInstance.cs:72-73 | after a run of shifting frames the trail is the last N entries of the old points followed by the new positions |
| Ballistics.TrailForgetsStart | Runtime/Physics/Ballistics/ProjectileInstance.cs:72-73 | once at least N frames have shifted the trail, it holds only the last N positions |
| Ballistics.ProjectileInstance.constructor | Runtime/Physics/Ballistics/ProjectileInstance.cs:30-39 | a new instance belongs to no pool and has no shift pending; whether it starts enabled is the engine's choice, passed in |
| Ballistics.ProjectileInstance.Update | Runtime/Physics/Ballistics/ProjectileInstance.cs:66-77 | the renderer's points and the flag become the frame's result: no change without a pending step; an index-out-of-range failure on an empty trail; otherwise the in-place shift |
| Ballistics.ProjectileInstance.FixedUpdate | Runtime/Physics/Ballistics/ProjectileInstance.cs:83-88 | the projectile takes its simulated state and the trail is marked for one shift |
| Ballistics.ProjectileInstance.ResetLineRenderer | Runtime/Physics/Ballistics/ProjectileInstance.cs:94-100 | every point becomes the projectile's position, the count is kept and the flag is cleared |
| Ballistics.ProjectileInstance.IsAvailable | Runtime/Physics/Ballistics/ProjectileInstance.cs:129-132 | a null pool throws; otherwise available iff no pool owns the instance and its projectile is spent |
| Ballistics.ProjectileInstance.OnPoolUse | Runtime/Physics/Ballistics/ProjectileInstance.cs:149-156 | a null pool throws and nothing changes. An instance owned by another pool is first returned to that pool, and only then. Afterwards the new pool owns it, it is enabled and it is not available |
| Ballistics.ProjectileInstance.OnPoolRelease | Runtime/Physics/Ballistics/ProjectileInstance.cs:162-168 | a null pool throws. Only the owning pool's release frees and disables the instance, which is then available iff its projectile is spent. A release from any other pool changes nothing |
| Ballistics.ProjectileInstance.OnPoolDispose | Runtime/Physics/Ballistics/ProjectileInstance.cs:138-143 | a null pool throws; otherwise the instance is disabled and owned by no pool, whoever owned it |

## Left out

- Noise (`Mathf.PerlinNoise`) is an uninterpreted function passed as a parameter. The random seed the public overloads draw is a parameter of the arguments (`CreateArgs.seed`).
- Floating-point rounding: every quantity is a real.
- PackedBuffer's capacity, with its growth and shrinking in steps of 16, is not part of this model. The buffer is a sequence of identities, and removal keeps the order of the rest.
- CameraSystem.SourceBuffer.Update: states what each source becomes, but not the buffer's final order, because PackedBuffer's removal order is not part of this model.
- CameraSystem.SourceBuffer.Update: requires a non-negative tick. The engine's delta time is never negative, and the phase ≥ 0 invariant rests on it.
- CameraSystem.CameraShakeSource.Dispose: the finaliser runs when the garbage collector decides. Here it is an explicit call, and the buffer's `TryShrink` is left out with the capacity.
- CameraSystem.CameraShakeSource.SetLoop: requires that the remap's divisor (fadeOutTime − lifetime) be non-zero whenever the remap branch runs. Without that, the code divides by zero in single-precision floats, which does not throw: the phase becomes −∞ (NaN when fadeInTime is 0), the loop offset follows, and every later sample is not a finite number. The single-fade-time overload with fadeTime 0 (CameraShakeSource.cs:358) builds such a source, and enabling its loop at any phase strictly between 0 and the lifetime reaches the division.
- The `[CoreUpdate]` scheduling of `Update` is left out. The engine is modelled as calling it.
- Ballistics.ProjectileInstance.FixedUpdate: requires a projectile. Without one the source throws a null reference at the simulation call, before it sets the flag.
- Ballistics.ProjectileInstance.Update: requires a projectile. Without one no physics step ever sets the flag (FixedUpdate throws first), so the shift that reads the projectile's position never runs; the thrown null reference is not modelled.
- Ballistics.ProjectileInstance.ResetLineRenderer: requires a projectile. Its only caller, `OnEnable`, dereferences the projectile first (ProjectileInstance.cs:58), so without one it is never reached.
- ShakeProperties.IntendedLoopRoundTrip: does not cover an empty fade-out with the phase at or past the lifetime. There the corrected setter restarts the shake, as ShakeProperties.IntendedRoundTripRestarts shows.
- `Projectile.Simulate` is not part of this model: FixedUpdate takes the resulting position and lifetime as parameters. `SetStartParameters`, `UpdateTransform` (the transform's position and rotation) and `Destroy(gameObject)` are not part of this model either.
- `OnEnable` is left out: it fetches the renderer, calls `SetStartParameters` and then ResetLineRenderer.
- Ballistics.ProjectileInstance.OnPoolUse: setting `enabled` on a disabled instance makes the engine run `OnEnable` at once, which re-seeds the projectile from the transform (ProjectileInstance.cs:58) and resets the trail (ProjectileInstance.cs:59). The model leaves the projectile, the trail and the flag unchanged, because the engine lifecycle is not part of this model.
- The LineRenderer's `GetPositions`/`SetPositions` copy is modelled as working on the renderer's position array directly.
- `ObjectPool` is not part of this model. It only records the instances returned to it.
- The `velocity` property forwards to the projectile and is left out.

## Findings

| source | as written | input that shows it | evidently intended | confidence | as-written member | corrected member |
|---|---|---|---|---|---|---|
| Runtime/CameraSystem/CameraShakeSource.cs:155 | enabling the loop in the remap branch adds `phase - lastPhase` to the loop offset, so the noise argument `phase + loopOffset` moves by twice the jump instead of staying put | default one-second shake at phase 0.1, loop set on: the phase becomes 0.9 and the noise argument goes from 0.1 to 1.7 | add `lastPhase - phase`, as the disable branch does, so the noise argument is unchanged | not executed; high | ShakeProperties.WrittenRemapJumps | ShakeProperties.IntendedLoopEnableSeamless |
| Runtime/CameraSystem/CameraShakeSource.cs:150-152 | the guards restart every shake from `fadeOutTime` on, and send phases in (fadeOutTime − lifetime, fadeOutTime) to a remap built for the fade-out | default one-second shake at phase 0.9 (fading out, envelope 0.4), loop set on: the phase restarts at 0 and the envelope drops to 0; a looping shake at 0.9 switched off and on has its noise argument moved from 0.9 to 0.15 | restart only a finished shake (`phase >= lifetime`) and remap phases in (fadeOutTime, lifetime) onto the fade-in point with the same envelope | not executed; medium | ShakeProperties.WrittenGuardsRestart | ShakeProperties.RemapKeepsEnvelope |

Both corrected branches are in `ShakeModel.WithLoopIntended`; `ShakeProperties.IntendedLoopRoundTrip`
proves that a loop switched off and on again keeps its noise argument and envelope. The class
`CameraSystem.CameraShakeSource.SetLoop` keeps the code as written (`ShakeModel.WithLoop`), and its
invariant is proved by `ShakeProperties.LoopSetterKeepsInv`.
