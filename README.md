# Scroll-driven 3D GPU section, modelled in Dafny

The site's 3D GPU section turns one smoothed scroll-progress value into three
things that run independently:

- **the trailing camera** (`ScrollRotateCamera`). It keeps a high-water mark of
  the progress, which resets only near the top. It maps the mark through a
  five-branch waypoint table: start → mid, hold at mid, mid → end,
  end → close-up, then hold at the close-up. It then moves the camera a tenth of
  the way towards that point on each frame.
- **the GPU model** (`GPUModel`). It stretches the progress by 1.1, clamps it to
  [0, 1] and applies a cubic ease-in-out. It scrubs the animation clip to
  `eased × duration`. It slides the model in depth towards a two-phase target,
  again a tenth of the way per frame. The mesh scale follows a 768-pixel
  breakpoint.
- **the section wrapper** (`CanvasWrapper`). It recomputes the "reveal side
  text" and "show logo" flags on every progress change. It also remembers,
  once and for all, that the model has loaded.

All arithmetic is over Dafny's exact `real`. Every constant of the source
(0.01, 0.25, 0.5, 0.9, 1.1, 0.1, 1.15, 0.95) is an exact rational, so the
properties hold exactly rather than up to rounding.

Files: `three_math.dfy` (module `ThreeMath`: the three.js lerp, clamp and
vector lerp), `scroll_rotate_camera.dfy`, `gpu_model.dfy` and
`canvas_wrapper.dfy`. There is one module per source component.

Per-frame and per-event callbacks are methods of classes whose fields are the
component's refs and state:

- `Camera`: `maxScrollReached`, `currentCameraPosition`,
  `calculatedTargetPos`, `position`, `lookAt`.
- `Model`: `progressRef`, `animatedTime`, `action`, `mixer`, `actionTime`,
  `outerGroup`, `outerZ`, `isMobile`.
- `Wrapper`: `modelLoaded`, `shouldReveal`, `showLogo`.

Each method's postcondition ties the new state to pure functions: `NextMark`,
`Target`, `Follow`, `ClipTime`, `TargetZ`, `FollowZ`, `Reveal`, `ShowLogo`.
The properties are proved about those functions as lemmas.

Three behaviours of the code are worth stating plainly:

- The frame callback of the GPU model guards its whole body on the action,
  the mixer and the outer group (src/components/GPU/GPUModel.tsx:101). With
  no animation clip there is no action, so the depth does not move either.
  `Model.Frame` and `NoClipsNoMotion` state this.
- The reveal and logo flags are recomputed on every progress change
  (src/components/GPU/CanvasWrapper.tsx:59-73). They clear again when the
  progress drops (`OnlyLastChangeCounts`, `LoadThenChanges`).
- The reveal threshold that takes effect is progress ≥ 19/23, because the
  listener that writes last tests `latest * 1.15 >= 0.95` (`Thresholds`).
  The first listener and the section's class toggle
  (src/components/GPU/GPUSection.tsx:21) test `>= 0.95`.

**Listener-order assumption.** The wrapper registers two change listeners. Both
write `shouldReveal`: the first with `latest >= 0.95`, the second with
`latest * 1.15 >= 0.95` (src/components/GPU/CanvasWrapper.tsx:59-73). The
model assumes they run in registration order. The second is therefore the
final writer, and that is the value the rendered view sees.

## Model

| member | source | states |
|---|---|---|
| `ThreeMath.Lerp` | src/components/GPU/GPUModel.tsx:120-132 | `MathUtils.lerp` returns its first end at t = 0 and its second at t = 1 |
| `ThreeMath.LerpOffset` | src/components/GPU/GPUModel.tsx:128-132 | lerp moves x the fraction t of the way to y: the result minus x is t·(y − x), and minus y is (1 − t)·(x − y) |
| `ThreeMath.LerpWithin` | src/components/GPU/GPUModel.tsx:120-124 | for t in [0, 1] lerp stays between its two ends |
| `ThreeMath.Clamp` | src/components/GPU/GPUModel.tsx:107 | `MathUtils.clamp` lands in [lo, hi], is the identity inside it and saturates at either end |
| `ThreeMath.ClampMonotone` | src/components/GPU/GPUModel.tsx:123 | clamping preserves order |
| `ThreeMath.LerpShrinksGap` | src/components/GPU/GPUModel.tsx:128-132 | one lerp step of fraction t shrinks the distance to the target by the factor 1 − t |
| `ThreeMath.LerpStepsOffset` | src/components/GPU/ScrollRotateCamera.tsx:55 | after n steps the signed offset from a fixed target is (1 − t)^n times the original |
| `ThreeMath.LerpStepsGap` | src/components/GPU/ScrollRotateCamera.tsx:55 | after n steps the distance to a fixed target is (1 − t)^n times the original |
| `ThreeMath.PowNineTenthsBound` | src/components/GPU/ScrollRotateCamera.tsx:55 | 0.9^n · (9 + n) ≤ 9, so the per-frame contraction goes to zero |
| `ThreeMath.LerpVec` | src/components/GPU/ScrollRotateCamera.tsx:40-55 | `Vector3.lerpVectors`/`lerp` (a + (b − a)·t per axis) agrees on each axis with `MathUtils.lerp` |
| `ThreeMath.LerpVecStepsComponents` | src/components/GPU/ScrollRotateCamera.tsx:55 | repeating the vector lerp is repeating the scalar lerp on each axis |
| `ScrollRotateCamera.Target` | src/components/GPU/ScrollRotateCamera.tsx:38-53 | definition of the five-branch waypoint table, with its legs `Rise`, `Approach` and `Zoom`; properties in `TargetJoins`, `TargetWithinLeg` and `TargetLipschitz` |
| `ScrollRotateCamera.Follow` | src/components/GPU/ScrollRotateCamera.tsx:55 | definition of the per-frame camera move; properties in `FollowStepsGap` and `FollowConverges` |
| `ScrollRotateCamera.NextMark` | src/components/GPU/ScrollRotateCamera.tsx:30-34 | progress under 0.01 sets the mark to exactly that progress; otherwise the new mark is at least the old mark and the progress, and is one of them |
| `ScrollRotateCamera.NextMarkIdempotent` | src/components/GPU/ScrollRotateCamera.tsx:30-34 | reading the same progress twice leaves the mark, and so the target, unchanged |
| `ScrollRotateCamera.MarksSnoc` | src/components/GPU/ScrollRotateCamera.tsx:30-34 | one more frame extends the run of marks by the `NextMark` of the last mark |
| `ScrollRotateCamera.MarksScrollBackExample` | src/components/GPU/ScrollRotateCamera.tsx:30-34 | progress 0, 0.5, 0.05 gives marks 0, 0.5, 0.5: scrolling back up short of the top does not rewind |
| `ScrollRotateCamera.MarksCoverScroll` | src/components/GPU/ScrollRotateCamera.tsx:30-34 | after every frame of a run the mark is at least the progress that frame read |
| `ScrollRotateCamera.MarksRatchet` | src/components/GPU/ScrollRotateCamera.tsx:33 | while no frame reads progress under 0.01 the marks never decrease and never fall below the starting mark |
| `ScrollRotateCamera.MarksDropOnlyAtTop` | src/components/GPU/ScrollRotateCamera.tsx:30-31 | the mark goes down only on a frame reading progress under 0.01, and then equals that progress |
| `ScrollRotateCamera.TargetJoins` | src/components/GPU/ScrollRotateCamera.tsx:17-53 | at 0.25, 0.5, 0.9 and 1.1 the leg below ends exactly where the branch above starts; at 0 the target is start |
| `ScrollRotateCamera.TargetWithinLeg` | src/components/GPU/ScrollRotateCamera.tsx:38-53 | for progress ≥ 0 the target is in the box of its leg's two waypoints: it is exactly mid on [0.25, 0.5) and exactly the close-up from 1.1 on |
| `ScrollRotateCamera.TargetLipschitz` | src/components/GPU/ScrollRotateCamera.tsx:38-53 | on each axis the target moves at most 24 times as far as the mark, so it is continuous everywhere, the branch points included |
| `ScrollRotateCamera.FollowAxisGap` | src/components/GPU/ScrollRotateCamera.tsx:55 | on one axis, n frames on a fixed target leave 0.9^n of the starting distance |
| `ScrollRotateCamera.FollowStepsGap` | src/components/GPU/ScrollRotateCamera.tsx:55 | the same on all three axes of the camera position |
| `ScrollRotateCamera.FollowConverges` | src/components/GPU/ScrollRotateCamera.tsx:55 | on a fixed target the camera is within eps on an axis after n ≥ 9·d/eps frames, where d is the starting distance |
| `ScrollRotateCamera.JumpToHoldFirstFrame` | src/components/GPU/ScrollRotateCamera.tsx:38-55 | a jump from 0 to 0.3 targets mid, and the first frame moves the camera only 10% of the way from start to mid |
| `ScrollRotateCamera.Camera.constructor` | src/components/GPU/ScrollRotateCamera.tsx:14-15 | initially the mark is 0 and the filtered position is start (6, 6, 6) |
| `ScrollRotateCamera.Camera.Frame` | src/components/GPU/ScrollRotateCamera.tsx:26-58 | a frame sets the mark to `NextMark`, the scratch target to `Target(mark)` and the filtered position to a tenth of the way towards it; the engine camera takes that position and aims at (1, 1.9, 1.5) |
| `ScrollRotateCamera.RunFrames` | src/components/GPU/ScrollRotateCamera.tsx:26-53 | calling `Camera.Frame` over any run of progress values from a fresh camera goes through the marks `Marks(0, run)`, each at least its frame's progress, and leaves the frame's target (`calculatedTargetPos`) at the waypoint of the last mark |
| `ScrollRotateCamera.FirstFrameAtTop` | src/components/GPU/ScrollRotateCamera.tsx:38-40 | a frame at progress 0 on a fresh camera leaves the mark at 0 and the camera at start |
| `GPUModel.Eased` | src/components/GPU/GPUModel.tsx:108 | definition of the cubic ease-in-out; properties in `EasedFixedPoints`, `EasedMonotone` and `EasedUnit` |
| `GPUModel.CubeMonotone` | src/components/GPU/GPUModel.tsx:108 | x³ is non-decreasing on all reals |
| `GPUModel.EasedFixedPoints` | src/components/GPU/GPUModel.tsx:108 | the ease gives 0 at 0 and 1 at 1, and both of its branches give 0.5 at 0.5 |
| `GPUModel.EasedMonotone` | src/components/GPU/GPUModel.tsx:108 | the cubic ease-in-out never decreases |
| `GPUModel.EasedUnit` | src/components/GPU/GPUModel.tsx:108 | the ease maps [0, 1] into [0, 1] |
| `GPUModel.AnimT` | src/components/GPU/GPUModel.tsx:102-107 | the normalised animation progress is in [0, 1] |
| `GPUModel.EasedAt` | src/components/GPU/GPUModel.tsx:106-108 | the eased progress is in [0, 1] for every input |
| `GPUModel.EasedAtMonotone` | src/components/GPU/GPUModel.tsx:106-108 | the eased progress is non-decreasing in the stretched progress |
| `GPUModel.ClipTime` | src/components/GPU/GPUModel.tsx:99-111 | definition of the clip time a frame scrubs to; properties in `ClipTimeBounds` and `ClipTimeMonotone` |
| `GPUModel.ClipTimeBounds` | src/components/GPU/GPUModel.tsx:99-111 | the clip time is in [0, duration], and it equals duration once progress ≥ 10/11 (stretched progress ≥ 1) |
| `GPUModel.ClipTimeMonotone` | src/components/GPU/GPUModel.tsx:99-111 | more progress never rewinds the clip |
| `GPUModel.ClipTimeHeldExample` | src/components/GPU/GPUModel.tsx:106-111 | at stretched progress 1.05 a 2-second clip is held at 2 seconds |
| `GPUModel.BaseZ` | src/components/GPU/GPUModel.tsx:120 | definition of the first depth phase; properties in `TargetZRange` and `TargetZJoin` |
| `GPUModel.ExtendedZ` | src/components/GPU/GPUModel.tsx:123-124 | definition of the second depth phase; properties in `TargetZRange` and `TargetZJoin` |
| `GPUModel.TargetZ` | src/components/GPU/GPUModel.tsx:120-126 | definition of the depth target; properties in `TargetZRange`, `TargetZMonotone` and `TargetZContinuousAtJoin` |
| `GPUModel.TargetZRange` | src/components/GPU/GPUModel.tsx:120-126 | the depth target is in [−1, 1] up to stretched progress 1, in [1, 4] above it, 4 from 1.1 on, and in [−1, 4] always |
| `GPUModel.TargetZJoin` | src/components/GPU/GPUModel.tsx:120-126 | at stretched progress 1 both phases give depth 1 |
| `GPUModel.TargetZAtTop` | src/components/GPU/GPUModel.tsx:120-138 | at progress 0 the depth target is −1, the depth the model is mounted at |
| `GPUModel.TargetZMonotone` | src/components/GPU/GPUModel.tsx:120-126 | the depth target never decreases as progress grows |
| `GPUModel.TargetZContinuousAtJoin` | src/components/GPU/GPUModel.tsx:120-126 | at every stretched progress the depth target stays within 30 times (distance of the progress from 1) of 1, so the phase join has no jump |
| `GPUModel.FollowZ` | src/components/GPU/GPUModel.tsx:128-132 | definition of the per-frame depth move; property in `FollowZGap` |
| `GPUModel.FollowZGap` | src/components/GPU/GPUModel.tsx:128-132 | each frame shrinks the distance to the depth target by the factor 0.9 |
| `GPUModel.MeshScaleMonotone` | src/components/GPU/GPUModel.tsx:140 | a wider viewport never gets a smaller model |
| `GPUModel.Model.Ready` | src/components/GPU/GPUModel.tsx:101 | the frame's guard; while the action and the mixer exist together, the mixer test adds nothing to the action test |
| `GPUModel.Model.constructor` | src/components/GPU/GPUModel.tsx:57-60 | initially progress, animated time and clip time are 0, and there is no action, no mixer and no mounted group |
| `GPUModel.Model.MountOuterGroup` | src/components/GPU/GPUModel.tsx:138 | the outer group mounts at depth −1 and nothing else changes |
| `GPUModel.Model.SetUpAnimation` | src/components/GPU/GPUModel.tsx:63-79 | with clips, the first clip gets an action and a mixer, paused at time 0; with none, nothing is set up |
| `GPUModel.Model.OnProgressChange` | src/components/GPU/GPUModel.tsx:92-94 | the progress ref holds the latest value and nothing else changes |
| `GPUModel.Model.OnResize` | src/components/GPU/GPUModel.tsx:47-50 | `isMobile` becomes width ≤ 768, matching `MeshScale` |
| `GPUModel.Model.Frame` | src/components/GPU/GPUModel.tsx:97-134 | with action, mixer and group present, the frame scrubs the clip to `ClipTime` and moves the depth a tenth of the way to `TargetZ`; otherwise it changes nothing |
| `GPUModel.NoClipsNoMotion` | src/components/GPU/GPUModel.tsx:101 | with no clips, frames leave clip time 0 and depth −1 at any progress |
| `CanvasWrapper.PlainReveal` | src/components/GPU/CanvasWrapper.tsx:60 | definition of the first listener's reveal test; properties in `ListenersDisagree` and `FlagsMonotone` |
| `CanvasWrapper.Reveal` | src/components/GPU/CanvasWrapper.tsx:66-69 | definition of the second listener's reveal test; properties in `Thresholds`, `FlagsMonotone` and `LogoImpliesReveal` |
| `CanvasWrapper.ShowLogo` | src/components/GPU/CanvasWrapper.tsx:66-72 | definition of the logo test; properties in `Thresholds`, `FlagsMonotone` and `LogoImpliesReveal` |
| `CanvasWrapper.Thresholds` | src/components/GPU/CanvasWrapper.tsx:65-73 | reveal holds exactly when progress ≥ 19/23 and the logo exactly when progress ≥ 22/23 |
| `CanvasWrapper.LogoImpliesReveal` | src/components/GPU/CanvasWrapper.tsx:69-72 | whenever the logo flag holds, the reveal flag holds |
| `CanvasWrapper.FlagsMonotone` | src/components/GPU/CanvasWrapper.tsx:59-73 | more progress never turns a flag off |
| `CanvasWrapper.ListenersDisagree` | src/components/GPU/CanvasWrapper.tsx:59-70 | the two listeners disagree on reveal exactly for progress in [19/23, 0.95), where only the second reveals |
| `CanvasWrapper.OnlyLastChangeCounts` | src/components/GPU/CanvasWrapper.tsx:65-73 | after any non-empty run of changes the flags are those of the last value: nothing latches |
| `CanvasWrapper.Wrapper.constructor` | src/components/GPU/CanvasWrapper.tsx:44-63 | initially the model is not loaded, and neither reveal nor logo is set |
| `CanvasWrapper.Wrapper.RevealListener` | src/components/GPU/CanvasWrapper.tsx:59-61 | the first listener sets reveal to progress ≥ 0.95 |
| `CanvasWrapper.Wrapper.StretchedListener` | src/components/GPU/CanvasWrapper.tsx:65-73 | the second listener sets reveal to 1.15·progress ≥ 0.95 and logo to 1.15·progress ≥ 1.1 |
| `CanvasWrapper.Wrapper.OnChange` | src/components/GPU/CanvasWrapper.tsx:59-73 | after both listeners the flags are those of the second listener, the logo never shows without reveal, and the loaded flag is untouched |
| `CanvasWrapper.Wrapper.OnModelLoad` | src/components/GPU/CanvasWrapper.tsx:97 | loading sets the loaded flag and leaves both scroll flags as they were |
| `CanvasWrapper.Wrapper.LogoRendered` | src/components/GPU/CanvasWrapper.tsx:200 | the logo is rendered only while the side text is visible |
| `CanvasWrapper.LoadThenChanges` | src/components/GPU/CanvasWrapper.tsx:59-107 | calling `OnChange` over any run of progress values after the load keeps the flags equal to `AfterChanges` of the run; the status text stays gone, the side text shows exactly when the last value is at least 19/23, and the logo exactly when it is at least 22/23, never without the side text |
| `CanvasWrapper.LoadThenScroll` | src/components/GPU/CanvasWrapper.tsx:77-107 | example, the two-change case of `LoadThenChanges`: after the load, later changes never bring the status text back; dropping below the threshold hides the side text again; the logo never appears alone |

## Left out

- The scroll measurement and the spring smoothing (stiffness 100, damping 20) belong to the animation library. Progress is an arbitrary real input.
- Three.js internals are not modelled: the animation mixer, `clipAction`, `setLoop`, `mixer.update(0)`, the view matrix behind `camera.lookAt`, and GLTF loading. The model records only the values written into them: the clip time, the camera position and the aim point.
- The orbit controls' own per-frame update is not modelled. `lookAt` is the last point the camera controller aimed at.
- The mixer set-up effect's `scene` test is not modelled: the loader hands over a scene whenever it hands over clips.
- Clip durations are plain reals. The clip-time bounds assume a duration ≥ 0.
- React lifecycle is not modelled: mounting and unmounting, listener cleanup, re-render scheduling and batching, and console logging. The order of the two change listeners is the stated assumption above.
- The order in which the camera controller, the GPU model and the orbit controls run their per-frame callbacks, and how those interleave with the wrapper's change listeners, is not modelled. The camera controller and the GPU model both read the progress and neither writes it. The orbit controls never read the progress, but they share the engine camera with the camera controller, and both write it on every frame: the controls re-aim it at their own target, while the controller copies its filtered position into it and aims it at (1, 1.9, 1.5) (src/components/GPU/ScrollRotateCamera.tsx:56-57). The model assumes the controller writes after the controls, so `Camera.Frame`'s `lookAt` is the aim that gets rendered.
- IEEE double rounding is not modelled. All arithmetic is exact.
- For negative progress the camera's first leg extrapolates beyond start. The model computes that value as written but proves the no-overshoot property only for progress ≥ 0.
- The page shell, routing, static pages, styling, the hero section's keyframe tables, and the section wrapper's single `v >= 0.95` class toggle are not part of this model.
