# Portal: the frame-parameter state machine

Portal is a full-screen 360° panoramic shader demo. Most of `main.js` is
browser and three.js plumbing. Inside it sits one small state machine, and this project
models and proves it:

- **The camera-mode section of `render()`.** While "Use Camera" is on, each
  frame calls `setupVideo()` (which asks for the camera stream), but only
  if `videoWasSetup` is still false. On the off→on edge it sets the `cameraMultiply` and `cameraAdd`
  uniforms to 1 and rebuilds the panel. While the flag is off it holds both
  at 0, and it rebuilds the panel on the on→off edge. Last, it remembers the
  flag in `prevUseCamera`. That field starts `undefined`, read here as false,
  so the first frame counts as an off→on edge.
- **The uniform diff of `render()`.** Every uniform whose value is strictly
  different (`!==`) from the value recorded on the previous frame gets
  `needsUpdate = true`. A key never recorded reads `undefined`, so it always
  counts as different. The flag is never cleared, and the current value is
  always recorded.
- **The fullscreen-change handler.** Entering fullscreen destroys the
  parameter panel (dat.GUI), leaving fullscreen rebuilds it, and no change
  does nothing.
- **The "Toggle UI Zoom" button.** It flips `uiZoomed` and rebuilds the
  panel.

`model.dfy` (module `PortalModel`) describes the page's state as a value,
`State`. Each handler is a function on it. The lemmas there relate several
calls: `setupVideo()` runs exactly once from page load, over any event
sequence;
a frame with nothing new to do is the identity; a camera rising edge is
flagged by the diff in the same frame; the camera-blend values a user sets
stick while the camera stays on; over frames, fullscreen changes and slider
moves (see below), the panel is shown exactly when the page is not in
fullscreen.

`app.dfy` (module `PortalApp`) holds the globals as fields of a class `App`.
Its methods update those fields in place, as main.js does. The diff is a
loop over the keys in any order. Each method is proved to leave the object in
the state that the matching `PortalModel` function gives.

Uniform values are numbers (`real`) or objects compared by identity. The
video texture and the `Matrix4` are objects that are only ever mutated in
place, so after the first frame the diff never finds them changed.

Nothing in main.js ever clears a `needsUpdate` flag, and the first frame
flags every uniform because none has a recorded value yet. So from the first
frame on, every uniform stays flagged (`FlaggedForever`), and the diff never
changes a flag again. A "flagged in this frame" property such as
`CameraOnFlaggedSameTick` is therefore only informative for states in which
the flag was still clear; no run from page load reaches such a state after
its first frame.

The state starts just after `window.onload` has called `initGUI()` once. The
first `render()` call that onload makes is the first `Tick`. From then on the
`gui` variable always holds a panel, so every `initGUI()` calls `destroy()`
on it before it builds the new one, even when that panel was already
destroyed on entering fullscreen (main.js:56, 216-217).

The camera rising edge sets only `cameraMultiply` and `cameraAdd` to 1
(main.js:182-183); `saturation` is untouched. main.js has no angle unwrapper,
no wave-amplitude parameter and no rotation-offset reset on entering
fullscreen, so the model has none either.

A camera edge that a frame sees while the page is in fullscreen rebuilds the
panel there too (`CameraStep` keeps `guiLive` true on an edge).
`PanelFollowsFullscreen` therefore admits only frames, fullscreen changes and
slider moves: it excludes every `CameraChecked` event (even one that leaves
the flag as it was) and every `ZoomClicked` event. The zoom button and the
checkbox exist only while the panel is shown; `ZoomKeepsPanel` shows that a
zoom click outside fullscreen keeps the panel shown exactly outside
fullscreen.

## Model

| member | source | states |
|---|---|---|
| `PortalModel.Initial` | main.js:124-143 | The start state has the seven uniform keys, a numeric `time`, and the camera flag on with its previous value falsy. `setupVideo` has not run, nothing is recorded or flagged. The page is not in fullscreen, the panel is shown, and it has been built once and never destroyed. |
| `PortalModel.AdvanceTime` | main.js:175 | `time` grows by the frame's delta. Every other uniform and all the other state are unchanged. |
| `PortalModel.CameraStep` | main.js:177-193 | Afterwards `prevUseCamera == useCamera`. `setupVideo` runs only when the flag is on and `videoWasSetup` is false, and `videoWasSetup` ends true whenever the flag is on. With the flag off, both blend uniforms are 0. On an off→on edge both are 1. While the flag stays on, all values are unchanged. The panel is rebuilt exactly once on an edge in either direction and never otherwise. No other uniform changes. |
| `PortalModel.Diff` | main.js:199-204 | Each key's recorded value becomes its current value. A key's flag is set iff it was set already, or the key was never recorded, or its recorded value differs. Flags are never cleared. The values and everything else are unchanged. |
| `PortalModel.Tick` | main.js:175-204 | A frame keeps the state well formed and keeps the once-only `setupVideo` invariant. It ends with `prevUseCamera == useCamera` and every value recorded. With the flag off, both blend uniforms end at 0. |
| `PortalModel.FullscreenChange` | main.js:51-61 | `isFullscreen` ends equal to the new state. Entering fullscreen destroys the panel and builds none. Leaving fullscreen destroys the panel the variable still holds and builds a new one. With no change the state is unchanged. Nothing outside the fullscreen and panel fields changes. |
| `PortalModel.ZoomUI` | main.js:42-45 | Flips `uiZoomed` and rebuilds the panel once (destroying the old one). Nothing else changes. |
| `PortalModel.SliderKey` | main.js:234-275 | Each numeric panel control writes one of the uniform keys. Only the Time control writes `time`. |
| `PortalModel.SetUseCamera` | main.js:264-265 | The "Use Camera" checkbox sets the flag and changes nothing else. The reaction waits for the next frame. |
| `PortalModel.MoveSlider` | main.js:234-275 | A control sets its uniform's value. The flag, the recorded value and every other field are left for the next frame's diff. |
| `PortalModel.Step` | main.js:100-107 | Every event keeps the state well formed. Every event keeps the invariant that `setupVideo` has run once if `videoWasSetup` is set and never otherwise. |
| `PortalModel.Run` | main.js:124-134 | Any sequence of events keeps the fixed uniform key set and a numeric `time`. |
| `PortalModel.VideoRequestedAtMostOnce` | main.js:100-107 | Over any sequence of frames, toggles, fullscreen changes and panel writes, `setupVideo` runs at most once, and exactly once if `videoWasSetup` is set. |
| `PortalModel.DiffIdempotent` | main.js:199-204 | Running the diff twice in a row equals running it once. The second pass flags and records nothing new. |
| `PortalModel.CameraStepSettled` | main.js:177-193 | Right after a frame, the camera section changes nothing: no `setupVideo()` call, no rebuild and no write. Precisely, it is the identity when the flag equals its previous value, `setupVideo()` has run if the flag is on, and both blend uniforms are 0 if it is off. A control write of a blend uniform while the flag is off breaks the last condition, and the next frame writes 0 back. |
| `PortalModel.TickSettles` | main.js:175-204 | After any frame, a frame with zero elapsed time and no event in between leaves the whole state unchanged. |
| `PortalModel.FirstTickFlagsAll` | main.js:199-204 | The first frame flags every uniform, calls `setupVideo` once, sets both blend uniforms to 1 and rebuilds the panel once. |
| `PortalModel.CameraOnFlaggedSameTick` | main.js:181-204 | After a frame with the camera off, switching it on makes the next frame set both blend uniforms to 1 and flag both of them in that same frame. That frame rebuilds the panel exactly once. |
| `PortalModel.CameraEditsStick` | main.js:177-193 | While the camera stays on, frames and control writes never rebuild the panel. Each blend uniform ends at the last value its control wrote, or at its starting value if the control never wrote. |
| `PortalModel.ZoomKeepsPanel` | main.js:42-45 | A zoom click with the panel shown outside fullscreen leaves the panel shown and the page outside fullscreen. |
| `PortalModel.SetupStays` | main.js:100-107 | Once `videoWasSetup` is set, it stays set over any event sequence. |
| `PortalModel.ExactlyOnce` | main.js:100-107 | From page load (the flag starts on, main.js:139, and the first frame calls `setupVideo()`, main.js:177-179), after the first frame and any events that follow, `setupVideo()` has run exactly once, however often the camera is toggled. |
| `PortalModel.StepFlags` | main.js:199-204 | A single event clears no `needsUpdate` flag and sets flags only on uniform keys. |
| `PortalModel.FlagsNeverCleared` | main.js:199-204 | Over any event sequence, every `needsUpdate` flag that is set stays set. |
| `PortalModel.NeedsUpdateWithinKeys` | main.js:199-204 | Over any event sequence, only uniform keys are ever flagged. |
| `PortalModel.FlaggedForever` | main.js:199-204 | After the first frame, every uniform is flagged whatever events follow, so the diff never changes a flag again. |
| `PortalModel.PanelFollowsFullscreen` | main.js:51-61 | The panel is shown exactly when the page is not in fullscreen. Frames, fullscreen changes and control writes keep this invariant once a frame has seen the camera flag. |
| `PortalApp.App.constructor` | main.js:124-143 | The fields start as `Initial()`. |
| `PortalApp.App.SetupVideo` | main.js:100-107 | Counts one `setupVideo()` call and sets `videoWasSetup`. |
| `PortalApp.App.InitGUI` | main.js:215-219 | Destroys the current panel and builds a new one. |
| `PortalApp.App.Tick` | main.js:164-212 | One `render()` frame updates the fields to `Tick` of the old state and keeps the object invariant. |
| `PortalApp.App.AdvanceTime` | main.js:175 | Updates the fields to `AdvanceTime` of the old state. |
| `PortalApp.App.CameraMode` | main.js:177-193 | Updates the fields to `CameraStep` of the old state. |
| `PortalApp.App.DiffUniforms` | main.js:199-204 | The key loop updates `prevUniforms` and the flags in place to exactly `Diff` of the old state. It visits the keys in any order, and only those two fields change. |
| `PortalApp.App.OnFullscreenChange` | main.js:51-61 | Updates the fields to `FullscreenChange` of the old state and keeps the object invariant. |
| `PortalApp.App.ZoomUI` | main.js:42-45 | Updates the fields to `ZoomUI` of the old state and keeps the object invariant. |
| `PortalApp.App.SetUseCamera` | main.js:264-265 | Updates the fields to `SetUseCamera` of the old state and keeps the object invariant. |
| `PortalApp.App.MoveSlider` | main.js:234-275 | Updates the fields to `MoveSlider` of the old state and keeps the object invariant. |

## Left out

- three.js rendering, the scene, the camera and the inverse view-projection computation (main.js:64-78, 146-155, 170-172, 206-207). These are foreign library calls and floating-point matrix maths. The `Matrix4` uniform is modelled only by its identity.
- The rotation accumulator and `sphere.rotation.y` (main.js:195-196). They are float arithmetic with a sign-keeping `%`, and they feed no uniform.
- `clock.getDelta()` and `timeScale` (main.js:167). A frame takes the already-scaled delta `dt` as a parameter.
- Floating point as such: `time += dt` is real addition here, without rounding, and NaN (for which `!==` is always true) and signed zero are not modelled.
- `getUserMedia`, the video element and canvas, and `drawVideo` (main.js:101-105, 109-119). These are I/O. Only the `videoWasSetup` flag and a count of `setupVideo()` calls are kept; whether a call actually makes a request (it makes none when `getUserMedia` is absent, main.js:103) is not modelled.
- The body of `initGUI` beyond destroy-and-rebuild (main.js:221-285). It builds dat.GUI widgets and styling, including the zoom transform that reads `uiZoomed`. The model keeps a build count, a destroy count and whether a panel is shown.
- dat.GUI's clamping of control writes to min/max and its step rounding. The `timeScale`, `rotation` and `rotationVelocity` controls are not modelled.
- `debounce` and `throttleBounce` (main.js:3-26). They are timer scheduling.
- The stats panel, the texture loader, resize handling, the fullscreen request and `window.open` (main.js:34-41, 46-48, 72-93, 158-161). These are browser plumbing.
- Events before `window.onload` (main.js:289-292). At that point `gui` is undefined, so `gui.destroy()` in the fullscreen handler would throw. The model starts after onload.
- How the browser reports fullscreen (main.js:53). The new state is passed to the handler as a boolean, and `undefined` reads as false.
- FullscreenChange: assumes that `gui.destroy()` returns normally when called on a panel that was already destroyed. Leaving fullscreen (main.js:59) and a camera edge seen in fullscreen (main.js:184, 190) call `initGUI()`, which destroys the panel destroyed on entering fullscreen (main.js:56) a second time (main.js:216-217). dat.GUI is not part of this model; if that second call throws, no new panel is built. Then the "leaving fullscreen rebuilds the panel" clauses of `FullscreenChange`, `InitGUI` and `PanelFollowsFullscreen` do not describe the page. Neither do the edge clauses of `CameraStep`, `Tick` and `App.Tick` for an edge seen in fullscreen: that `render()` stops at main.js:184 or 190, before `prevUseCamera` is written (main.js:193), before the diff (main.js:199-204) and before `requestAnimationFrame(render)` (main.js:211), so the render loop ends.
- The `type` tag of each uniform (main.js:124-134). Nothing in the modelled code reads it.
