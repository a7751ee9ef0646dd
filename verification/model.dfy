/**
 * The frame-parameter state machine of the Portal demo (main.js), as values.
 *
 * A `State` holds the mode flags, the shader uniforms' current values, the
 * last-seen values the change diff compares against, the set of uniforms whose
 * `needsUpdate` flag is set, and three counters that record how often
 * setupVideo() ran and how often the parameter panel was built and
 * destroyed. Each event handler of main.js is a function from `State` to
 * `State`; the class in app.dfy is proved to follow these functions.
 */
module PortalModel {

  /** A uniform value as the strict `!==` comparison sees it: a number, or an
      object (the video texture, the inverse view-projection matrix) compared
      by identity. */
  datatype Value = Num(x: real) | Obj(id: nat)

  const Video := "video"
  const ViewProjInverse := "viewProjInverse"
  const Time := "time"
  const Saturation := "saturation"
  const Multiply := "multiply"
  const CameraMultiply := "cameraMultiply"
  const CameraAdd := "cameraAdd"

  /** The keys of the `uniforms` object; it never gains or loses a key. */
  const UniformNames: set<string> :=
    {Video, ViewProjInverse, Time, Saturation, Multiply, CameraMultiply, CameraAdd}

  /** Identities of the two object-valued uniforms; both objects are created
      once and afterwards only mutated in place. */
  const VideoTexture := Obj(0)
  const ViewProjMatrix := Obj(1)

  datatype State = State(
    useCamera: bool,
    prevUseCamera: bool,
    videoWasSetup: bool,
    isFullscreen: bool,
    uiZoomed: bool,
    guiLive: bool,                     // a panel is on screen (not destroyed)
    values: map<string, Value>,        // uniforms[key].value
    prevUniforms: map<string, Value>,  // last-seen value per key
    needsUpdate: set<string>,          // keys whose needsUpdate flag is true
    videoRequests: nat,                // calls of setupVideo()
    guiBuilds: nat,                    // calls of initGUI()
    guiDestroys: nat)                  // calls of gui.destroy()

  /** The shape every reachable state has: the fixed key set, and a numeric
      `time` uniform (the only one the frame arithmetic touches). */
  ghost predicate WellFormed(s: State)
  {
    s.values.Keys == UniformNames && s.values[Time].Num?
  }

  /** setupVideo() has run exactly when `videoWasSetup` is set, and then
      exactly once. */
  ghost predicate VideoInv(s: State)
  {
    s.videoRequests == if s.videoWasSetup then 1 else 0
  }

  /** The panel is on screen exactly when the page is not in fullscreen. */
  ghost predicate PanelMatches(s: State)
  {
    s.guiLive == !s.isFullscreen
  }

  /** Keys whose current value is strictly different from the last-seen one;
      a key never seen reads as `undefined`, which differs from every value. */
  function Changed(values: map<string, Value>, seen: map<string, Value>): set<string>
  {
    set k | k in values && (k !in seen || seen[k] != values[k])
  }

  /** The state once the page has loaded and window.onload has built the
      first panel; the first render() that onload starts is the first Tick. */
  function Initial(): (s: State)
    ensures WellFormed(s) && VideoInv(s) && PanelMatches(s)
    ensures s.useCamera && !s.prevUseCamera && !s.videoWasSetup
    ensures s.prevUniforms == map[] && s.needsUpdate == {}
    ensures !s.isFullscreen && s.guiLive && s.guiBuilds == 1 && s.guiDestroys == 0
  {
    State(
      useCamera := true,
      prevUseCamera := false,
      videoWasSetup := false,
      isFullscreen := false,
      uiZoomed := false,
      guiLive := true,
      values := map[
        Video := VideoTexture,
        ViewProjInverse := ViewProjMatrix,
        Time := Num(30.0),
        Saturation := Num(0.0),
        Multiply := Num(1.0),
        CameraMultiply := Num(0.0),
        CameraAdd := Num(0.0)],
      prevUniforms := map[],
      needsUpdate := {},
      videoRequests := 0,
      guiBuilds := 1,
      guiDestroys := 0)
  }

  /** setupVideo(): ask for the camera stream (only when the browser offers
      getUserMedia, which this model does not see) and remember that it ran. */
  function SetupVideo(s: State): State
  {
    s.(videoWasSetup := true, videoRequests := s.videoRequests + 1)
  }

  /** initGUI(): destroy the panel the `gui` variable holds (after onload it
      always holds one, though it may already have been destroyed on entering
      fullscreen) and build a fresh one. */
  function InitGUI(s: State): State
  {
    s.(guiLive := true, guiBuilds := s.guiBuilds + 1, guiDestroys := s.guiDestroys + 1)
  }

  function SetCameraBlend(s: State, v: real): State
  {
    s.(values := s.values[CameraMultiply := Num(v)][CameraAdd := Num(v)])
  }

  /** `uniforms.time.value += dt`, where dt is the clock delta already scaled
      by the time scale. */
  function AdvanceTime(s: State, dt: real): (r: State)
    requires WellFormed(s)
    ensures WellFormed(r)
    ensures r.values[Time].x == s.values[Time].x + dt
    ensures forall k :: k in s.values && k != Time ==> r.values[k] == s.values[k]
    ensures r.(values := s.values) == s
  {
    s.(values := s.values[Time := Num(s.values[Time].x + dt)])
  }

  /** The camera-mode section of render(): call setupVideo() once, switch the
      blend uniforms on a rising edge or hold them at zero while off, rebuild
      the panel on either edge, and remember the flag for the next frame. */
  function CameraStep(s: State): (r: State)
    requires WellFormed(s)
    ensures WellFormed(r)
    ensures r.useCamera == s.useCamera && r.prevUseCamera == s.useCamera
    ensures r.videoWasSetup == (s.videoWasSetup || s.useCamera)
    ensures r.videoRequests ==
      if s.useCamera && !s.videoWasSetup then s.videoRequests + 1 else s.videoRequests
    ensures !s.useCamera ==>
      r.values[CameraMultiply] == Num(0.0) && r.values[CameraAdd] == Num(0.0)
    ensures s.useCamera && !s.prevUseCamera ==>
      r.values[CameraMultiply] == Num(1.0) && r.values[CameraAdd] == Num(1.0)
    ensures s.useCamera && s.prevUseCamera ==> r.values == s.values
    ensures forall k :: k in s.values && k != CameraMultiply && k != CameraAdd ==>
      r.values[k] == s.values[k]
    ensures r.guiBuilds == if s.useCamera != s.prevUseCamera then s.guiBuilds + 1 else s.guiBuilds
    ensures r.guiDestroys == if s.useCamera != s.prevUseCamera then s.guiDestroys + 1 else s.guiDestroys
    ensures r.guiLive == (s.guiLive || s.useCamera != s.prevUseCamera)
    ensures r.isFullscreen == s.isFullscreen && r.uiZoomed == s.uiZoomed
    ensures r.prevUniforms == s.prevUniforms && r.needsUpdate == s.needsUpdate
  {
    var s1 := if s.useCamera && !s.videoWasSetup then SetupVideo(s) else s;
    var s2 :=
      if s.useCamera then
        (if !s.prevUseCamera then InitGUI(SetCameraBlend(s1, 1.0)) else s1)
      else
        var off := SetCameraBlend(s1, 0.0);
        if s.prevUseCamera then InitGUI(off) else off;
    s2.(prevUseCamera := s.useCamera)
  }

  /** The uniform diff of render(): flag every key whose value differs from its
      last-seen value, never clear a flag, and record every current value. */
  function Diff(s: State): (r: State)
    ensures r.values == s.values
    ensures r.prevUniforms.Keys == s.prevUniforms.Keys + s.values.Keys
    ensures forall k :: k in s.values ==> r.prevUniforms[k] == s.values[k]
    ensures forall k :: k in s.prevUniforms && k !in s.values ==>
      r.prevUniforms[k] == s.prevUniforms[k]
    ensures forall k :: k in s.values ==>
      (k in r.needsUpdate <==>
        k in s.needsUpdate || k !in s.prevUniforms || s.prevUniforms[k] != s.values[k])
    ensures forall k :: k !in s.values ==> (k in r.needsUpdate <==> k in s.needsUpdate)
    ensures r.(prevUniforms := s.prevUniforms, needsUpdate := s.needsUpdate) == s
  {
    s.(needsUpdate := s.needsUpdate + Changed(s.values, s.prevUniforms),
       prevUniforms := s.prevUniforms + s.values)
  }

  /** One render() frame: time, then the camera mode, then the diff. */
  function Tick(s: State, dt: real): (r: State)
    requires WellFormed(s)
    ensures WellFormed(r)
    ensures VideoInv(s) ==> VideoInv(r)
    ensures r.prevUseCamera == r.useCamera
    ensures forall k :: k in r.values ==> k in r.prevUniforms && r.prevUniforms[k] == r.values[k]
    ensures !s.useCamera ==>
      r.values[CameraMultiply] == Num(0.0) && r.values[CameraAdd] == Num(0.0)
  {
    Diff(CameraStep(AdvanceTime(s, dt)))
  }

  /** The fullscreen-change handler: destroy the panel when entering
      fullscreen, rebuild it when leaving, do nothing otherwise. */
  function FullscreenChange(s: State, now: bool): (r: State)
    ensures r.isFullscreen == now
    ensures !s.isFullscreen && now ==>
      !r.guiLive && r.guiDestroys == s.guiDestroys + 1 && r.guiBuilds == s.guiBuilds
    ensures s.isFullscreen && !now ==>
      r.guiLive && r.guiBuilds == s.guiBuilds + 1 && r.guiDestroys == s.guiDestroys + 1
    ensures s.isFullscreen == now ==> r == s
    ensures r.(isFullscreen := s.isFullscreen, guiLive := s.guiLive,
               guiBuilds := s.guiBuilds, guiDestroys := s.guiDestroys) == s
  {
    var prevFullscreen := s.isFullscreen;
    var s1 := s.(isFullscreen := now);
    if !prevFullscreen && now then
      s1.(guiLive := false, guiDestroys := s1.guiDestroys + 1)
    else if prevFullscreen && !now then
      InitGUI(s1)
    else
      s1
  }

  /** The "Toggle UI Zoom" button: flip the zoom flag and rebuild the panel. */
  function ZoomUI(s: State): (r: State)
    ensures r.uiZoomed != s.uiZoomed
    ensures r.guiLive && r.guiBuilds == s.guiBuilds + 1 && r.guiDestroys == s.guiDestroys + 1
    ensures r.(uiZoomed := s.uiZoomed, guiLive := s.guiLive,
               guiBuilds := s.guiBuilds, guiDestroys := s.guiDestroys) == s
  {
    InitGUI(s.(uiZoomed := !s.uiZoomed))
  }

  /** The numeric panel controls that write a uniform's value. */
  datatype Slider = TimeSlider | SaturationSlider | MultiplySlider
                  | CameraMultiplySlider | CameraAddSlider

  function SliderKey(sl: Slider): (k: string)
    ensures k in UniformNames && (k == Time <==> sl.TimeSlider?)
  {
    match sl
    case TimeSlider => Time
    case SaturationSlider => Saturation
    case MultiplySlider => Multiply
    case CameraMultiplySlider => CameraMultiply
    case CameraAddSlider => CameraAdd
  }

  /** Everything that runs to completion between two observations: a frame,
      a fullscreen change, a click on the zoom button, or a panel write. */
  datatype Event =
    | Frame(dt: real)
    | FullscreenChanged(now: bool)
    | ZoomClicked
    | CameraChecked(on: bool)
    | SliderMoved(slider: Slider, x: real)

  /** The "Use Camera" checkbox writing the flag; nothing else reacts until
      the next frame. */
  function SetUseCamera(s: State, on: bool): (r: State)
    ensures r.useCamera == on && r.(useCamera := s.useCamera) == s
  {
    s.(useCamera := on)
  }

  /** A numeric control writing its uniform's value (its needsUpdate flag and
      recorded value are left for the next frame's diff). */
  function MoveSlider(s: State, sl: Slider, x: real): (r: State)
    requires WellFormed(s)
    ensures WellFormed(r)
    ensures r.values[SliderKey(sl)] == Num(x)
    ensures forall k :: k in s.values && k != SliderKey(sl) ==> r.values[k] == s.values[k]
    ensures r.(values := s.values) == s
  {
    s.(values := s.values[SliderKey(sl) := Num(x)])
  }

  function Step(s: State, e: Event): (r: State)
    requires WellFormed(s)
    ensures WellFormed(r)
    ensures VideoInv(s) ==> VideoInv(r)
  {
    match e
    case Frame(dt) => Tick(s, dt)
    case FullscreenChanged(now) => FullscreenChange(s, now)
    case ZoomClicked => ZoomUI(s)
    case CameraChecked(on) => SetUseCamera(s, on)
    case SliderMoved(sl, x) => MoveSlider(s, sl, x)
  }

  function Run(s: State, evs: seq<Event>): (r: State)
    requires WellFormed(s)
    ensures WellFormed(r)
    decreases |evs|
  {
    if evs == [] then s else Run(Step(s, evs[0]), evs[1..])
  }

  /** The value a uniform ends with when only the given slider writes it:
      the last position in `evs`, or `v` when the slider never moves. */
  function SliderResult(evs: seq<Event>, sl: Slider, v: Value): Value
    decreases |evs|
  {
    if evs == [] then v
    else SliderResult(evs[1..], sl,
      if evs[0].SliderMoved? && evs[0].slider == sl then Num(evs[0].x) else v)
  }

  // ---------------------------------------------------------------------------
  // Properties over several calls

  /** setupVideo() runs at most once, whatever events arrive and however
      often the camera checkbox is toggled. */
  lemma {:induction false} VideoRequestedAtMostOnce(s: State, evs: seq<Event>)
    requires WellFormed(s) && VideoInv(s)
    ensures VideoInv(Run(s, evs))
    ensures Run(s, evs).videoRequests <= 1
    decreases |evs|
  {
    if evs != [] {
      VideoRequestedAtMostOnce(Step(s, evs[0]), evs[1..]);
    }
  }

  /** Diffing twice in a row is diffing once: the second pass finds every
      value equal to the one just recorded, so it flags nothing new. */
  lemma DiffIdempotent(s: State)
    ensures Diff(Diff(s)) == Diff(s)
  {
  }

  /** A state whose camera flag a frame has already seen is left alone by the
      camera-mode section. */
  lemma CameraStepSettled(s: State)
    requires WellFormed(s) && s.prevUseCamera == s.useCamera
    requires s.useCamera ==> s.videoWasSetup
    requires !s.useCamera ==>
      s.values[CameraMultiply] == Num(0.0) && s.values[CameraAdd] == Num(0.0)
    ensures CameraStep(s) == s
  {
  }

  /** A frame with nothing new to do changes nothing: after any frame, a
      second frame with zero elapsed time and no event in between is the
      identity (no flag set, no rebuild, no setupVideo() call). */
  lemma TickSettles(s: State, dt: real)
    requires WellFormed(s)
    ensures Tick(Tick(s, dt), 0.0) == Tick(s, dt)
  {
    var c := CameraStep(AdvanceTime(s, dt));
    var t := Diff(c);
    assert t == Tick(s, dt);
    assert AdvanceTime(t, 0.0).values == t.values;
    assert AdvanceTime(t, 0.0) == t;
    CameraStepSettled(t);
    DiffIdempotent(c);
  }

  /** The first frame flags every uniform (none has a recorded value), calls
      setupVideo() once, switches the blend uniforms on and rebuilds the panel. */
  lemma FirstTickFlagsAll(dt: real)
    ensures Tick(Initial(), dt).needsUpdate == UniformNames
    ensures Tick(Initial(), dt).videoRequests == 1
    ensures Tick(Initial(), dt).values[CameraMultiply] == Num(1.0)
    ensures Tick(Initial(), dt).values[CameraAdd] == Num(1.0)
    ensures Tick(Initial(), dt).guiBuilds == Initial().guiBuilds + 1
  {
  }

  /** Switching the camera on between two frames: the frame that sees the
      rising edge sets both blend uniforms to 1 and flags both of them in that
      same frame, and rebuilds the panel once. */
  lemma CameraOnFlaggedSameTick(s: State, dt1: real, dt2: real)
    requires WellFormed(s) && !s.useCamera
    ensures var r1 := Tick(s, dt1);
            var r2 := Tick(r1.(useCamera := true), dt2);
            && r2.values[CameraMultiply] == Num(1.0) && r2.values[CameraAdd] == Num(1.0)
            && CameraMultiply in r2.needsUpdate && CameraAdd in r2.needsUpdate
            && r2.guiBuilds == r1.guiBuilds + 1
  {
  }

  /** While the camera stays on, frames and slider moves never rebuild the
      panel, and the blend uniforms keep whatever the user last set. */
  lemma {:induction false} CameraEditsStick(s: State, evs: seq<Event>)
    requires WellFormed(s) && s.useCamera && s.prevUseCamera
    requires forall i :: 0 <= i < |evs| ==> evs[i].Frame? || evs[i].SliderMoved?
    ensures Run(s, evs).guiBuilds == s.guiBuilds
    ensures Run(s, evs).values[CameraMultiply] ==
      SliderResult(evs, CameraMultiplySlider, s.values[CameraMultiply])
    ensures Run(s, evs).values[CameraAdd] ==
      SliderResult(evs, CameraAddSlider, s.values[CameraAdd])
    decreases |evs|
  {
    if evs != [] {
      var t := Step(s, evs[0]);
      assert t.useCamera && t.prevUseCamera && t.guiBuilds == s.guiBuilds;
      assert t.values[CameraMultiply] ==
        if evs[0].SliderMoved? && evs[0].slider == CameraMultiplySlider
        then Num(evs[0].x) else s.values[CameraMultiply];
      assert t.values[CameraAdd] ==
        if evs[0].SliderMoved? && evs[0].slider == CameraAddSlider
        then Num(evs[0].x) else s.values[CameraAdd];
      CameraEditsStick(t, evs[1..]);
    }
  }

  /** Frames, fullscreen changes and slider moves keep the panel on screen
      exactly while the page is not in fullscreen, once the camera flag has
      been seen by a frame. */
  lemma {:induction false} PanelFollowsFullscreen(s: State, evs: seq<Event>)
    requires WellFormed(s) && PanelMatches(s) && s.prevUseCamera == s.useCamera
    requires forall i :: 0 <= i < |evs| ==>
      evs[i].Frame? || evs[i].FullscreenChanged? || evs[i].SliderMoved?
    ensures PanelMatches(Run(s, evs))
    ensures Run(s, evs).prevUseCamera == Run(s, evs).useCamera
    decreases |evs|
  {
    if evs != [] {
      PanelFollowsFullscreen(Step(s, evs[0]), evs[1..]);
    }
  }

  /** A click on the zoom button, which exists only while the panel is shown
      (so outside fullscreen), keeps the panel shown exactly outside
      fullscreen. */
  lemma ZoomKeepsPanel(s: State)
    requires PanelMatches(s) && !s.isFullscreen
    ensures PanelMatches(ZoomUI(s)) && !ZoomUI(s).isFullscreen
  {
  }

  /** Nothing ever clears `videoWasSetup`: once setupVideo() has run, every
      later event keeps the flag set. */
  lemma {:induction false} SetupStays(s: State, evs: seq<Event>)
    requires WellFormed(s) && s.videoWasSetup
    ensures Run(s, evs).videoWasSetup
    decreases |evs|
  {
    if evs != [] {
      SetupStays(Step(s, evs[0]), evs[1..]);
    }
  }

  /** From page load, setupVideo() runs exactly once: the first frame calls
      it, and no later event, however often the camera checkbox is toggled,
      calls it again. */
  lemma ExactlyOnce(dt: real, evs: seq<Event>)
    ensures Run(Tick(Initial(), dt), evs).videoRequests == 1
  {
    var t := Tick(Initial(), dt);
    FirstTickFlagsAll(dt);
    assert t.videoWasSetup && VideoInv(t);
    SetupStays(t, evs);
    VideoRequestedAtMostOnce(t, evs);
  }

  /** One event flags at most the keys the diff can flag and clears none. */
  lemma StepFlags(s: State, e: Event)
    requires WellFormed(s)
    ensures s.needsUpdate <= Step(s, e).needsUpdate <= s.needsUpdate + UniformNames
  {
    match e
    case Frame(dt) =>
      var c := CameraStep(AdvanceTime(s, dt));
      assert Tick(s, dt) == Diff(c);
    case _ =>
  }

  /** No event ever clears a `needsUpdate` flag. */
  lemma {:induction false} FlagsNeverCleared(s: State, evs: seq<Event>)
    requires WellFormed(s)
    ensures s.needsUpdate <= Run(s, evs).needsUpdate
    decreases |evs|
  {
    if evs != [] {
      var t := Step(s, evs[0]);
      StepFlags(s, evs[0]);
      FlagsNeverCleared(t, evs[1..]);
    }
  }

  /** Since the first frame flags every uniform and nothing clears a flag,
      every uniform stays flagged for the rest of the page's life: from the
      first frame on, the diff never changes a flag. */
  lemma FlaggedForever(dt: real, evs: seq<Event>)
    ensures Run(Tick(Initial(), dt), evs).needsUpdate == UniformNames
  {
    var t := Tick(Initial(), dt);
    FirstTickFlagsAll(dt);
    FlagsNeverCleared(t, evs);
    assert Run(t, evs).needsUpdate <= UniformNames by {
      NeedsUpdateWithinKeys(t, evs);
    }
  }

  /** Only uniform keys are ever flagged. */
  lemma {:induction false} NeedsUpdateWithinKeys(s: State, evs: seq<Event>)
    requires WellFormed(s) && s.needsUpdate <= UniformNames
    ensures Run(s, evs).needsUpdate <= UniformNames
    decreases |evs|
  {
    if evs != [] {
      var t := Step(s, evs[0]);
      StepFlags(s, evs[0]);
      NeedsUpdateWithinKeys(t, evs[1..]);
    }
  }
}
