/**
 * The page's global state as an object whose handlers update it in place,
 * each proved to do what the matching function of PortalModel describes.
 */
module PortalApp {
  import opened PortalModel

  class App {
    var useCamera: bool
    var prevUseCamera: bool
    var videoWasSetup: bool
    var isFullscreen: bool
    var uiZoomed: bool
    var guiLive: bool
    var values: map<string, Value>
    var prevUniforms: map<string, Value>
    var needsUpdate: set<string>
    ghost var videoRequests: nat
    ghost var guiBuilds: nat
    ghost var guiDestroys: nat

    /** The object's fields as a PortalModel state. */
    ghost function Abs(): State
      reads this
    {
      State(useCamera, prevUseCamera, videoWasSetup, isFullscreen, uiZoomed, guiLive,
            values, prevUniforms, needsUpdate, videoRequests, guiBuilds, guiDestroys)
    }

    ghost predicate Valid()
      reads this
    {
      WellFormed(Abs()) && VideoInv(Abs())
    }

    /** Script load followed by window.onload's first initGUI(); the panel
        variable is still undefined then, so nothing is destroyed. */
    constructor ()
      ensures Valid() && Abs() == Initial()
    {
      useCamera, prevUseCamera, videoWasSetup := true, false, false;
      isFullscreen, uiZoomed := false, false;
      values := Initial().values;
      prevUniforms, needsUpdate := map[], {};
      videoRequests := 0;
      guiLive, guiBuilds, guiDestroys := true, 1, 0;
    }

    method SetupVideo()
      modifies this
      ensures Abs() == PortalModel.SetupVideo(old(Abs()))
    {
      videoRequests := videoRequests + 1;
      videoWasSetup := true;
    }

    method InitGUI()
      modifies this
      ensures Abs() == PortalModel.InitGUI(old(Abs()))
    {
      guiDestroys := guiDestroys + 1;
      guiLive := true;
      guiBuilds := guiBuilds + 1;
    }

    /** One render() frame; `dt` is the scaled clock delta. */
    method Tick(dt: real)
      requires Valid()
      modifies this
      ensures Valid()
      ensures Abs() == PortalModel.Tick(old(Abs()), dt)
    {
      AdvanceTime(dt);
      CameraMode();
      DiffUniforms();
    }

    /** `uniforms.time.value += dt`. */
    method AdvanceTime(dt: real)
      requires WellFormed(Abs())
      modifies this`values
      ensures Abs() == PortalModel.AdvanceTime(old(Abs()), dt)
    {
      values := values[Time := Num(values[Time].x + dt)];
    }

    /** The camera-mode section of render(). */
    method CameraMode()
      requires WellFormed(Abs())
      modifies this
      ensures Abs() == CameraStep(old(Abs()))
    {
      if useCamera {
        if !videoWasSetup {
          SetupVideo();
        }
        if !prevUseCamera {
          values := values[CameraMultiply := Num(1.0)];
          values := values[CameraAdd := Num(1.0)];
          InitGUI();
        }
      } else {
        values := values[CameraMultiply := Num(0.0)];
        values := values[CameraAdd := Num(0.0)];
        if prevUseCamera {
          InitGUI();
        }
      }
      prevUseCamera := useCamera;
    }

    /** The `for (key in uniforms)` loop: visit every key once, in any order,
        flag it when its value differs from the recorded one, then record it. */
    method DiffUniforms()
      modifies this`prevUniforms, this`needsUpdate
      ensures Abs() == Diff(old(Abs()))
    {
      var pending := values.Keys;
      while pending != {}
        invariant pending <= values.Keys
        invariant prevUniforms.Keys == old(prevUniforms).Keys + (values.Keys - pending)
        invariant forall k :: k in values && k !in pending ==> prevUniforms[k] == values[k]
        invariant forall k :: k in prevUniforms && (k !in values || k in pending) ==>
          prevUniforms[k] == old(prevUniforms)[k]
        invariant forall k :: k in needsUpdate <==>
          k in old(needsUpdate) ||
          (k in values && k !in pending && (k !in old(prevUniforms) || old(prevUniforms)[k] != values[k]))
        decreases pending
      {
        var key :| key in pending;
        if key !in prevUniforms || prevUniforms[key] != values[key] {
          needsUpdate := needsUpdate + {key};
        }
        prevUniforms := prevUniforms[key := values[key]];
        pending := pending - {key};
      }
      assert prevUniforms == old(prevUniforms) + values;
      assert needsUpdate == old(needsUpdate) + Changed(values, old(prevUniforms));
    }

    method OnFullscreenChange(now: bool)
      requires Valid()
      modifies this
      ensures Valid()
      ensures Abs() == FullscreenChange(old(Abs()), now)
    {
      var prevFullscreen := isFullscreen;
      isFullscreen := now;
      if !prevFullscreen && isFullscreen {
        guiDestroys := guiDestroys + 1;
        guiLive := false;
      } else if prevFullscreen && !isFullscreen {
        InitGUI();
      }
    }

    method ZoomUI()
      requires Valid()
      modifies this
      ensures Valid()
      ensures Abs() == PortalModel.ZoomUI(old(Abs()))
    {
      uiZoomed := !uiZoomed;
      InitGUI();
    }

    /** The panel's "Use Camera" checkbox writing the flag. */
    method SetUseCamera(on: bool)
      requires Valid()
      modifies this
      ensures Valid()
      ensures Abs() == PortalModel.SetUseCamera(old(Abs()), on)
    {
      useCamera := on;
    }

    /** A numeric panel control writing its uniform's value. */
    method MoveSlider(sl: Slider, x: real)
      requires Valid()
      modifies this
      ensures Valid()
      ensures Abs() == PortalModel.MoveSlider(old(Abs()), sl, x)
    {
      values := values[SliderKey(sl) := Num(x)];
    }
  }
}
