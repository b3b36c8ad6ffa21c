/**
 * MainActivity's own state and the event handlers that change it. The camera
 * framework is reduced to what the activity sees of it: whether a bind
 * succeeded and which camera it returned, the zoom state it reports, and the
 * zoom and capture commands the activity issues to it.
 */
module CameraApp {
  import opened Wrappers
  import opened Zoom
  import opened Flash
  import opened CameraFacing

  class MainActivity {
    /** `imageCapture`: None while it is null, else the flash mode of the ImageCapture. */
    var captureFlash: Option<FlashMode>
    /** The background drawable of the flash button. */
    var flashIcon: FlashIcon
    /**
     * `camera`: None while it is null, else the facing of the Camera last
     * returned by a bind. A later bind that fails leaves it in place, though
     * that camera is then no longer bound.
     */
    var camera: Option<Facing>
    var isFromCamera: bool
    var lastScaleFactor: real
    /** Every zoom ratio sent to the camera control, oldest first. */
    var zoomCommands: seq<real>
    /** Every photo capture started, with the flash mode it was started with, oldest first. */
    var captureRequests: seq<FlashMode>

    /** The activity as constructed, before onCreate; `layoutIcon` is the flash button's icon from the layout. */
    constructor (layoutIcon: FlashIcon)
      ensures captureFlash == None && flashIcon == layoutIcon && camera == None
      ensures !isFromCamera && lastScaleFactor == 0.0
      ensures zoomCommands == [] && captureRequests == []
    {
      captureFlash := None;
      flashIcon := layoutIcon;
      camera := None;
      isFromCamera := false;
      lastScaleFactor := 0.0;
      zoomCommands := [];
      captureRequests := [];
    }

    /** While an ImageCapture exists, the flash button shows its flash mode. */
    ghost predicate IconMatchesFlash()
      reads this
    {
      captureFlash.Some? ==> flashIcon == IconOf(captureFlash.value)
    }

    /** The Camera last returned by a bind faces the way the `isFromCamera` flag names. */
    ghost predicate FacingMatchesFlag()
      reads this
    {
      camera.Some? ==> camera.value == SelectorFor(isFromCamera)
    }

    /**
     * startCamera, with its main-executor listener run to completion: the flash
     * is reset to AUTO, then all use cases are unbound and `selector` is bound.
     * `bindOk` is false when the bind throws; the exception is logged and
     * `camera` keeps its previous value.
     */
    method StartCamera(selector: Facing, bindOk: bool)
      modifies this`captureFlash, this`flashIcon, this`camera
      ensures captureFlash == (if old(captureFlash).Some? then Some(Auto) else None)
      ensures flashIcon == IconAuto && IconMatchesFlash()
      ensures camera == (if bindOk then Some(selector) else old(camera))
    {
      if captureFlash.Some? {
        captureFlash := Some(Auto);
      }
      flashIcon := IconAuto;
      if bindOk {
        camera := Some(selector);
      }
    }

    /** initViews: a new ImageCapture (flash OFF, the builder's default), then the back camera is started. */
    method InitViews(bindOk: bool)
      modifies this`captureFlash, this`flashIcon, this`camera
      ensures captureFlash == Some(Auto) && flashIcon == IconAuto
      ensures camera == (if bindOk then Some(Back) else old(camera))
    {
      captureFlash := Some(Off);
      StartCamera(Back, bindOk);
    }

    /** onCreate: the views are initialised only when the camera permission is already granted. */
    method OnCreate(permissionsGranted: bool, bindOk: bool)
      modifies this`captureFlash, this`flashIcon, this`camera
      ensures permissionsGranted ==> captureFlash == Some(Auto) && flashIcon == IconAuto
      ensures permissionsGranted ==> camera == (if bindOk then Some(Back) else old(camera))
      ensures !permissionsGranted ==>
        captureFlash == old(captureFlash) && flashIcon == old(flashIcon) && camera == old(camera)
    {
      if permissionsGranted {
        InitViews(bindOk);
      }
    }

    /** onResume: initViews again, which starts the back camera whatever `isFromCamera` says. */
    method OnResume(bindOk: bool)
      modifies this`captureFlash, this`flashIcon, this`camera
      ensures captureFlash == Some(Auto) && flashIcon == IconAuto
      ensures camera == (if bindOk then Some(Back) else old(camera))
      ensures isFromCamera == old(isFromCamera)
    {
      InitViews(bindOk);
    }

    /** onResume as evidently intended: the camera the flag names is started, so flag and camera agree. */
    method OnResumeKeepingFacing(bindOk: bool)
      modifies this`captureFlash, this`flashIcon, this`camera
      ensures captureFlash == Some(Auto) && flashIcon == IconAuto
      ensures camera == (if bindOk then Some(SelectorFor(isFromCamera)) else old(camera))
      ensures bindOk ==> FacingMatchesFlag()
    {
      captureFlash := Some(Off);
      StartCamera(SelectorFor(isFromCamera), bindOk);
    }

    /** The switch-camera button: the flag is negated and the camera it now names is started. */
    method OnSwitchCamera(bindOk: bool)
      modifies this`isFromCamera, this`captureFlash, this`flashIcon, this`camera
      ensures isFromCamera == !old(isFromCamera)
      ensures camera == (if bindOk then Some(SelectorFor(isFromCamera)) else old(camera))
      ensures captureFlash == (if old(captureFlash).Some? then Some(Auto) else None)
      ensures flashIcon == IconAuto && IconMatchesFlash()
      ensures bindOk ==> FacingMatchesFlag()
    {
      if isFromCamera {
        isFromCamera := false;
        StartCamera(Back, bindOk);
      } else {
        isFromCamera := true;
        StartCamera(Front, bindOk);
      }
    }

    /**
     * setFlashMode: ON becomes AUTO, AUTO becomes OFF, anything else ON, and
     * the button shows the icon of the branch taken. With no ImageCapture the
     * last branch is taken and only the icon changes.
     */
    method SetFlashMode()
      modifies this`captureFlash, this`flashIcon
      ensures captureFlash == (if old(captureFlash).Some? then Some(NextMode(old(captureFlash).value)) else None)
      ensures flashIcon == (if captureFlash.Some? then IconOf(captureFlash.value) else IconOn)
      ensures IconMatchesFlash()
    {
      var icon: FlashIcon;
      if captureFlash == Some(On) {
        icon := IconAuto;
        captureFlash := Some(Auto);
      } else if captureFlash == Some(Auto) {
        icon := IconOff;
        captureFlash := Some(Off);
      } else {
        icon := IconOn;
        if captureFlash.Some? {
          captureFlash := Some(On);
        }
      }
      flashIcon := icon;
    }

    /** takePhoto: nothing happens without an ImageCapture; otherwise one capture is started. */
    method TakePhoto()
      modifies this`captureRequests
      ensures captureRequests ==
        (if captureFlash.Some? then old(captureRequests) + [captureFlash.value] else old(captureRequests))
    {
      if captureFlash.Some? {
        captureRequests := captureRequests + [captureFlash.value];
      }
    }

    /**
     * onScale with scale factor `s` and the back camera's zoom state `zoom`.
     * The zoom state must be present whenever the frame is applied, where the
     * source dereferences it with `!!`.
     */
    method OnScale(s: real, zoom: Option<ZoomState>) returns (handled: bool)
      requires camera.Some? && !isFromCamera && Continues(lastScaleFactor, s) ==> zoom.Some?
      modifies this`lastScaleFactor, this`zoomCommands
      ensures handled == (camera.Some? && !isFromCamera)
      ensures !handled ==> lastScaleFactor == old(lastScaleFactor) && zoomCommands == old(zoomCommands)
      ensures handled ==>
        var f := ScaleFrame(old(lastScaleFactor), s, zoom);
        lastScaleFactor == f.lastScaleFactor && zoomCommands == old(zoomCommands) + ToSeq(f.command)
    {
      if camera.None? || isFromCamera {
        return false;
      }
      if lastScaleFactor == 0.0 || Sign(s) == Sign(lastScaleFactor) {
        zoomCommands := zoomCommands + [Commanded(zoom.value, s)];
        lastScaleFactor := s;
      } else {
        lastScaleFactor := 0.0;
      }
      handled := true;
    }
  }

  /**
   * Launch, resume, switch to the front camera, then pause and resume: the
   * back camera is bound while the flag still names the front one, so a pinch
   * is not handled.
   */
  method ResumeAfterSwitchScenario(s: real, zoom: ZoomState) returns (bound: Option<Facing>, flag: bool, handled: bool)
    ensures bound == Some(Back) && flag && !handled
  {
    var a := new MainActivity(IconAuto);
    a.OnCreate(true, true);
    a.OnResume(true);
    a.OnSwitchCamera(true);
    a.OnResume(true);
    handled := a.OnScale(s, Some(zoom));
    bound, flag := a.camera, a.isFromCamera;
  }

  /** The same events with the corrected onResume: the front camera stays bound and agrees with the flag. */
  method ResumeKeepingFacingScenario(s: real, zoom: ZoomState) returns (bound: Option<Facing>, flag: bool, handled: bool)
    ensures bound == Some(Front) && flag && !handled
  {
    var a := new MainActivity(IconAuto);
    a.OnCreate(true, true);
    a.OnResumeKeepingFacing(true);
    a.OnSwitchCamera(true);
    a.OnResumeKeepingFacing(true);
    handled := a.OnScale(s, Some(zoom));
    bound, flag := a.camera, a.isFromCamera;
  }

  /** Two presses of the switch button: the front camera, then the back camera again, each agreeing with the flag. */
  method SwitchTwiceScenario() returns (flags: seq<bool>, cameras: seq<Option<Facing>>)
    ensures flags == [false, true, false]
    ensures cameras == [Some(Back), Some(Front), Some(Back)]
  {
    var a := new MainActivity(IconAuto);
    a.OnCreate(true, true);
    flags, cameras := [a.isFromCamera], [a.camera];
    a.OnSwitchCamera(true);
    flags, cameras := flags + [a.isFromCamera], cameras + [a.camera];
    a.OnSwitchCamera(true);
    flags, cameras := flags + [a.isFromCamera], cameras + [a.camera];
  }

  /**
   * A pinch on the back camera: zooming in from 2.0 by 1.5 within [1.0, 8.0]
   * commands 3.0; a reversing frame then commands nothing and resets the factor.
   */
  method PinchScenario() returns (commands: seq<real>, last: real)
    ensures commands == [3.0] && last == 0.0
  {
    var a := new MainActivity(IconAuto);
    a.OnCreate(true, true);
    var handled := a.OnScale(1.5, Some(ZoomState(2.0, 1.0, 8.0)));
    assert handled && a.zoomCommands == [3.0] && a.lastScaleFactor == 1.5;
    handled := a.OnScale(-0.5, None);
    commands, last := a.zoomCommands, a.lastScaleFactor;
  }

  /** Three presses of the flash button after start-up go OFF, ON, AUTO, each with its icon. */
  method FlashScenario() returns (modes: seq<Option<FlashMode>>, icons: seq<FlashIcon>)
    ensures modes == [Some(Off), Some(On), Some(Auto)]
    ensures icons == [IconOff, IconOn, IconAuto]
  {
    var a := new MainActivity(IconOn);
    a.OnCreate(true, false);
    modes, icons := [], [];
    a.SetFlashMode();
    modes, icons := modes + [a.captureFlash], icons + [a.flashIcon];
    a.SetFlashMode();
    modes, icons := modes + [a.captureFlash], icons + [a.flashIcon];
    a.SetFlashMode();
    modes, icons := modes + [a.captureFlash], icons + [a.flashIcon];
  }
}
