# CameraX sample activity: a Dafny model of its decision logic

The app is a single-screen camera: a live preview, a capture button, a flash
button, a switch-camera button and pinch-to-zoom, all in `MainActivity`. Almost
everything it does is forwarded to the CameraX framework. This project models
the few decisions the activity makes itself, over the fields it keeps:

- **Pinch zoom** (`onScale`, module `Zoom`). A frame is ignored when no camera is
  bound or the front camera is active. Otherwise it is applied when no scale
  factor is remembered or the new factor has the remembered one's sign: the
  command `max(min, min(ratio * s, max))` goes to the camera and `s` is
  remembered. On a reversal of sign no command is sent and the remembered factor
  is forgotten. Ratios are exact reals.
- **Flash button** (`setFlashMode`, module `Flash`): ON -> AUTO -> OFF -> ON, with
  the button's icon set to match; `startCamera` forces AUTO.
- **Switch-camera button** (`initViews`, module `CameraFacing`): the
  `isFromCamera` flag is negated and the camera it names is started.
- **The activity** (module `CameraApp`): class `MainActivity` with the fields
  `imageCapture` (as its flash mode, or none), the flash icon, `camera` (as the
  facing of the Camera last returned by a bind, or none), `isFromCamera` and `lastScaleFactor`.
  The camera framework appears as the zoom commands and photo captures issued
  (two logs), the zoom state read from it (a parameter), and whether a bind
  succeeded (a parameter).

Across frames (`Zoom.RunPinch`) the camera is taken to report each commanded
ratio as its current ratio before the next frame arrives. Under that assumption
the model proves three things. Every command lies in `[min, max]`. Two same-sign
frames compose as two clamps. Dropped frames are never adjacent, so at least half
the frames of a gesture issue a command.

A missing zoom state is not skipped: the applying branch dereferences it with
`!!` (MainActivity.kt:186), so `OnScale` requires it exactly when that branch is
taken. `lastScaleFactor` is never reset on a camera switch, on resume or at the
end of a gesture (`onScaleEnd` is empty), and the model does not reset it
either.

## Model

| member | source | states |
|---|---|---|
| `Zoom.Sign` | app/src/main/java/com/example/camerax/MainActivity.kt:183 | `sign` of a factor: 0 exactly for 0, 1 exactly for a positive factor, -1 exactly for a negative one |
| `Zoom.ClampZoom` | app/src/main/java/com/example/camerax/MainActivity.kt:185-187 | the result is never below `min`, not above `max` when `min <= max`, equals `ratio*s` inside the bounds, and is `min` (below) or `max` (above) outside them |
| `Zoom.Commanded` | app/src/main/java/com/example/camerax/MainActivity.kt:178-187 | the ratio commanded from the zoom state is at least `minZoomRatio` and at most `maxZoomRatio` when those are ordered |
| `Zoom.ScaleFrame` | app/src/main/java/com/example/camerax/MainActivity.kt:182-192 | a command is issued exactly when the remembered factor is 0 or has the new factor's sign; it lies within the bounds; an applied frame remembers `s`, a dropped one had a nonzero factor and resets it to 0 |
| `Zoom.Continues` | app/src/main/java/com/example/camerax/MainActivity.kt:183 | a frame is applied exactly when the remembered factor is 0, or both it and the new factor are positive, or both are negative |
| `Zoom.ContinuesIffSameDirection` | app/src/main/java/com/example/camerax/MainActivity.kt:183 | the sign test holds exactly when the remembered factor is 0 or its product with the new factor is positive |
| `Zoom.ResetThenApplies` | app/src/main/java/com/example/camerax/MainActivity.kt:183-191 | after a dropped frame the next frame is applied, whatever its factor |
| `Zoom.RunPinchExtends` | app/src/main/java/com/example/camerax/MainActivity.kt:182-192 | a sequence of frames only appends zoom commands and never changes the bounds |
| `Zoom.RunPinchKeepsRange` | app/src/main/java/com/example/camerax/MainActivity.kt:178-192 | starting within bounds, every command a gesture issues and the ratio it ends at lie in `[min, max]` |
| `Zoom.RunPinchIssuesHalf` | app/src/main/java/com/example/camerax/MainActivity.kt:182-192 | a gesture of n frames issues at least n/2 commands, at least (n+1)/2 from a zero factor: dropped frames are never adjacent |
| `Zoom.SameSignPair` | app/src/main/java/com/example/camerax/MainActivity.kt:182-189 | two consecutive applied frames of equal sign end at the clamp of the first command times `s2`, issue both commands and remember `s2` |
| `Zoom.ReversalDrops` | app/src/main/java/com/example/camerax/MainActivity.kt:182-192 | an applied frame followed by a nonzero frame of opposite sign issues one command only, resets the factor to 0, and the third frame is applied |
| `Zoom.ZoomScenarios` | app/src/main/java/com/example/camerax/MainActivity.kt:182-192 | ratio 2 in [1, 8] with s=1.5 commands 3 and remembers 1.5; ratio 1 in [1, 10] with s=100 commands 10; factor 1.5 then -0.5 commands nothing and resets to 0 |
| `Flash.IconOf` | app/src/main/java/com/example/camerax/MainActivity.kt:145-151 | the drawable for a mode: the AUTO icon exactly for AUTO, the ON icon exactly for ON, the OFF icon exactly for OFF (also the AUTO icon set at line 100) |
| `Flash.IconOfInjective` | app/src/main/java/com/example/camerax/MainActivity.kt:144-155 | distinct flash modes have distinct icons, so the button's icon determines the mode |
| `Flash.NextMode` | app/src/main/java/com/example/camerax/MainActivity.kt:144-153 | one press always changes the mode |
| `Flash.CycleOfThree` | app/src/main/java/com/example/camerax/MainActivity.kt:144-153 | one or two presses change the mode and three presses restore it |
| `Flash.PressesPeriod` | app/src/main/java/com/example/camerax/MainActivity.kt:144-153 | the mode after n presses depends only on n modulo 3 |
| `Flash.EveryModeWithinTwoPresses` | app/src/main/java/com/example/camerax/MainActivity.kt:144-153 | from any mode, every mode is reached in at most two presses |
| `CameraFacing.SelectorFor` | app/src/main/java/com/example/camerax/MainActivity.kt:78-84 | the front camera is selected exactly when `isFromCamera` is true |
| `CameraFacing.SwitchPressesParity` | app/src/main/java/com/example/camerax/MainActivity.kt:75-85 | after n presses the flag is unchanged for even n and negated for odd n, and the selected camera is the original one exactly for even n |
| `CameraApp.MainActivity.constructor` | app/src/main/java/com/example/camerax/MainActivity.kt:32-35 | no ImageCapture, no camera, back facing, no remembered factor, nothing issued |
| `CameraApp.MainActivity.StartCamera` | app/src/main/java/com/example/camerax/MainActivity.kt:88-112 | the flash becomes AUTO if an ImageCapture exists and the icon AUTO in any case; a successful bind records the selector, a failed one leaves `camera` as it was |
| `CameraApp.MainActivity.InitViews` | app/src/main/java/com/example/camerax/MainActivity.kt:59-66 | a new ImageCapture ends in AUTO with the AUTO icon and the back camera is bound on success |
| `CameraApp.MainActivity.OnCreate` | app/src/main/java/com/example/camerax/MainActivity.kt:45-57 | with the permission granted the views are initialised; without it nothing modelled changes |
| `CameraApp.MainActivity.OnResume` | app/src/main/java/com/example/camerax/MainActivity.kt:201-204 | the back camera is bound on success and `isFromCamera` is left unchanged |
| `CameraApp.MainActivity.OnResumeKeepingFacing` | app/src/main/java/com/example/camerax/MainActivity.kt:201-204 | corrected onResume: the camera the flag names is bound, so on success flag and camera agree |
| `CameraApp.MainActivity.OnSwitchCamera` | app/src/main/java/com/example/camerax/MainActivity.kt:75-85 | the flag is negated, the camera it now names is bound on success (flag and camera agree), and the flash is reset to AUTO |
| `CameraApp.MainActivity.SetFlashMode` | app/src/main/java/com/example/camerax/MainActivity.kt:141-156 | the mode steps ON->AUTO->OFF->ON and the icon shows the new mode; with no ImageCapture the mode stays absent and the ON icon is shown |
| `CameraApp.MainActivity.TakePhoto` | app/src/main/java/com/example/camerax/MainActivity.kt:114-125 | no capture is started without an ImageCapture; otherwise exactly one, with the current flash mode |
| `CameraApp.MainActivity.OnScale` | app/src/main/java/com/example/camerax/MainActivity.kt:175-194 | returns false and changes nothing when no camera is bound or the front camera is active; otherwise returns true and issues the frame's command (if any) and remembers its factor, as `ScaleFrame` says |
| `CameraApp.ResumeAfterSwitchScenario` | app/src/main/java/com/example/camerax/MainActivity.kt:201-204 | after switching to the front camera and resuming, the back camera is bound, the flag still says front, and a pinch is not handled |
| `CameraApp.ResumeKeepingFacingScenario` | app/src/main/java/com/example/camerax/MainActivity.kt:201-204 | with the corrected onResume the same events leave the front camera bound, in agreement with the flag |
| `CameraApp.SwitchTwiceScenario` | app/src/main/java/com/example/camerax/MainActivity.kt:75-85 | from start-up, two presses of the switch button bind the front camera with the flag true, then the back camera with the flag false again |
| `CameraApp.PinchScenario` | app/src/main/java/com/example/camerax/MainActivity.kt:175-194 | on the back camera, 2.0 zoomed by 1.5 in [1, 8] commands 3.0; a reversing frame then issues nothing and resets the factor to 0 |
| `CameraApp.FlashScenario` | app/src/main/java/com/example/camerax/MainActivity.kt:141-156 | after start-up three presses give OFF, ON, AUTO with the matching icons |

## Left out

- CameraX binding (`unbindAll`, `bindToLifecycle`, the provider future and its `cancel(true)` calls): reduced to a `bindOk` input and the facing of the returned camera, because their behaviour lives in the framework.
- The asynchrony of `startCamera`: its listener is posted to the main executor; the model runs it at once, since everything runs on the main thread.
- `onPause` and `onDestroy`: they only cancel an already completed future and shut down the unused executor; no modelled field changes.
- Runtime permissions: the dialog and `allPermissionsGranted` become the `permissionsGranted` input of `OnCreate`.
- Photo capture results, the output directory, timestamped file names, toasts and logging: I/O and clock; `TakePhoto` records only that a capture started.
- `onTouch`, `ScaleGestureDetector`, `onScaleBegin` and `onScaleEnd`: the scale factor is an input of `OnScale`.
- IEEE-754 float rounding and NaN in `zoomRatio * scaleFactor` and `sign`: ratios and factors are exact reals.
- The `!!` failure on an absent zoom state: a precondition of `OnScale` instead of an exception.
- `backCameraInfo = availableCameraInfos[0]` is taken to be the back camera; its zoom state is the `zoom` input of `OnScale`.
- `Zoom.RunPinch` assumes the camera reports each commanded ratio before the next frame; the framework may lag.
- A failed bind leaves the last returned Camera in `camera` although it is no longer bound, so the guard of `OnScale` still passes and a zoom command can go to that stale camera; `zoomCommands` does not record which camera a command reaches.
- Registering click listeners: the handlers are methods called directly.
- The flash button's initial icon comes from the layout file, which is not part of this model; it is the constructor's `layoutIcon` input.
- Constants.kt: constants only, no behaviour.

## Findings

| source | as written | input that shows it | evidently intended | confidence | as-written member | corrected member |
|---|---|---|---|---|---|---|
| app/src/main/java/com/example/camerax/MainActivity.kt:201-204 | `onResume` calls `initViews`, which always starts the back camera and leaves `isFromCamera` unchanged | launch, press switch camera (front), leave the app and return: the back camera is shown, `isFromCamera` is still true, so pinch zoom is ignored and the next switch press starts the back camera again | the bound camera and `isFromCamera` agree after resuming | medium, not executed | `CameraApp.ResumeAfterSwitchScenario` | `CameraApp.MainActivity.OnResumeKeepingFacing` |
