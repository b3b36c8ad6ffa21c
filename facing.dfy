/** Which camera MainActivity shows, and the switch button that toggles it. */
module CameraFacing {

  /** CameraSelector.DEFAULT_BACK_CAMERA and CameraSelector.DEFAULT_FRONT_CAMERA. */
  datatype Facing = Back | Front

  /** The selector that goes with the `isFromCamera` flag. */
  function SelectorFor(isFromCamera: bool): (f: Facing)
    ensures f == Front <==> isFromCamera
  {
    if isFromCamera then Front else Back
  }

  /** The flag after `n` presses of the switch button. */
  function SwitchPresses(isFromCamera: bool, n: nat): (r: bool)
    decreases n
  {
    if n == 0 then isFromCamera else SwitchPresses(!isFromCamera, n - 1)
  }

  /** An even number of presses restores the facing, an odd number changes it. */
  lemma {:induction false} SwitchPressesParity(isFromCamera: bool, n: nat)
    ensures SwitchPresses(isFromCamera, n) == (if n % 2 == 0 then isFromCamera else !isFromCamera)
    ensures SelectorFor(SwitchPresses(isFromCamera, n)) == SelectorFor(isFromCamera) <==> n % 2 == 0
    decreases n
  {
    if n > 0 {
      SwitchPressesParity(!isFromCamera, n - 1);
    }
  }
}
