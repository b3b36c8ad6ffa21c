/**
 * The flash button of MainActivity: the ImageCapture flash modes, the icon the
 * button shows for each, and the cycle a press steps through.
 */
module Flash {

  /** ImageCapture's flash modes (FLASH_MODE_AUTO, FLASH_MODE_ON, FLASH_MODE_OFF). */
  datatype FlashMode = Auto | On | Off

  /** The flash button's background drawables (ic_flash_auto, ic_flash_on, ic_flash_off). */
  datatype FlashIcon = IconAuto | IconOn | IconOff

  /** The icon that shows a mode. */
  function IconOf(m: FlashMode): (i: FlashIcon)
    ensures i == IconAuto <==> m == Auto
    ensures i == IconOn <==> m == On
    ensures i == IconOff <==> m == Off
  {
    match m
    case Auto => IconAuto
    case On => IconOn
    case Off => IconOff
  }

  /** Different modes show different icons, so the icon tells the mode. */
  lemma IconOfInjective(a: FlashMode, b: FlashMode)
    ensures IconOf(a) == IconOf(b) ==> a == b
  {
  }

  /** The mode one press selects: ON goes to AUTO, AUTO to OFF, and anything else to ON. */
  function NextMode(m: FlashMode): (n: FlashMode)
    ensures n != m
  {
    if m == On then Auto
    else if m == Auto then Off
    else On
  }

  /** The mode after `n` presses. */
  function Presses(m: FlashMode, n: nat): (r: FlashMode)
    decreases n
  {
    if n == 0 then m else Presses(NextMode(m), n - 1)
  }

  /** The cycle has period exactly three: one or two presses change the mode, three restore it. */
  lemma CycleOfThree(m: FlashMode)
    ensures Presses(m, 1) != m && Presses(m, 2) != m
    ensures Presses(m, 3) == m
  {
  }

  /** Only the number of presses modulo three matters. */
  lemma {:induction false} PressesPeriod(m: FlashMode, n: nat)
    ensures Presses(m, n) == Presses(m, n % 3)
    decreases n
  {
    if n >= 3 {
      calc {
        Presses(m, n);
        Presses(NextMode(m), n - 1);
        Presses(NextMode(NextMode(m)), n - 2);
        Presses(NextMode(NextMode(NextMode(m))), n - 3);
        { CycleOfThree(m); }
        Presses(m, n - 3);
        { PressesPeriod(m, n - 3); }
        Presses(m, (n - 3) % 3);
      }
    }
  }

  /** From any mode, every mode is reached within two presses. */
  lemma EveryModeWithinTwoPresses(m: FlashMode, target: FlashMode)
    ensures exists k :: 0 <= k < 3 && Presses(m, k) == target
  {
    if Presses(m, 0) == target {
    } else if Presses(m, 1) == target {
    } else {
      assert Presses(m, 2) == target;
    }
  }
}
