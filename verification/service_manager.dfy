/**
 * The desktop GUI's service panel (internal/gui/service_manager.go): the
 * Stopped / Running / Error status, the start/stop button, the device setup
 * of the service loop, one iteration of the gesture loop and the gesture
 * monitor's text. The loop runs in its own goroutine; here each of its
 * steps is a method a scheduler calls.
 */
module GuiService {
  import opened Wrappers
  import opened Devices
  import Gesture
  import Int32
  import GuiConfig
  import Service

  datatype Status = Stopped | Running | Error

  datatype SetupError = PadFailed | NoKeyboardSelected | NoMouseSelected | MouseOpenFailed | KeyboardOpenFailed

  datatype Direction = Right | Left | Down | Up

  /** What the gesture monitor shows. */
  datatype Display = NoGesture | Swipe(fingers: nat, direction: Direction, dx: int, dy: int)

  /** UpdateGestureDisplay's choice of arrow, with abs in int32. */
  function DirectionOf(dx: int, dy: int): Direction
    requires Int32.InRange(dx) && Int32.InRange(dy)
  {
    if Int32.Abs(dx) > Int32.Abs(dy) then (if dx > 0 then Right else Left)
    else (if dy > 0 then Down else Up)
  }

  /**
   * For motions away from the int32 minimum the arrow follows the larger
   * component: horizontal exactly when |dx| > |dy| (ties go vertical), and
   * the sign of that component picks the way.
   */
  lemma DirectionFollowsDominantAxis(dx: int, dy: int)
    requires Int32.InRange(dx) && Int32.InRange(dy) && dx != Int32.Min && dy != Int32.Min
    ensures var horizontal := (if dx < 0 then -dx else dx) > (if dy < 0 then -dy else dy);
      (DirectionOf(dx, dy) == Right <==> horizontal && dx > 0) &&
      (DirectionOf(dx, dy) == Left <==> horizontal && dx <= 0) &&
      (DirectionOf(dx, dy) == Down <==> !horizontal && dy > 0) &&
      (DirectionOf(dx, dy) == Up <==> !horizontal && dy <= 0)
  {
    assert Int32.Abs(dx) == (if dx < 0 then -dx else dx);
    assert Int32.Abs(dy) == (if dy < 0 then -dy else dy);
  }

  /** abs(-2^31) overflows to a negative value, so a motion of -2^31 along x is shown as vertical. */
  lemma MinimumMotionShownVertical(dy: int)
    requires Int32.InRange(dy) && dy >= 0
    ensures DirectionOf(Int32.Min, dy) == (if dy > 0 then Down else Up)
  {
    assert Int32.Abs(Int32.Min) == Int32.Min;
  }

  /**
   * The loop's reset threshold, time.Duration(ms) * time.Millisecond: a
   * product of int64 values, so it wraps modulo 2^64 when the setting is
   * too large for nanoseconds to fit.
   */
  function ThresholdNanos(ms: int): (d: int)
    ensures -0x8000_0000_0000_0000 <= d <= 0x7FFF_FFFF_FFFF_FFFF
    ensures (d - ms * 1_000_000) % 0x1_0000_0000_0000_0000 == 0
    ensures -0x8000_0000_0000_0000 <= ms * 1_000_000 <= 0x7FFF_FFFF_FFFF_FFFF ==> d == ms * 1_000_000
  {
    (ms * 1_000_000 + 0x8000_0000_0000_0000) % 0x1_0000_0000_0000_0000 - 0x8000_0000_0000_0000
  }

  class ServiceManager {
    var status: Status
    var pad: Service.Handle
    var mouse: Service.Handle
    var keyboard: Service.Handle
    /** How many service loops have been launched. */
    var launches: nat
    var display: Display

    /** NewServiceManager. */
    constructor ()
      ensures status == Stopped && launches == 0 && display == NoGesture
      ensures pad == Service.NoHandle && mouse == Service.NoHandle && keyboard == Service.NoHandle
    {
      status := Stopped;
      pad, mouse, keyboard := Service.NoHandle, Service.NoHandle, Service.NoHandle;
      launches := 0;
      display := NoGesture;
    }

    /** StartService: from Stopped or Error, set Running and launch the loop; while Running, nothing. */
    method StartService()
      modifies this`status, this`launches
      ensures old(status) == Running ==> status == Running && launches == old(launches)
      ensures old(status) != Running ==> status == Running && launches == old(launches) + 1
    {
      if status == Running {
        return;
      }
      status := Running;
      launches := launches + 1;
    }

    /** StopService: only from Running; sets Stopped and closes and forgets the three handles. */
    method StopService()
      modifies this`status, this`pad, this`mouse, this`keyboard
      ensures old(status) != Running ==>
        (status == old(status) && pad == old(pad) && mouse == old(mouse) && keyboard == old(keyboard))
      ensures old(status) == Running ==>
        (status == Stopped && pad == Service.NoHandle && mouse == Service.NoHandle && keyboard == Service.NoHandle)
    {
      if status != Running {
        return;
      }
      status := Stopped;
      pad, mouse, keyboard := Service.NoHandle, Service.NoHandle, Service.NoHandle;
    }

    /** The start/stop button: Stop when Running, Start for every other status. */
    method Toggle()
      modifies this`status, this`launches, this`pad, this`mouse, this`keyboard
      ensures old(status) == Running ==> status == Stopped && launches == old(launches)
      ensures old(status) != Running ==> status == Running && launches == old(launches) + 1
    {
      if status == Running {
        StopService();
      } else {
        StartService();
      }
    }

    /** The launched goroutine's error handler: a loop that returns an error sets Error. */
    method LoopFailed()
      modifies this`status
      ensures status == Error
    {
      status := Error;
    }

    /**
     * runServiceLoop up to the gesture loop: create the pad, check both
     * selections (keyboard first), open the mouse, then the keyboard. A
     * failure returns without closing what was already opened.
     */
    method SetupDevices(padOk: bool, keyboardSel: Option<Device>, mouseSel: Option<Device>, mouseOpens: bool, keyboardOpens: bool)
      returns (err: Option<SetupError>)
      modifies this`pad, this`mouse, this`keyboard
      ensures pad == (if padOk then Service.Open else Service.NoHandle)
      ensures err == (if !padOk then Some(PadFailed)
                      else if keyboardSel.None? then Some(NoKeyboardSelected)
                      else if mouseSel.None? then Some(NoMouseSelected)
                      else if !mouseOpens then Some(MouseOpenFailed)
                      else if !keyboardOpens then Some(KeyboardOpenFailed)
                      else None)
      ensures err.None? ==> pad == Service.Open && mouse == Service.Open && keyboard == Service.Open
      ensures err == Some(MouseOpenFailed) ==> mouse == Service.NoHandle && keyboard == old(keyboard)
      ensures err == Some(KeyboardOpenFailed) ==> mouse == Service.Open && keyboard == Service.NoHandle
      ensures err.Some? && err != Some(MouseOpenFailed) && err != Some(KeyboardOpenFailed) ==>
        mouse == old(mouse) && keyboard == old(keyboard)
    {
      if !padOk {
        pad := Service.NoHandle;
        return Some(PadFailed);
      }
      pad := Service.Open;
      if keyboardSel.None? {
        return Some(NoKeyboardSelected);
      }
      if mouseSel.None? {
        return Some(NoMouseSelected);
      }
      if !mouseOpens {
        mouse := Service.NoHandle;
        return Some(MouseOpenFailed);
      }
      mouse := Service.Open;
      if !keyboardOpens {
        keyboard := Service.NoHandle;
        return Some(KeyboardOpenFailed);
      }
      keyboard := Service.Open;
      err := None;
    }

    /**
     * One pass of gestureLoop on the filtered motion (dx, dy): the monitor
     * shows the motion with the finger count before the step whenever there
     * is motion, and the tracker takes the GUI step with the settings' keys
     * and reset threshold.
     */
    method LoopIteration(tracker: Gesture.FingerTracker, cfg: GuiConfig.Config, pk: int, dx: int, dy: int, now: int)
      requires tracker.Valid() && Int32.InRange(dx) && Int32.InRange(dy)
      modifies this`display, tracker, tracker.fingers
      ensures tracker.Valid()
      ensures display == if dx != 0 || dy != 0 then Swipe(old(tracker.fingerCount), DirectionOf(dx, dy), dx, dy) else old(display)
      ensures tracker.lastScrollTime == if pk != 0 || dx != 0 || dy != 0 then now else old(tracker.lastScrollTime)
      ensures var idle := now - old(tracker.lastScrollTime) > ThresholdNanos(cfg.resetThresholdMs) && old(tracker.fingerCount) > 0;
        var st := if idle then Gesture.ResetSpec(old(tracker.State()), Gesture.GuiCenter) else old(tracker.State());
        var keys := Gesture.Keys(Int32.Wrap(cfg.twoFingerKey), Int32.Wrap(cfg.fourFingerKey));
        tracker.State() == Gesture.SwitchSpec(st, pk, dx, dy, keys, Gesture.GuiBounds, Gesture.GuiCenter)
    {
      var shown := tracker.GuiStep(pk, dx, dy, now, ThresholdNanos(cfg.resetThresholdMs),
        Gesture.Keys(cfg.twoFingerKey, cfg.fourFingerKey));
      if shown.Some? {
        display := Swipe(shown.value.0, DirectionOf(dx, dy), dx, dy);
      }
    }
  }
}
