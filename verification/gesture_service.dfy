/**
 * The web service's gesture service (internal/api/service.go): starting and
 * stopping it, the choice of keyboard and mouse, the single-slot mailbox for
 * configuration updates and one iteration of its gesture loop.
 *
 * Creating the virtual pad, listing the devices and opening the device
 * files are system calls; their outcomes are parameters. The goroutines the
 * service starts (the loop, the health check, the monitor callback) are
 * modelled by the methods a scheduler would run: the loop's iteration and
 * its exit.
 */
module Service {
  import opened Wrappers
  import opened Strings
  import opened Devices
  import Settings
  import Gesture
  import Int32

  datatype StartError = AlreadyRunning | PadFailed | ListFailed | NoMouse | NoKeyboard | MouseOpenFailed | KeyboardOpenFailed

  /** A device handle field: never assigned, or holding a file that is open or has been closed. */
  datatype Handle = NoHandle | Open | Closed

  // --------------------------------------------------------- device choice

  /** A device of the kind whose name contains a non-empty preference. */
  predicate Preferred(d: Device, kind: DeviceType, pref: string) {
    d.kind == kind && pref != "" && Contains(d.name, pref)
  }

  function FirstOfKind(ds: seq<Device>, kind: DeviceType): Option<Device> {
    if ds == [] then None
    else
      var earlier := FirstOfKind(ds[..|ds| - 1], kind);
      if earlier.Some? then earlier
      else if ds[|ds| - 1].kind == kind then Some(ds[|ds| - 1])
      else None
  }

  function LastPreferred(ds: seq<Device>, kind: DeviceType, pref: string): Option<Device> {
    if ds == [] then None
    else if Preferred(ds[|ds| - 1], kind, pref) then Some(ds[|ds| - 1])
    else LastPreferred(ds[..|ds| - 1], kind, pref)
  }

  /** The device Start uses for a kind: the last preferred one, else the first of the kind. */
  function Choose(ds: seq<Device>, kind: DeviceType, pref: string): Option<Device> {
    var p := LastPreferred(ds, kind, pref);
    if p.Some? then p else FirstOfKind(ds, kind)
  }

  /** The selection loop of Start. */
  method SelectDevices(ds: seq<Device>, prefKeyboard: string, prefMouse: string)
    returns (mouse: Option<Device>, keyboard: Option<Device>)
    ensures mouse == Choose(ds, Mouse, prefMouse)
    ensures keyboard == Choose(ds, Keyboard, prefKeyboard)
  {
    var firstMouse: Option<Device> := None;
    var firstKeyboard: Option<Device> := None;
    mouse, keyboard := None, None;
    var i := 0;
    while i < |ds|
      invariant 0 <= i <= |ds|
      invariant firstMouse == FirstOfKind(ds[..i], Mouse) && mouse == LastPreferred(ds[..i], Mouse, prefMouse)
      invariant firstKeyboard == FirstOfKind(ds[..i], Keyboard) && keyboard == LastPreferred(ds[..i], Keyboard, prefKeyboard)
    {
      var d := ds[i];
      assert ds[..i + 1][..i] == ds[..i];
      if d.kind == Mouse {
        if firstMouse.None? {
          firstMouse := Some(d);
        }
        if prefMouse != "" && Contains(d.name, prefMouse) {
          mouse := Some(d);
        }
      } else if d.kind == Keyboard {
        if firstKeyboard.None? {
          firstKeyboard := Some(d);
        }
        if prefKeyboard != "" && Contains(d.name, prefKeyboard) {
          keyboard := Some(d);
        }
      }
      i := i + 1;
    }
    assert ds[..i] == ds;
    if mouse.None? {
      mouse := firstMouse;
    }
    if keyboard.None? {
      keyboard := firstKeyboard;
    }
  }

  /** The first device of a kind: some device of that kind, none of which comes earlier. */
  lemma {:induction false} FirstOfKindIndex(ds: seq<Device>, kind: DeviceType)
    ensures FirstOfKind(ds, kind).None? <==> forall i :: 0 <= i < |ds| ==> ds[i].kind != kind
    ensures FirstOfKind(ds, kind).Some? ==>
      exists i :: 0 <= i < |ds| && ds[i] == FirstOfKind(ds, kind).value && ds[i].kind == kind &&
        forall j :: 0 <= j < i ==> ds[j].kind != kind
  {
    if ds != [] {
      var init := ds[..|ds| - 1];
      FirstOfKindIndex(init, kind);
      assert forall i :: 0 <= i < |init| ==> ds[i] == init[i];
      if FirstOfKind(init, kind).Some? {
        var i :| 0 <= i < |init| && init[i] == FirstOfKind(init, kind).value && init[i].kind == kind &&
          forall j :: 0 <= j < i ==> init[j].kind != kind;
        assert ds[i] == FirstOfKind(ds, kind).value;
      }
    }
  }

  /** The preferred device chosen is a match of the kind, and no later device matches. */
  lemma {:induction false} LastPreferredIndex(ds: seq<Device>, kind: DeviceType, pref: string)
    ensures LastPreferred(ds, kind, pref).None? <==> forall i :: 0 <= i < |ds| ==> !Preferred(ds[i], kind, pref)
    ensures LastPreferred(ds, kind, pref).Some? ==>
      exists i :: 0 <= i < |ds| && ds[i] == LastPreferred(ds, kind, pref).value && Preferred(ds[i], kind, pref) &&
        forall j :: i < j < |ds| ==> !Preferred(ds[j], kind, pref)
  {
    if ds != [] {
      var init := ds[..|ds| - 1];
      LastPreferredIndex(init, kind, pref);
      assert forall i :: 0 <= i < |init| ==> ds[i] == init[i];
      if !Preferred(ds[|ds| - 1], kind, pref) && LastPreferred(init, kind, pref).Some? {
        var i :| 0 <= i < |init| && init[i] == LastPreferred(init, kind, pref).value && Preferred(init[i], kind, pref) &&
          forall j :: i < j < |init| ==> !Preferred(init[j], kind, pref);
        assert ds[i] == LastPreferred(ds, kind, pref).value;
      }
    }
  }

  /** An empty preference matches nothing, so the first device of the kind is used. */
  lemma {:induction false} EmptyPreferenceUsesFirst(ds: seq<Device>, kind: DeviceType)
    ensures Choose(ds, kind, "") == FirstOfKind(ds, kind)
  {
    LastPreferredIndex(ds, kind, "");
  }

  /** A kind is left unchosen exactly when no device of that kind was listed. */
  lemma ChooseFindsKind(ds: seq<Device>, kind: DeviceType, pref: string)
    ensures Choose(ds, kind, pref).None? <==> forall i :: 0 <= i < |ds| ==> ds[i].kind != kind
    ensures Choose(ds, kind, pref).Some? ==> Choose(ds, kind, pref).value in ds && Choose(ds, kind, pref).value.kind == kind
  {
    FirstOfKindIndex(ds, kind);
    LastPreferredIndex(ds, kind, pref);
  }

  /** The outcome of Start on a service that is not running, in the order the source checks. */
  function StartOutcome(padOk: bool, listing: Scan, prefKeyboard: string, prefMouse: string,
                        mouseOpens: bool, keyboardOpens: bool): Option<StartError>
  {
    if !padOk then Some(PadFailed)
    else if listing.ScanFailed? then Some(ListFailed)
    else if Choose(listing.devices, Mouse, prefMouse).None? then Some(NoMouse)
    else if Choose(listing.devices, Keyboard, prefKeyboard).None? then Some(NoKeyboard)
    else if !mouseOpens then Some(MouseOpenFailed)
    else if !keyboardOpens then Some(KeyboardOpenFailed)
    else None
  }

  /** The mouse is looked for before the keyboard: with neither listed, Start reports the mouse. */
  lemma MouseCheckedFirst(ds: seq<Device>, prefKeyboard: string, prefMouse: string, mouseOpens: bool, keyboardOpens: bool)
    requires forall i :: 0 <= i < |ds| ==> ds[i].kind != Mouse && ds[i].kind != Keyboard
    ensures StartOutcome(true, Scanned(ds), prefKeyboard, prefMouse, mouseOpens, keyboardOpens) == Some(NoMouse)
  {
    ChooseFindsKind(ds, Mouse, prefMouse);
  }

  // --------------------------------------------------------------- service

  class GestureService {
    var cfg: Settings.Config
    var running: bool
    var reconnectOnDisconnect: bool
    /** The configuration channel; its buffer holds one value. */
    var pending: seq<Settings.Config>
    var keyboardDevice: Option<Device>
    var mouseDevice: Option<Device>
    var pad: Handle
    var mouse: Handle
    var keyboard: Handle

    ghost predicate Valid()
      reads this
    {
      |pending| <= 1 &&
      (running ==> pad == Open && mouse == Open && keyboard == Open && mouseDevice.Some? && keyboardDevice.Some?)
    }

    /** NewGestureService. */
    constructor (c: Settings.Config)
      ensures Valid()
      ensures cfg == c && !running && reconnectOnDisconnect && pending == []
      ensures keyboardDevice.None? && mouseDevice.None? && pad == NoHandle && mouse == NoHandle && keyboard == NoHandle
    {
      cfg := c;
      running := false;
      reconnectOnDisconnect := true;
      pending := [];
      keyboardDevice, mouseDevice := None, None;
      pad, mouse, keyboard := NoHandle, NoHandle, NoHandle;
    }

    /**
     * Start, given whether the pad could be created, what GetDevices
     * returned and whether each device file opens. Every failure after the
     * pad exists closes it; a keyboard that fails to open also closes the
     * mouse; only full success sets running.
     */
    method Start(padOk: bool, listing: Scan, mouseOpens: bool, keyboardOpens: bool) returns (err: Option<StartError>)
      requires Valid()
      modifies this
      ensures Valid()
      ensures cfg == old(cfg) && pending == old(pending) && reconnectOnDisconnect == old(reconnectOnDisconnect)
      ensures old(running) ==>
        (err == Some(AlreadyRunning) && running &&
         pad == old(pad) && mouse == old(mouse) && keyboard == old(keyboard) &&
         mouseDevice == old(mouseDevice) && keyboardDevice == old(keyboardDevice))
      ensures !old(running) ==>
        (err == StartOutcome(padOk, listing, cfg.preferredKeyboard, cfg.preferredMouse, mouseOpens, keyboardOpens) &&
         (running <==> err.None?))
      ensures err.None? ==>
        mouseDevice == Choose(listing.devices, Mouse, cfg.preferredMouse) &&
        keyboardDevice == Choose(listing.devices, Keyboard, cfg.preferredKeyboard)
      ensures err == Some(PadFailed) ==> pad == old(pad) && !running
      ensures err.Some? && err != Some(PadFailed) && err != Some(AlreadyRunning) ==> pad == Closed
      ensures err == Some(KeyboardOpenFailed) ==> mouse == Closed
    {
      if running {
        return Some(AlreadyRunning);
      }
      if !padOk {
        return Some(PadFailed);
      }
      pad := Open;
      if listing.ScanFailed? {
        pad := Closed;
        return Some(ListFailed);
      }
      var m, k := SelectDevices(listing.devices, cfg.preferredKeyboard, cfg.preferredMouse);
      if m.None? {
        pad := Closed;
        return Some(NoMouse);
      }
      if k.None? {
        pad := Closed;
        return Some(NoKeyboard);
      }
      keyboardDevice, mouseDevice := k, m;
      if !mouseOpens {
        pad := Closed;
        return Some(MouseOpenFailed);
      }
      mouse := Open;
      if !keyboardOpens {
        pad := Closed;
        mouse := Closed;
        return Some(KeyboardOpenFailed);
      }
      keyboard := Open;
      running := true;
      err := None;
    }

    /** Stop: fails on a service that is not running; otherwise clears running and auto-reconnect. */
    method Stop() returns (ok: bool)
      requires Valid()
      modifies this
      ensures Valid()
      ensures ok <==> old(running)
      ensures ok ==> !running && !reconnectOnDisconnect
      ensures !ok ==> running == old(running) && reconnectOnDisconnect == old(reconnectOnDisconnect)
      ensures cfg == old(cfg) && pending == old(pending)
      ensures pad == old(pad) && mouse == old(mouse) && keyboard == old(keyboard)
      ensures mouseDevice == old(mouseDevice) && keyboardDevice == old(keyboardDevice)
    {
      if !running {
        return false;
      }
      reconnectOnDisconnect := false;
      running := false;
      ok := true;
    }

    /** UpdateConfig: a full buffer is emptied first, so the newest configuration is the only one pending. */
    method UpdateConfig(c: Settings.Config)
      requires Valid()
      modifies this`pending
      ensures Valid()
      ensures pending == [c]
    {
      if |pending| < 1 {
        pending := pending + [c];
      } else {
        if |pending| > 0 {
          pending := pending[1..];
        }
        pending := pending + [c];
      }
    }

    /** getCfg in the loop: adopts a pending configuration if there is one. */
    method TakeConfig() returns (c: Settings.Config)
      requires Valid()
      modifies this`cfg, this`pending
      ensures Valid()
      ensures pending == []
      ensures old(pending) == [] ==> c == old(cfg)
      ensures old(pending) != [] ==> c == old(pending)[0]
      ensures cfg == c
    {
      if |pending| > 0 {
        cfg := pending[0];
        pending := pending[1..];
      }
      c := cfg;
    }

    /**
     * One pass of runGestureLoop after a stop check that found no request:
     * take the newest configuration, then run the tracker's step with its
     * keys, pad bounds and reset threshold on the filtered motion.
     */
    method LoopIteration(tracker: Gesture.FingerTracker, pk: int, dx: int, dy: int, now: int)
      requires Valid() && tracker.Valid()
      modifies this`cfg, this`pending, tracker, tracker.fingers
      ensures Valid() && tracker.Valid()
      ensures pending == [] && (old(pending) != [] ==> cfg == old(pending)[0]) && (old(pending) == [] ==> cfg == old(cfg))
      ensures var present := keyboard != NoHandle && mouse != NoHandle;
        var keys := Gesture.Keys(Int32.Wrap(cfg.twoFingerKey), Int32.Wrap(cfg.fourFingerKey));
        var b := Gesture.Bounds(cfg.minX, cfg.maxX, cfg.minY, cfg.maxY);
        (!present ==> tracker.State() == old(tracker.State())) &&
        (present ==>
          tracker.lastScrollTime == now &&
          var idle := now - old(tracker.lastScrollTime) > cfg.resetThreshold && old(tracker.fingerCount) > 0;
          var st := if idle then Gesture.ResetSpec(old(tracker.State()), Gesture.ServiceCenter(b)) else old(tracker.State());
          tracker.State() == Gesture.SwitchSpec(st, pk, dx, dy, keys, b, Gesture.ServiceCenter(b)))
    {
      var c := TakeConfig();
      tracker.ServiceStep(keyboard != NoHandle && mouse != NoHandle, pk, dx, dy, now, c.resetThreshold,
        Gesture.Keys(c.twoFingerKey, c.fourFingerKey), Gesture.Bounds(c.minX, c.maxX, c.minY, c.maxY));
    }

    /** The deferred clean-up when the loop returns: every handle that was assigned is closed. */
    method LoopExit()
      requires Valid() && !running
      modifies this`pad, this`mouse, this`keyboard
      ensures Valid()
      ensures pad == (if old(pad) == NoHandle then NoHandle else Closed)
      ensures mouse == (if old(mouse) == NoHandle then NoHandle else Closed)
      ensures keyboard == (if old(keyboard) == NoHandle then NoHandle else Closed)
    {
      if pad != NoHandle {
        pad := Closed;
      }
      if mouse != NoHandle {
        mouse := Closed;
      }
      if keyboard != NoHandle {
        keyboard := Closed;
      }
    }
  }
}
