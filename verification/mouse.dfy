/**
 * The physical mouse (internal/features/mouse.go): reading one relative
 * motion event per poll, and the exclusive grab that keeps the pointer still
 * while a gesture is in progress.
 */
module Mouse {
  import opened Evdev
  import Int32

  /** What `file.Read` into the event buffer produced. */
  datatype ReadResult = ReadFailed | ReadBytes(data: seq<byte>)

  /** The event buffer after a read: the bytes read, then the zeroes it was allocated with. */
  function Filled(data: seq<byte>): (buf: seq<byte>)
    requires |data| <= EventSize
    ensures |buf| == EventSize && buf[..|data|] == data
    ensures forall i :: |data| <= i < EventSize ==> buf[i] == 0
  {
    data + seq(EventSize - |data|, _ => 0)
  }

  /** GetMouseDelta: the motion reported by one read of the device. */
  function MouseDelta(read: ReadResult): (d: (int, int))
    requires read.ReadBytes? ==> |read.data| <= EventSize
    ensures Int32.InRange(d.0) && Int32.InRange(d.1)
    ensures d.0 == 0 || d.1 == 0
    ensures read.ReadFailed? ==> d == (0, 0)
  {
    match read
    case ReadFailed => (0, 0)
    case ReadBytes(data) =>
      var e := Decode(Filled(data));
      if e.evType == EvRel && e.code == RelX then (e.value, 0)
      else if e.evType == EvRel && e.code == RelY then (0, e.value)
      else (0, 0)
  }

  /** Reading back an event the kernel wrote: only REL_X and REL_Y move the pointer. */
  lemma DeltaOfEvent(e: InputEvent)
    requires Representable(e)
    ensures var d := MouseDelta(ReadBytes(Encode(e)));
      (e.evType == EvRel && e.code == RelX ==> d == (e.value, 0)) &&
      (e.evType == EvRel && e.code == RelY ==> d == (0, e.value)) &&
      (e.evType != EvRel || (e.code != RelX && e.code != RelY) ==> d == (0, 0))
  {
    DecodeEncode(e);
    assert Filled(Encode(e)) == Encode(e);
  }

  /** One EVIOCGRAB request: grab (argument 1) or release (argument 0), and whether it succeeded. */
  datatype GrabRequest = GrabRequest(grab: bool, succeeded: bool)

  /** Whether the kernel holds the exclusive grab after the requests in log. */
  function KernelGrabbed(log: seq<GrabRequest>): bool {
    if log == [] then false
    else if log[|log| - 1].succeeded then log[|log| - 1].grab
    else KernelGrabbed(log[..|log| - 1])
  }

  class VirtualMouse {
    var grabbed: bool
    var open: bool
    var requests: seq<GrabRequest>

    /** The `grabbed` flag always agrees with the kernel's grab state. */
    ghost predicate Valid()
      reads this
    {
      grabbed == KernelGrabbed(requests)
    }

    /** CreateMouse after a successful open. */
    constructor ()
      ensures Valid() && open && !grabbed && requests == []
    {
      grabbed := false;
      open := true;
      requests := [];
    }

    /** Grab: no request when already grabbed; otherwise the flag follows the ioctl's outcome. */
    method Grab(ioctlOk: bool) returns (ok: bool)
      requires Valid()
      modifies this
      ensures Valid() && open == old(open)
      ensures old(grabbed) ==> ok && grabbed && requests == old(requests)
      ensures !old(grabbed) ==>
        ok == ioctlOk && grabbed == ioctlOk && requests == old(requests) + [GrabRequest(true, ioctlOk)]
    {
      if grabbed {
        return true;
      }
      requests := requests + [GrabRequest(true, ioctlOk)];
      if !ioctlOk {
        return false;
      }
      grabbed := true;
      ok := true;
    }

    /** Release: the mirror image of Grab. */
    method Release(ioctlOk: bool) returns (ok: bool)
      requires Valid()
      modifies this
      ensures Valid() && open == old(open)
      ensures !old(grabbed) ==> ok && !grabbed && requests == old(requests)
      ensures old(grabbed) ==>
        ok == ioctlOk && grabbed == !ioctlOk && requests == old(requests) + [GrabRequest(false, ioctlOk)]
    {
      if !grabbed {
        return true;
      }
      requests := requests + [GrabRequest(false, ioctlOk)];
      if !ioctlOk {
        return false;
      }
      grabbed := false;
      ok := true;
    }

    /** Close: release (its error is ignored), then close the file and report that result. */
    method Close(releaseOk: bool, closeOk: bool) returns (ok: bool)
      requires Valid()
      modifies this
      ensures Valid() && !open && ok == closeOk
      ensures grabbed == (old(grabbed) && !releaseOk)
    {
      var _ := Release(releaseOk);
      open := false;
      ok := closeOk;
    }
  }
}
