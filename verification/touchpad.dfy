/**
 * The virtual multi-touch pad (internal/features/touchpad.go): the axis
 * ranges it registers with uinput, the event reports it writes for a finger
 * going down, moving and lifting, and the kernel's reading of those reports
 * under the type B multi-touch protocol (slots and tracking IDs).
 */
module TouchPad {
  import opened Evdev
  import Int32

  const AbsSize: nat := 64
  const MaxNameSize: nat := 80
  /** Highest slot index the pad declares. */
  const MaxSlot: int := 9
  const ContactMajor: int := 50
  const ContactPressure: int := 30
  const ReleasedId: int := -1

  /** The [min, max] range registered for an absolute axis code (zero for the axes left unset). */
  function AxisRange(code: int, minX: int, maxX: int, minY: int, maxY: int): (int, int) {
    if code == AbsX || code == AbsMtPositionX then (minX, maxX)
    else if code == AbsY || code == AbsMtPositionY then (minY, maxY)
    else if code == AbsMtSlot then (0, MaxSlot)
    else if code == AbsMtTouchMajor || code == AbsMtPressure then (0, 255)
    else (0, 0)
  }

  /** The absmin/absmax tables written into the uinput device description. */
  method AbsRanges(minX: int, maxX: int, minY: int, maxY: int) returns (absMin: array<int>, absMax: array<int>)
    ensures fresh(absMin) && fresh(absMax) && absMin.Length == AbsSize && absMax.Length == AbsSize
    ensures forall c :: 0 <= c < AbsSize ==> (absMin[c], absMax[c]) == AxisRange(c, minX, maxX, minY, maxY)
  {
    absMin := new int[AbsSize](_ => 0);
    absMin[AbsX], absMin[AbsY], absMin[AbsMtSlot] := minX, minY, 0;
    absMin[AbsMtPositionX], absMin[AbsMtPositionY] := minX, minY;
    absMin[AbsMtTouchMajor], absMin[AbsMtPressure] := 0, 0;
    assert forall c :: 0 <= c < AbsSize ==> absMin[c] == AxisRange(c, minX, maxX, minY, maxY).0;
    absMax := new int[AbsSize](_ => 0);
    absMax[AbsX], absMax[AbsY], absMax[AbsMtSlot] := maxX, maxY, MaxSlot;
    absMax[AbsMtPositionX], absMax[AbsMtPositionY] := maxX, maxY;
    absMax[AbsMtTouchMajor], absMax[AbsMtPressure] := 255, 255;
  }

  /** toUinputName: the name copied into a zero-padded 80-byte field (longer names are cut). */
  method ToUinputName(name: seq<byte>) returns (field: array<byte>)
    ensures fresh(field) && field.Length == MaxNameSize
    ensures forall i :: 0 <= i < MaxNameSize ==> field[i] == if i < |name| then name[i] else 0
  {
    field := new byte[MaxNameSize](_ => 0);
    var n := if |name| < MaxNameSize then |name| else MaxNameSize;
    var i := 0;
    while i < n
      invariant 0 <= i <= n
      invariant forall j :: 0 <= j < i ==> field[j] == name[j]
      invariant forall j :: i <= j < MaxNameSize ==> field[j] == 0
    {
      field[i] := name[i];
      i := i + 1;
    }
  }

  /** MultiTouchDown: a contact with the given tracking ID appears in a slot. */
  function Down(slot: int, trackingId: int, x: int, y: int): seq<InputEvent> {
    [Ev(EvAbs, AbsMtSlot, Int32.Wrap(slot)),
     Ev(EvAbs, AbsMtTrackingId, Int32.Wrap(trackingId)),
     Ev(EvAbs, AbsMtPositionX, x),
     Ev(EvAbs, AbsMtPositionY, y),
     Ev(EvAbs, AbsMtTouchMajor, ContactMajor),
     Ev(EvAbs, AbsMtPressure, ContactPressure),
     Ev(EvKey, BtnTouch, 1),
     Ev(EvSyn, SynReport, 0)]
  }

  /** MultiTouchMove: the contact in a slot moves. */
  function Move(slot: int, x: int, y: int): seq<InputEvent> {
    [Ev(EvAbs, AbsMtSlot, Int32.Wrap(slot)),
     Ev(EvAbs, AbsMtPositionX, x),
     Ev(EvAbs, AbsMtPositionY, y),
     Ev(EvAbs, AbsMtTouchMajor, ContactMajor),
     Ev(EvSyn, SynReport, 0)]
  }

  /** MultiTouchUp: the contact in a slot is released. */
  function Up(slot: int): seq<InputEvent> {
    [Ev(EvAbs, AbsMtSlot, Int32.Wrap(slot)),
     Ev(EvAbs, AbsMtTrackingId, ReleasedId),
     Ev(EvAbs, AbsMtTouchMajor, 0),
     Ev(EvKey, BtnTouch, 0),
     Ev(EvSyn, SynReport, 0)]
  }

  /**
   * One self-contained report: it selects a slot first, ends with SYN_REPORT
   * and has no other SYN_REPORT, and every event fits the record's fields.
   */
  predicate SingleReport(evs: seq<InputEvent>) {
    |evs| >= 2 &&
    evs[0].evType == EvAbs && evs[0].code == AbsMtSlot &&
    evs[|evs| - 1] == Ev(EvSyn, SynReport, 0) &&
    (forall i :: 0 <= i < |evs| - 1 ==> evs[i].evType != EvSyn) &&
    (forall i :: 0 <= i < |evs| ==> Representable(evs[i]))
  }

  lemma ReportsAreFramed(slot: int, trackingId: int, x: int, y: int)
    requires Int32.InRange(x) && Int32.InRange(y)
    ensures SingleReport(Down(slot, trackingId, x, y)) && Down(slot, trackingId, x, y)[0].value == Int32.Wrap(slot)
    ensures SingleReport(Move(slot, x, y)) && Move(slot, x, y)[0].value == Int32.Wrap(slot)
    ensures SingleReport(Up(slot)) && Up(slot)[0].value == Int32.Wrap(slot)
  {
    assert Pow256(8) == 0x1_0000_0000_0000_0000 && Pow256(2) == 0x1_0000;
  }

  /**
   * The kernel's view of the pad under the type B protocol: the selected
   * slot, the tracking ID of each slot holding a contact (a slot absent from
   * `ids` holds none), the last reported position per slot, and BTN_TOUCH.
   */
  datatype PadState = PadState(slot: int, ids: map<int, int>, xs: map<int, int>, ys: map<int, int>, touching: bool)

  function Apply(s: PadState, e: InputEvent): PadState {
    if e.evType == EvAbs && e.code == AbsMtSlot then s.(slot := e.value)
    else if e.evType == EvAbs && e.code == AbsMtTrackingId then
      if e.value == ReleasedId then s.(ids := s.ids - {s.slot}) else s.(ids := s.ids[s.slot := e.value])
    else if e.evType == EvAbs && e.code == AbsMtPositionX then s.(xs := s.xs[s.slot := e.value])
    else if e.evType == EvAbs && e.code == AbsMtPositionY then s.(ys := s.ys[s.slot := e.value])
    else if e.evType == EvKey && e.code == BtnTouch then s.(touching := e.value != 0)
    else s
  }

  function ApplyAll(s: PadState, evs: seq<InputEvent>): PadState
    decreases |evs|
  {
    if evs == [] then s else ApplyAll(Apply(s, evs[0]), evs[1..])
  }

  lemma {:induction false} ApplyAllAppend(s: PadState, a: seq<InputEvent>, b: seq<InputEvent>)
    ensures ApplyAll(s, a + b) == ApplyAll(ApplyAll(s, a), b)
    decreases |a|
  {
    if a == [] {
      assert a + b == b;
    } else {
      assert (a + b)[1..] == a[1..] + b;
      ApplyAllAppend(Apply(s, a[0]), a[1..], b);
    }
  }

  /** Applies the first n events one at a time, keeping the rest of the report pending. */
  lemma {:induction false} ApplyPrefixSplits(s: PadState, evs: seq<InputEvent>, n: nat)
    requires n <= |evs|
    ensures ApplyAll(s, evs) == ApplyAll(ApplyPrefix(s, evs, n), evs[n..])
  {
    if n == 0 {
      assert evs[0..] == evs;
    } else {
      ApplyPrefixSplits(s, evs, n - 1);
      ApplyAllFrom(ApplyPrefix(s, evs, n - 1), evs, n - 1);
    }
  }

  function ApplyPrefix(s: PadState, evs: seq<InputEvent>, n: nat): PadState
    requires n <= |evs|
  {
    if n == 0 then s else Apply(ApplyPrefix(s, evs, n - 1), evs[n - 1])
  }

  lemma ApplyAllFrom(s: PadState, evs: seq<InputEvent>, i: nat)
    requires i < |evs|
    ensures ApplyAll(s, evs[i..]) == ApplyAll(Apply(s, evs[i]), evs[i + 1..])
  {
    assert evs[i..][1..] == evs[i + 1..];
  }

  /** After a Down report the slot holds the contact at (x, y) and no other slot changed. */
  lemma DownStartsContact(s: PadState, slot: int, trackingId: int, x: int, y: int)
    requires Int32.InRange(slot) && 0 <= trackingId <= Int32.Max
    ensures var t := ApplyAll(s, Down(slot, trackingId, x, y));
      t.slot == slot && t.ids == s.ids[slot := trackingId] &&
      t.xs == s.xs[slot := x] && t.ys == s.ys[slot := y] && t.touching
  {
    var evs := Down(slot, trackingId, x, y);
    ApplyPrefixSplits(s, evs, 7);
    var s1 := Apply(s, evs[0]);
    assert ApplyPrefix(s, evs, 1) == s1;
    var s2 := Apply(s1, evs[1]);
    assert ApplyPrefix(s, evs, 2) == s2;
    var s3 := Apply(s2, evs[2]);
    assert ApplyPrefix(s, evs, 3) == s3;
    var s4 := Apply(s3, evs[3]);
    assert ApplyPrefix(s, evs, 4) == s4;
    var s5 := Apply(s4, evs[4]);
    assert ApplyPrefix(s, evs, 5) == s5;
    var s6 := Apply(s5, evs[5]);
    assert ApplyPrefix(s, evs, 6) == s6;
    var s7 := Apply(s6, evs[6]);
    assert ApplyPrefix(s, evs, 7) == s7;
    ApplyAllFrom(s7, evs, 7);
    assert evs[8..] == [];
  }

  /** A Move report changes only the slot's position: contacts and BTN_TOUCH stay. */
  lemma MoveKeepsContacts(s: PadState, slot: int, x: int, y: int)
    requires Int32.InRange(slot)
    ensures var t := ApplyAll(s, Move(slot, x, y));
      t.slot == slot && t.ids == s.ids && t.xs == s.xs[slot := x] && t.ys == s.ys[slot := y] &&
      t.touching == s.touching
  {
    var evs := Move(slot, x, y);
    ApplyPrefixSplits(s, evs, 4);
    var s1 := Apply(s, evs[0]);
    assert ApplyPrefix(s, evs, 1) == s1;
    var s2 := Apply(s1, evs[1]);
    assert ApplyPrefix(s, evs, 2) == s2;
    var s3 := Apply(s2, evs[2]);
    assert ApplyPrefix(s, evs, 3) == s3;
    var s4 := Apply(s3, evs[3]);
    assert ApplyPrefix(s, evs, 4) == s4;
    ApplyAllFrom(s4, evs, 4);
    assert evs[5..] == [];
  }

  /** An Up report empties the slot and clears BTN_TOUCH; other slots keep their contacts. */
  lemma UpEndsContact(s: PadState, slot: int)
    requires Int32.InRange(slot)
    ensures var t := ApplyAll(s, Up(slot));
      t.slot == slot && t.ids == s.ids - {slot} && t.xs == s.xs && t.ys == s.ys && !t.touching
  {
    var evs := Up(slot);
    ApplyPrefixSplits(s, evs, 4);
    var s1 := Apply(s, evs[0]);
    assert ApplyPrefix(s, evs, 1) == s1;
    var s2 := Apply(s1, evs[1]);
    assert ApplyPrefix(s, evs, 2) == s2;
    var s3 := Apply(s2, evs[2]);
    assert ApplyPrefix(s, evs, 3) == s3;
    var s4 := Apply(s3, evs[3]);
    assert ApplyPrefix(s, evs, 4) == s4;
    ApplyAllFrom(s4, evs, 4);
    assert evs[5..] == [];
  }

  /**
   * The reports agree with the registered ranges: for a slot the pad declares
   * and a position inside the pad, every absolute value except the tracking ID
   * lies inside the range registered for its axis.
   */
  lemma ReportsWithinRanges(slot: int, trackingId: int, x: int, y: int, minX: int, maxX: int, minY: int, maxY: int)
    requires 0 <= slot <= MaxSlot && minX <= x <= maxX && minY <= y <= maxY
    ensures forall e :: (e in Down(slot, trackingId, x, y) + Move(slot, x, y) + Up(slot) &&
      e.evType == EvAbs && e.code != AbsMtTrackingId) ==>
        AxisRange(e.code, minX, maxX, minY, maxY).0 <= e.value <= AxisRange(e.code, minX, maxX, minY, maxY).1
  {
  }

  /** Index of the first refused write, or |accepted| when every write succeeds. */
  function AcceptedPrefix(accepted: seq<bool>): (n: nat)
    ensures n <= |accepted|
    ensures forall i :: 0 <= i < n ==> accepted[i]
    ensures n < |accepted| ==> !accepted[n]
  {
    if accepted == [] || !accepted[0] then 0 else 1 + AcceptedPrefix(accepted[1..])
  }

  class VirtualTouchPad {
    /** Every event the device file has accepted, in order. */
    var written: seq<InputEvent>

    constructor ()
      ensures written == []
    {
      written := [];
    }

    /**
     * writeEvents: events are written one at a time and writing stops at the
     * first refused write (accepted[i] is the outcome of the i-th write).
     */
    method WriteEvents(events: seq<InputEvent>, accepted: seq<bool>) returns (ok: bool)
      requires |accepted| == |events|
      modifies this
      ensures ok <==> forall i :: 0 <= i < |accepted| ==> accepted[i]
      ensures written == old(written) + events[..AcceptedPrefix(accepted)]
    {
      var i := 0;
      while i < |events|
        invariant 0 <= i <= |events|
        invariant forall j :: 0 <= j < i ==> accepted[j]
        invariant written == old(written) + events[..i]
      {
        if !accepted[i] {
          assert i == AcceptedPrefix(accepted) by { AcceptedPrefixAt(accepted, i); }
          return false;
        }
        written := written + [events[i]];
        assert events[..i + 1] == events[..i] + [events[i]];
        i := i + 1;
      }
      assert i == AcceptedPrefix(accepted) by { AcceptedPrefixAt(accepted, i); }
      assert events[..i] == events;
      ok := true;
    }
  }

  lemma {:induction false} AcceptedPrefixAt(accepted: seq<bool>, i: nat)
    requires i <= |accepted| && (forall j :: 0 <= j < i ==> accepted[j])
    requires i == |accepted| || !accepted[i]
    ensures AcceptedPrefix(accepted) == i
  {
    if i > 0 {
      AcceptedPrefixAt(accepted[1..], i - 1);
    }
  }
}
