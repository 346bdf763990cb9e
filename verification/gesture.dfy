/**
 * The gesture engine shared by the web service's loop
 * (internal/api/service.go, runGestureLoop) and the desktop GUI's loop
 * (internal/gui/service_manager.go, gestureLoop): holding a gesture key turns
 * mouse motion into two- or four-finger swipes on the virtual touch pad.
 *
 * The tracker records what it asks of the devices as a log of effects
 * (contacts put down, moved and lifted on the pad, the mouse grabbed and
 * released, the motion filter reset); errors returned by those calls are
 * ignored by the source and so are not modelled.
 */
module Gesture {
  import opened Wrappers
  import Int32

  const MaxFingers: nat := 4
  const FingerSpacing: int := 20
  /** The GUI loop works on a fixed 0..32767 pad. */
  const GuiPadMax: int := 32767

  datatype Point = Point(x: int, y: int)
  datatype Keys = Keys(twoFinger: int, fourFinger: int)
  datatype Bounds = Bounds(minX: int, maxX: int, minY: int, maxY: int)

  datatype Effect =
    | TouchDown(slot: nat, trackingId: nat, x: int, y: int)
    | TouchMove(slot: nat, x: int, y: int)
    | TouchUp(slot: nat)
    | MouseGrab
    | MouseRelease
    | FilterReset

  /** The slot numbers 0 .. n-1. */
  function Slots(n: nat): set<nat> {
    if n == 0 then {} else Slots(n - 1) + {n - 1}
  }

  /** The pad slots holding a contact after the effects, starting from `init`. */
  function SlotsAfter(init: set<nat>, effects: seq<Effect>): set<nat>
    decreases |effects|
  {
    if effects == [] then init
    else
      var before := SlotsAfter(init, effects[..|effects| - 1]);
      match effects[|effects| - 1]
      case TouchDown(slot, _, _, _) => before + {slot}
      case TouchUp(slot) => before - {slot}
      case _ => before
  }

  lemma {:induction false} SlotsAfterAppend(init: set<nat>, a: seq<Effect>, b: seq<Effect>)
    ensures SlotsAfter(init, a + b) == SlotsAfter(SlotsAfter(init, a), b)
    decreases |b|
  {
    if b == [] {
      assert a + b == a;
    } else {
      assert (a + b)[..|a + b| - 1] == a + b[..|b| - 1];
      SlotsAfterAppend(init, a, b[..|b| - 1]);
    }
  }

  /** initFingers' contacts: finger i goes down in slot i with tracking ID i. */
  function DownAll(ps: seq<Point>): (r: seq<Effect>)
    ensures |r| == |ps|
  {
    seq(|ps|, i requires 0 <= i < |ps| => TouchDown(i, i, ps[i].x, ps[i].y))
  }

  /** liftAllFingers: slots 0 .. n-1 are released. */
  function UpAll(n: nat): (r: seq<Effect>)
    ensures |r| == n
  {
    seq(n, i requires 0 <= i < n => TouchUp(i))
  }

  /** The reports of one move step: finger i moves in slot i. */
  function MoveAll(ps: seq<Point>): (r: seq<Effect>)
    ensures |r| == |ps|
  {
    seq(|ps|, i requires 0 <= i < |ps| => TouchMove(i, ps[i].x, ps[i].y))
  }

  lemma {:induction false} DownAllAdds(init: set<nat>, ps: seq<Point>)
    ensures SlotsAfter(init, DownAll(ps)) == init + Slots(|ps|)
    decreases |ps|
  {
    if ps != [] {
      var n := |ps|;
      assert DownAll(ps)[..n - 1] == DownAll(ps[..n - 1]);
      DownAllAdds(init, ps[..n - 1]);
      assert Slots(n) == Slots(n - 1) + {n - 1};
    }
  }

  lemma {:induction false} UpAllRemoves(init: set<nat>, n: nat)
    ensures SlotsAfter(init, UpAll(n)) == init - Slots(n)
  {
    if n > 0 {
      assert UpAll(n)[..n - 1] == UpAll(n - 1);
      UpAllRemoves(init, n - 1);
      assert Slots(n) == Slots(n - 1) + {n - 1};
    }
  }

  lemma {:induction false} MoveAllKeeps(init: set<nat>, ps: seq<Point>)
    ensures SlotsAfter(init, MoveAll(ps)) == init
    decreases |ps|
  {
    if ps != [] {
      assert MoveAll(ps)[..|ps| - 1] == MoveAll(ps[..|ps| - 1]);
      MoveAllKeeps(init, ps[..|ps| - 1]);
    }
  }

  /** Go's `/ 2` on int32, which truncates toward zero. */
  function Half(a: int): (r: int)
    ensures a >= 0 ==> 0 <= r <= a && a - 1 <= 2 * r <= a
    ensures a < 0 ==> a <= r <= 0 && a <= 2 * r <= a + 1
  {
    if a >= 0 then a / 2 else -((-a) / 2)
  }

  /** The pad centre the web service uses: half the configured maxima. */
  function ServiceCenter(b: Bounds): Point {
    Point(Half(b.maxX), Half(b.maxY))
  }

  const GuiCenter: Point := Point(GuiPadMax / 2, GuiPadMax / 2)
  const GuiBounds: Bounds := Bounds(0, GuiPadMax, 0, GuiPadMax)

  /** initFingers' layout: n fingers in a vertical column, 20 apart, centred on c. */
  function Layout(n: nat, c: Point): (ps: seq<Point>)
    ensures |ps| == n
  {
    var startY := Int32.Wrap(c.y - FingerSpacing * (n - 1) / 2);
    seq(n, i requires 0 <= i < n => Point(c.x, Int32.Wrap(startY + FingerSpacing * i)))
  }

  /** Without wrap-around the column is centred on c: evenly spaced and symmetric about c.y. */
  lemma LayoutCentred(n: nat, c: Point)
    requires n <= MaxFingers && Int32.InRange(c.y - 10 * n) && Int32.InRange(c.y + 10 * n)
    ensures forall i :: 0 <= i < n ==> Layout(n, c)[i].x == c.x
    ensures forall i :: 0 <= i < n ==> Layout(n, c)[i].y + Layout(n, c)[n - 1 - i].y == 2 * c.y
    ensures forall i :: 0 < i < n ==> Layout(n, c)[i].y - Layout(n, c)[i - 1].y == FingerSpacing
  {
    var startY := c.y - FingerSpacing * (n - 1) / 2;
    assert startY == c.y - 10 * (n - 1);
    forall i | 0 <= i < n
      ensures Layout(n, c)[i].y == startY + FingerSpacing * i
    {
    }
  }

  /** One finger after a move: int32 addition, then clamped to the pad. */
  function Shifted(p: Point, dx: int, dy: int, b: Bounds): Point {
    Point(Int32.Clamp(Int32.Wrap(p.x + dx), b.minX, b.maxX), Int32.Clamp(Int32.Wrap(p.y + dy), b.minY, b.maxY))
  }

  /** The finger array after the first n fingers moved. */
  function ShiftFirst(ps: seq<Point>, n: nat, dx: int, dy: int, b: Bounds): (r: seq<Point>)
    ensures |r| == |ps|
  {
    seq(|ps|, i requires 0 <= i < |ps| => if i < n then Shifted(ps[i], dx, dy, b) else ps[i])
  }

  /** What the loop keeps between iterations, as a value. */
  datatype TrackerState = TrackerState(fingerCount: nat, positions: seq<Point>, prevKey: int, grabbed: bool, effects: seq<Effect>)

  /**
   * The invariant of both loops: 0, 2 or 4 fingers, the mouse grabbed while
   * a gesture is active, and exactly the slots of the active fingers holding
   * a contact on the pad (no finger left stuck down, none missing).
   */
  ghost predicate Inv(st: TrackerState) {
    |st.positions| == MaxFingers &&
    (st.fingerCount == 0 || st.fingerCount == 2 || st.fingerCount == 4) &&
    (st.fingerCount > 0 ==> st.grabbed) &&
    SlotsAfter({}, st.effects) == Slots(st.fingerCount)
  }

  /** A gesture key pressed with no gesture active: grab once, put n fingers down. */
  function Begin(st: TrackerState, n: nat, pk: int, c: Point): TrackerState
    requires n <= |st.positions|
  {
    TrackerState(n, Layout(n, c) + st.positions[n..], pk, true,
      st.effects + (if st.grabbed then [] else [MouseGrab]) + DownAll(Layout(n, c)))
  }

  /** The same key still held: every active finger moves. */
  function Hold(st: TrackerState, pk: int, dx: int, dy: int, b: Bounds): TrackerState
    requires st.fingerCount <= |st.positions|
  {
    var moved := ShiftFirst(st.positions, st.fingerCount, dx, dy, b);
    st.(positions := moved, prevKey := pk, effects := st.effects + MoveAll(moved[..st.fingerCount]))
  }

  /** The other gesture key mid-gesture: every finger is lifted and the filter reset. */
  function Abort(st: TrackerState, pk: int): TrackerState {
    st.(fingerCount := 0, prevKey := pk, effects := st.effects + UpAll(st.fingerCount) + [FilterReset])
  }

  /** No gesture key: the mouse is released and every finger lifted. */
  function End(st: TrackerState, pk: int): TrackerState {
    st.(fingerCount := 0, prevKey := pk, grabbed := false,
        effects := st.effects + (if st.grabbed then [MouseRelease] else []) + UpAll(st.fingerCount))
  }

  /** The switch at the end of each loop iteration. */
  function SwitchSpec(st: TrackerState, pk: int, dx: int, dy: int, keys: Keys, b: Bounds, c: Point): TrackerState
    requires st.fingerCount <= MaxFingers == |st.positions|
  {
    if pk == keys.twoFinger && st.fingerCount == 0 then Begin(st, 2, pk, c)
    else if pk == keys.fourFinger && st.fingerCount == 0 then Begin(st, 4, pk, c)
    else if (pk == keys.twoFinger || pk == keys.fourFinger) && st.fingerCount > 0 then
      if pk == st.prevKey then Hold(st, pk, dx, dy, b) else Abort(st, pk)
    else End(st, pk)
  }

  /** The idle reset: lift every finger, reset the filter and put the same fingers down at c again. */
  function ResetSpec(st: TrackerState, c: Point): TrackerState
    requires st.fingerCount <= |st.positions|
  {
    st.(positions := Layout(st.fingerCount, c) + st.positions[st.fingerCount..],
        effects := st.effects + UpAll(st.fingerCount) + [FilterReset] + DownAll(Layout(st.fingerCount, c)))
  }

  lemma BeginKeepsInvariant(st: TrackerState, n: nat, pk: int, c: Point)
    requires Inv(st) && st.fingerCount == 0 && (n == 2 || n == 4)
    ensures Inv(Begin(st, n, pk, c))
  {
    var s0 := SlotsAfter({}, st.effects);
    var grab := if st.grabbed then [] else [MouseGrab];
    SlotsAfterAppend({}, st.effects + grab, DownAll(Layout(n, c)));
    SlotsAfterAppend({}, st.effects, grab);
    assert SlotsAfter(s0, grab) == s0 by {
      if !st.grabbed { assert grab[..0] == []; }
    }
    DownAllAdds(s0, Layout(n, c));
  }

  lemma HoldKeepsInvariant(st: TrackerState, pk: int, dx: int, dy: int, b: Bounds)
    requires Inv(st)
    ensures Inv(Hold(st, pk, dx, dy, b))
  {
    var moved := ShiftFirst(st.positions, st.fingerCount, dx, dy, b);
    SlotsAfterAppend({}, st.effects, MoveAll(moved[..st.fingerCount]));
    MoveAllKeeps(SlotsAfter({}, st.effects), moved[..st.fingerCount]);
  }

  lemma AbortKeepsInvariant(st: TrackerState, pk: int)
    requires Inv(st)
    ensures Inv(Abort(st, pk)) && SlotsAfter({}, Abort(st, pk).effects) == {}
  {
    var n := st.fingerCount;
    SlotsAfterAppend({}, st.effects + UpAll(n), [FilterReset]);
    SlotsAfterAppend({}, st.effects, UpAll(n));
    UpAllRemoves(SlotsAfter({}, st.effects), n);
    assert [FilterReset][..0] == [];
  }

  lemma EndKeepsInvariant(st: TrackerState, pk: int)
    requires Inv(st)
    ensures Inv(End(st, pk)) && SlotsAfter({}, End(st, pk).effects) == {}
  {
    var n := st.fingerCount;
    var s0 := SlotsAfter({}, st.effects);
    var rel := if st.grabbed then [MouseRelease] else [];
    SlotsAfterAppend({}, st.effects + rel, UpAll(n));
    SlotsAfterAppend({}, st.effects, rel);
    assert SlotsAfter(s0, rel) == s0 by {
      if st.grabbed { assert rel[..0] == []; }
    }
    UpAllRemoves(s0, n);
  }

  /** Every branch of the switch keeps the loop invariant. */
  lemma SwitchKeepsInvariant(st: TrackerState, pk: int, dx: int, dy: int, keys: Keys, b: Bounds, c: Point)
    requires Inv(st)
    ensures Inv(SwitchSpec(st, pk, dx, dy, keys, b, c))
  {
    if pk == keys.twoFinger && st.fingerCount == 0 {
      BeginKeepsInvariant(st, 2, pk, c);
    } else if pk == keys.fourFinger && st.fingerCount == 0 {
      BeginKeepsInvariant(st, 4, pk, c);
    } else if (pk == keys.twoFinger || pk == keys.fourFinger) && st.fingerCount > 0 {
      if pk == st.prevKey {
        HoldKeepsInvariant(st, pk, dx, dy, b);
      } else {
        AbortKeepsInvariant(st, pk);
      }
    } else {
      EndKeepsInvariant(st, pk);
    }
  }

  lemma ResetKeepsInvariant(st: TrackerState, c: Point)
    requires Inv(st)
    ensures Inv(ResetSpec(st, c))
  {
    var n := st.fingerCount;
    var s0 := SlotsAfter({}, st.effects);
    SlotsAfterAppend({}, st.effects + UpAll(n) + [FilterReset], DownAll(Layout(n, c)));
    SlotsAfterAppend({}, st.effects + UpAll(n), [FilterReset]);
    SlotsAfterAppend({}, st.effects, UpAll(n));
    UpAllRemoves(s0, n);
    assert [FilterReset][..0] == [];
    DownAllAdds(s0 - Slots(n), Layout(n, c));
  }

  /** Releasing the gesture key ends the gesture: nothing left on the pad, the mouse released. */
  lemma ReleaseEndsGesture(st: TrackerState, pk: int, dx: int, dy: int, keys: Keys, b: Bounds, c: Point)
    requires Inv(st) && pk != keys.twoFinger && pk != keys.fourFinger
    ensures var t := SwitchSpec(st, pk, dx, dy, keys, b, c);
      t.fingerCount == 0 && !t.grabbed && SlotsAfter({}, t.effects) == {} &&
      (st.grabbed <==> MouseRelease in t.effects[|st.effects|..])
  {
    EndKeepsInvariant(st, pk);
    var t := End(st, pk);
    assert t.effects[|st.effects|..] == (if st.grabbed then [MouseRelease] else []) + UpAll(st.fingerCount);
  }

  /** Changing to the other gesture key mid-gesture lifts every finger but keeps the grab. */
  lemma KeyChangeLiftsFingers(st: TrackerState, pk: int, dx: int, dy: int, keys: Keys, b: Bounds, c: Point)
    requires Inv(st) && st.fingerCount > 0 && pk != st.prevKey
    requires pk == keys.twoFinger || pk == keys.fourFinger
    ensures var t := SwitchSpec(st, pk, dx, dy, keys, b, c);
      t.fingerCount == 0 && t.grabbed && SlotsAfter({}, t.effects) == {} && t.prevKey == pk
  {
    AbortKeepsInvariant(st, pk);
  }

  /**
   * Holding the same key moves every active finger by (dx, dy) in int32
   * arithmetic, keeps it on the pad, and leaves the inactive ones alone.
   */
  lemma HoldMovesFingers(st: TrackerState, pk: int, dx: int, dy: int, keys: Keys, b: Bounds, c: Point)
    requires Inv(st) && st.fingerCount > 0 && pk == st.prevKey
    requires pk == keys.twoFinger || pk == keys.fourFinger
    requires b.minX <= b.maxX && b.minY <= b.maxY
    ensures var t := SwitchSpec(st, pk, dx, dy, keys, b, c);
      t.fingerCount == st.fingerCount && t.grabbed &&
      (forall i :: 0 <= i < st.fingerCount ==>
        b.minX <= t.positions[i].x <= b.maxX && b.minY <= t.positions[i].y <= b.maxY &&
        (b.minX <= st.positions[i].x + dx <= b.maxX && Int32.InRange(st.positions[i].x + dx) ==>
          t.positions[i].x == st.positions[i].x + dx) &&
        (b.minY <= st.positions[i].y + dy <= b.maxY && Int32.InRange(st.positions[i].y + dy) ==>
          t.positions[i].y == st.positions[i].y + dy)) &&
      (forall i :: st.fingerCount <= i < MaxFingers ==> t.positions[i] == st.positions[i])
  {
  }

  class FingerTracker {
    const fingers: array<Point>
    var fingerCount: nat
    var prevKey: int
    var grabbed: bool
    var lastScrollTime: int
    var effects: seq<Effect>

    ghost function State(): TrackerState
      reads this, fingers
    {
      TrackerState(fingerCount, fingers[..], prevKey, grabbed, effects)
    }

    ghost predicate Valid()
      reads this, fingers
    {
      Inv(State())
    }

    /** The zero values a loop starts from. */
    constructor ()
      ensures Valid() && fresh(fingers)
      ensures State() == TrackerState(0, seq(MaxFingers, _ => Point(0, 0)), 0, false, [])
      ensures lastScrollTime == 0
    {
      fingers := new Point[MaxFingers](_ => Point(0, 0));
      fingerCount := 0;
      prevKey := 0;
      grabbed := false;
      lastScrollTime := 0;
      effects := [];
      new;
      assert fingers[..] == seq(MaxFingers, _ => Point(0, 0));
    }

    /** initFingers: positions the first n fingers in a column at c and puts them down. */
    method InitFingers(n: nat, c: Point)
      requires n <= fingers.Length
      modifies fingers, this`effects
      ensures fingers[..] == Layout(n, c) + old(fingers[..])[n..]
      ensures effects == old(effects) + DownAll(Layout(n, c))
    {
      var startY := Int32.Wrap(c.y - FingerSpacing * (n - 1) / 2);
      ghost var layout := Layout(n, c);
      var i := 0;
      while i < n
        invariant 0 <= i <= n
        invariant forall j :: 0 <= j < i ==> fingers[j] == layout[j]
        invariant forall j :: i <= j < fingers.Length ==> fingers[j] == old(fingers[j])
        invariant effects == old(effects) + DownAll(layout[..i])
      {
        fingers[i] := Point(c.x, Int32.Wrap(startY + FingerSpacing * i));
        effects := effects + [TouchDown(i, i, fingers[i].x, fingers[i].y)];
        assert layout[..i + 1] == layout[..i] + [layout[i]];
        assert DownAll(layout[..i + 1]) == DownAll(layout[..i]) + [TouchDown(i, i, fingers[i].x, fingers[i].y)];
        i := i + 1;
      }
      assert layout[..n] == layout;
      assert fingers[..] == layout + old(fingers[..])[n..];
    }

    /** liftAllFingers. */
    method LiftAll(n: nat)
      modifies this`effects
      ensures effects == old(effects) + UpAll(n)
    {
      var i := 0;
      while i < n
        invariant 0 <= i <= n
        invariant effects == old(effects) + UpAll(i)
      {
        effects := effects + [TouchUp(i)];
        assert UpAll(i + 1) == UpAll(i) + [TouchUp(i)];
        i := i + 1;
      }
    }

    /** The move branch: each active finger moves, is clamped and reported. */
    method MoveFingers(dx: int, dy: int, b: Bounds)
      requires fingerCount <= fingers.Length
      modifies fingers, this`effects
      ensures fingers[..] == ShiftFirst(old(fingers[..]), fingerCount, dx, dy, b)
      ensures effects == old(effects) + MoveAll(fingers[..fingerCount])
    {
      var i := 0;
      while i < fingerCount
        invariant 0 <= i <= fingerCount
        invariant fingers[..] == ShiftFirst(old(fingers[..]), i, dx, dy, b)
        invariant effects == old(effects) + MoveAll(fingers[..i])
      {
        var x := Int32.Clamp(Int32.Wrap(fingers[i].x + dx), b.minX, b.maxX);
        var y := Int32.Clamp(Int32.Wrap(fingers[i].y + dy), b.minY, b.maxY);
        ghost var before := fingers[..];
        fingers[i] := Point(x, y);
        assert fingers[..] == before[i := Point(x, y)];
        effects := effects + [TouchMove(i, x, y)];
        assert fingers[..i + 1] == fingers[..i] + [fingers[i]];
        assert MoveAll(fingers[..i + 1]) == MoveAll(fingers[..i]) + [TouchMove(i, x, y)];
        i := i + 1;
      }
    }

    /** The gesture switch of both loops. */
    method Switch(pk: int, dx: int, dy: int, keys: Keys, b: Bounds, c: Point)
      requires Valid()
      modifies this, fingers
      ensures Valid() && lastScrollTime == old(lastScrollTime)
      ensures State() == SwitchSpec(old(State()), pk, dx, dy, keys, b, c)
    {
      if (pk == keys.twoFinger && fingerCount == 0) || (pk == keys.fourFinger && fingerCount == 0) {
        BeginSwipe(if pk == keys.twoFinger then 2 else 4, pk, c);
      } else if (pk == keys.twoFinger || pk == keys.fourFinger) && fingerCount > 0 {
        ContinueSwipe(pk, dx, dy, b);
      } else {
        EndSwipe(pk);
      }
    }

    /** A swipe key with no finger down: grab the mouse if needed and put n fingers down at c. */
    method BeginSwipe(n: nat, pk: int, c: Point)
      requires Valid() && fingerCount == 0 && (n == 2 || n == 4)
      modifies fingers, this`effects, this`grabbed, this`fingerCount, this`prevKey
      ensures Valid()
      ensures State() == Begin(old(State()), n, pk, c)
    {
      ghost var st := State();
      if !grabbed {
        effects := effects + [MouseGrab];
        grabbed := true;
      }
      fingerCount := n;
      InitFingers(n, c);
      prevKey := pk;
      assert State() == Begin(st, n, pk, c);
      BeginKeepsInvariant(st, n, pk, c);
    }

    /** A swipe key with fingers down: the same key moves them, the other key lifts them all. */
    method ContinueSwipe(pk: int, dx: int, dy: int, b: Bounds)
      requires Valid() && fingerCount > 0
      modifies fingers, this`effects, this`fingerCount, this`prevKey
      ensures Valid()
      ensures State() == if pk == old(prevKey) then Hold(old(State()), pk, dx, dy, b) else Abort(old(State()), pk)
    {
      ghost var st := State();
      if pk == prevKey {
        MoveFingers(dx, dy, b);
        HoldKeepsInvariant(st, pk, dx, dy, b);
      } else {
        LiftAll(fingerCount);
        effects := effects + [FilterReset];
        fingerCount := 0;
        AbortKeepsInvariant(st, pk);
      }
      prevKey := pk;
    }

    /** Any other key: release the mouse and lift every finger. */
    method EndSwipe(pk: int)
      requires Valid()
      modifies this`effects, this`grabbed, this`fingerCount, this`prevKey
      ensures Valid()
      ensures State() == End(old(State()), pk)
    {
      ghost var st := State();
      if grabbed {
        effects := effects + [MouseRelease];
        grabbed := false;
      }
      if fingerCount > 0 {
        LiftAll(fingerCount);
        fingerCount := 0;
      }
      prevKey := pk;
      EndKeepsInvariant(st, pk);
    }

    /** The idle reset of both loops. */
    method Reset(c: Point)
      requires Valid()
      modifies fingers, this`effects
      ensures Valid()
      ensures State() == ResetSpec(old(State()), c)
    {
      ResetKeepsInvariant(State(), c);
      LiftAll(fingerCount);
      effects := effects + [FilterReset];
      InitFingers(fingerCount, c);
    }

    /**
     * One iteration of the web service's loop after the filter: skipped while
     * a device is missing; otherwise the idle reset, the time stamp, the switch.
     */
    method ServiceStep(devicesPresent: bool, pk: int, dx: int, dy: int, now: int, threshold: int, keys: Keys, b: Bounds)
      requires Valid()
      modifies this, fingers
      ensures Valid()
      ensures !devicesPresent ==> State() == old(State()) && lastScrollTime == old(lastScrollTime)
      ensures devicesPresent ==>
        lastScrollTime == now &&
        var idle := now - old(lastScrollTime) > threshold && old(fingerCount) > 0;
        var st := if idle then ResetSpec(old(State()), ServiceCenter(b)) else old(State());
        State() == SwitchSpec(st, pk, dx, dy, Keys(Int32.Wrap(keys.twoFinger), Int32.Wrap(keys.fourFinger)), b, ServiceCenter(b))
    {
      if !devicesPresent {
        return;
      }
      if now - lastScrollTime > threshold && fingerCount > 0 {
        Reset(ServiceCenter(b));
      }
      lastScrollTime := now;
      Switch(pk, dx, dy, Keys(Int32.Wrap(keys.twoFinger), Int32.Wrap(keys.fourFinger)), b, ServiceCenter(b));
    }

    /**
     * One iteration of the GUI's loop after the filter. It returns what the
     * gesture monitor is given (the finger count before the switch and the
     * motion), which happens only when there is motion; the time stamp moves
     * only when a key code other than 0 or some motion was read.
     */
    method GuiStep(pk: int, dx: int, dy: int, now: int, threshold: int, keys: Keys) returns (shown: Option<(nat, int, int)>)
      requires Valid()
      modifies this, fingers
      ensures Valid()
      ensures shown == if dx != 0 || dy != 0 then Some((old(fingerCount), dx, dy)) else None
      ensures lastScrollTime == if pk != 0 || dx != 0 || dy != 0 then now else old(lastScrollTime)
      ensures var idle := now - old(lastScrollTime) > threshold && old(fingerCount) > 0;
        var st := if idle then ResetSpec(old(State()), GuiCenter) else old(State());
        State() == SwitchSpec(st, pk, dx, dy, Keys(Int32.Wrap(keys.twoFinger), Int32.Wrap(keys.fourFinger)), GuiBounds, GuiCenter)
    {
      shown := None;
      if dx != 0 || dy != 0 {
        shown := Some((fingerCount, dx, dy));
      }
      if now - lastScrollTime > threshold && fingerCount > 0 {
        Reset(GuiCenter);
      }
      if pk != 0 || dx != 0 || dy != 0 {
        lastScrollTime := now;
      }
      Switch(pk, dx, dy, Keys(Int32.Wrap(keys.twoFinger), Int32.Wrap(keys.fourFinger)), GuiBounds, GuiCenter);
    }
  }
}
