/**
 * Input-device discovery and the device monitor (internal/features/devices.go).
 *
 * The directory listing, the symbolic-link targets and the existence test
 * are results of system calls and arrive as parameters. Callbacks are
 * modelled by the log of events they are notified of. Where the source
 * iterates over a Go map, whose order the runtime chooses, the method picks
 * the next key with `:|` and reports the order it used as a ghost result.
 */
module Devices {
  import opened Wrappers
  import opened Strings

  const ByIdDir: string := "/dev/input/by-id/"
  const InputDir: string := "/dev/input/"

  datatype DeviceType = Keyboard | Mouse
  datatype Device = Device(name: string, path: string, kind: DeviceType)
  datatype EventType = Added | Removed | Changed
  datatype DeviceEvent = DeviceEvent(kind: EventType, device: Device, path: string)

  /** A by-id directory entry and what reading its link gave (None: an error). */
  datatype Entry = Entry(name: string, target: Option<string>)
  datatype Scan = ScanFailed | Scanned(devices: seq<Device>)

  // ---------------------------------------------------------------- scanning

  /** The device node a by-id link points at. */
  function ResolvePath(target: string): (p: string)
    ensures HasPrefix(p, "/")
    ensures HasPrefix(target, "/") ==> p == target
    ensures !HasPrefix(target, "/") ==> HasPrefix(p, InputDir) && (p[|InputDir|..] == "/" || '/' !in p[|InputDir|..])
  {
    if HasPrefix(target, "/") then target else InputDir + Base(target)
  }

  /** What one directory entry contributes to the scan. */
  function EntryDevices(e: Entry): seq<Device> {
    if !Contains(e.name, "event") || e.target.None? then []
    else
      var path := ResolvePath(e.target.value);
      (if Contains(e.name, "kbd") then [Device(e.name, path, Keyboard)] else []) +
      (if Contains(e.name, "mouse") then [Device(e.name, path, Mouse)] else [])
  }

  /** The devices of each entry in turn, concatenated. */
  function Concat(entries: seq<Entry>, f: Entry -> seq<Device>): seq<Device> {
    if entries == [] then [] else Concat(entries[..|entries| - 1], f) + f(entries[|entries| - 1])
  }

  function ScanOf(entries: seq<Entry>): seq<Device> {
    Concat(entries, EntryDevices)
  }

  /** ScanDevices over the listing (None: the directory could not be read). */
  method ScanDevices(listing: Option<seq<Entry>>) returns (r: Scan)
    ensures listing.None? <==> r.ScanFailed?
    ensures listing.Some? ==> r.devices == ScanOf(listing.value)
  {
    if listing.None? {
      return ScanFailed;
    }
    var entries := listing.value;
    var devices: seq<Device> := [];
    var i := 0;
    while i < |entries|
      invariant 0 <= i <= |entries|
      invariant devices == ScanOf(entries[..i])
    {
      var e := entries[i];
      assert entries[..i + 1][..i] == entries[..i];
      if Contains(e.name, "event") && e.target.Some? {
        var path := ResolvePath(e.target.value);
        if Contains(e.name, "kbd") {
          devices := devices + [Device(e.name, path, Keyboard)];
        }
        if Contains(e.name, "mouse") {
          devices := devices + [Device(e.name, path, Mouse)];
        }
      }
      i := i + 1;
    }
    assert entries[..i] == entries;
    r := Scanned(devices);
  }

  /**
   * Every scanned device comes from an entry whose name contains "event" and
   * whose link could be read; it carries the entry's name and resolved path;
   * keyboards come from names containing "kbd" and mice from names containing
   * "mouse". Conversely every such entry yields its devices, keyboard first.
   */
  lemma ScanOrigin(entries: seq<Entry>, d: Device)
    ensures d in ScanOf(entries) <==> exists e :: e in entries && d in EntryDevices(e)
  {
    ConcatOrigin(entries, EntryDevices, d);
  }

  /** A device is in the concatenation exactly when some entry contributes it. */
  lemma {:induction false} ConcatOrigin(entries: seq<Entry>, f: Entry -> seq<Device>, d: Device)
    ensures d in Concat(entries, f) <==> exists e :: e in entries && d in f(e)
  {
    if entries != [] {
      var init, last := entries[..|entries| - 1], entries[|entries| - 1];
      ConcatOrigin(init, f, d);
      assert entries == init + [last];
      if d in Concat(entries, f) && d !in Concat(init, f) {
        assert last in entries && d in f(last);
      }
      if exists e :: e in entries && d in f(e) {
        var e :| e in entries && d in f(e);
        if e != last {
          assert e in init;
        }
      }
    }
  }

  lemma EntryClassification(e: Entry)
    ensures forall d :: d in EntryDevices(e) ==>
      Contains(e.name, "event") && e.target.Some? && d.name == e.name && d.path == ResolvePath(e.target.value) &&
      (d.kind == Keyboard ==> Contains(e.name, "kbd")) && (d.kind == Mouse ==> Contains(e.name, "mouse"))
    ensures Contains(e.name, "event") && e.target.Some? && Contains(e.name, "kbd") && Contains(e.name, "mouse") ==>
      var p := ResolvePath(e.target.value);
      EntryDevices(e) == [Device(e.name, p, Keyboard), Device(e.name, p, Mouse)]
    ensures !Contains(e.name, "kbd") && !Contains(e.name, "mouse") ==> EntryDevices(e) == []
  {
  }

  // ------------------------------------------------------------- the monitor

  /** The monitor's maps (by path and by name) and the events its callbacks were given. */
  datatype MonitorState = MonitorState(devices: map<string, Device>, byName: map<string, Device>, events: seq<DeviceEvent>)

  /** `order` lists every element of s exactly once: an iteration order of a Go map with keys s. */
  ghost predicate Enumerates(order: seq<string>, s: set<string>) {
    (forall i, j :: 0 <= i < j < |order| ==> order[i] != order[j]) &&
    (forall x :: x in order <==> x in s)
  }

  function PathsOf(ds: seq<Device>): set<string> {
    set d | d in ds :: d.path
  }

  function NamesOf(ds: seq<Device>): set<string> {
    set d | d in ds :: d.name
  }

  /** The names of the devices the monitor knows by path. */
  function KnownNames(st: MonitorState): set<string> {
    set p | p in st.devices :: st.devices[p].name
  }

  /** One step of updateDeviceList's first loop. */
  function Register(st: MonitorState, d: Device): MonitorState {
    if d.path !in st.devices then
      MonitorState(st.devices[d.path := d], st.byName[d.name := d], st.events + [DeviceEvent(Added, d, d.path)])
    else if st.devices[d.path].name != d.name then
      MonitorState(st.devices[d.path := d], st.byName[d.name := d], st.events + [DeviceEvent(Changed, d, d.path)])
    else st
  }

  function RegisterAll(st: MonitorState, ds: seq<Device>): MonitorState {
    if ds == [] then st else Register(RegisterAll(st, ds[..|ds| - 1]), ds[|ds| - 1])
  }

  /** Dropping the device at path p unless its name is in keep. */
  function Unregister(st: MonitorState, p: string, keep: set<string>): MonitorState {
    if p in st.devices && st.devices[p].name !in keep then
      var d := st.devices[p];
      MonitorState(st.devices - {p}, st.byName - {d.name}, st.events + [DeviceEvent(Removed, d, p)])
    else st
  }

  function UnregisterAll(st: MonitorState, order: seq<string>, keep: set<string>): MonitorState {
    if order == [] then st else Unregister(UnregisterAll(st, order[..|order| - 1], keep), order[|order| - 1], keep)
  }

  /**
   * updateDeviceList: register the listed devices in order, then drop every
   * previously known path the list does not mention whose name the list does
   * not mention either, visiting those paths in `order`.
   */
  function UpdateSpec(st: MonitorState, listed: seq<Device>, order: seq<string>): MonitorState {
    UnregisterAll(RegisterAll(st, listed), order, NamesOf(listed))
  }

  /** No device after index i carries the name of ds[i]. */
  predicate LastOfName(ds: seq<Device>, i: int)
    requires 0 <= i < |ds|
  {
    forall j :: i < j < |ds| ==> ds[j].name != ds[i].name
  }

  /**
   * newDeviceMap: each scanned name with the last device of that name (a
   * later entry overwrites an earlier one).
   */
  function LatestByName(ds: seq<Device>): (m: map<string, Device>)
    ensures m.Keys == NamesOf(ds)
    ensures forall n :: n in m ==> m[n].name == n && m[n] in ds
    ensures forall n :: n in m ==> exists i :: 0 <= i < |ds| && ds[i] == m[n] && LastOfName(ds, i)
  {
    if ds == [] then map[]
    else
      var init, last := ds[..|ds| - 1], ds[|ds| - 1];
      var m := LatestByName(init)[last.name := last];
      assert ds == init + [last];
      LatestStaysLast(init, last, LatestByName(init), ds, m);
      m
  }

  /** Appending a device keeps every earlier latest entry the last of its name, and makes the new one last. */
  lemma LatestStaysLast(init: seq<Device>, last: Device, m0: map<string, Device>, ds: seq<Device>, m: map<string, Device>)
    requires ds == init + [last] && m == m0[last.name := last]
    requires forall n :: n in m0 ==> m0[n].name == n
    requires forall n :: n in m0 ==> exists i :: 0 <= i < |init| && init[i] == m0[n] && LastOfName(init, i)
    ensures forall n :: n in m ==> exists i :: 0 <= i < |ds| && ds[i] == m[n] && LastOfName(ds, i)
  {
    forall n | n in m
      ensures exists i :: 0 <= i < |ds| && ds[i] == m[n] && LastOfName(ds, i)
    {
      if n == last.name {
        assert ds[|ds| - 1] == m[n] && LastOfName(ds, |ds| - 1);
      } else {
        var i :| 0 <= i < |init| && init[i] == m0[n] && LastOfName(init, i);
        assert ds[i] == m[n];
        assert LastOfName(ds, i);
      }
    }
  }

  /** One step of the path-change loop of checkDeviceExistence. */
  function Rekey(st: MonitorState, name: string, scanned: Device): MonitorState {
    if name in st.byName && st.byName[name].path != scanned.path then
      MonitorState((st.devices - {st.byName[name].path})[scanned.path := scanned], st.byName[name := scanned],
        st.events + [DeviceEvent(Changed, scanned, scanned.path)])
    else st
  }

  function RekeyAll(st: MonitorState, order: seq<string>, latest: map<string, Device>): MonitorState
    requires forall n :: n in order ==> n in latest
  {
    if order == [] then st
    else Rekey(RekeyAll(st, order[..|order| - 1], latest), order[|order| - 1], latest[order[|order| - 1]])
  }

  /** The scanned devices whose names the monitor does not know yet, in scan order. */
  function Unknown(ds: seq<Device>, known: set<string>): (r: seq<Device>)
    ensures forall d :: d in r <==> d in ds && d.name !in known
  {
    if ds == [] then []
    else Unknown(ds[..|ds| - 1], known) + (if ds[|ds| - 1].name in known then [] else [ds[|ds| - 1]])
  }

  /** The paths the existence test reports as gone, dropped in `order`. */
  function DropMissing(st: MonitorState, order: seq<string>): MonitorState {
    UnregisterAll(st, order, {})
  }

  /**
   * checkDeviceExistence as written: drop the paths that no longer exist,
   * pass the devices with unknown names to updateDeviceList, then re-key the
   * known names whose path changed.
   */
  function CheckSpec(st: MonitorState, scan: seq<Device>, missingOrder: seq<string>, updateOrder: seq<string>,
                     rekeyOrder: seq<string>): MonitorState
    requires forall n :: n in rekeyOrder ==> n in LatestByName(scan)
  {
    var unseen := Unknown(scan, KnownNames(st));
    var st1 := DropMissing(st, missingOrder);
    var st2 := if unseen == [] then st1 else UpdateSpec(st1, unseen, updateOrder);
    RekeyAll(st2, rekeyOrder, LatestByName(scan))
  }

  /** checkDeviceExistence with the new devices only registered, never used to drop others. */
  function CheckSpecFixed(st: MonitorState, scan: seq<Device>, missingOrder: seq<string>, rekeyOrder: seq<string>): MonitorState
    requires forall n :: n in rekeyOrder ==> n in LatestByName(scan)
  {
    var st1 := DropMissing(st, missingOrder);
    var st2 := RegisterAll(st1, Unknown(scan, KnownNames(st)));
    RekeyAll(st2, rekeyOrder, LatestByName(scan))
  }

  /** Registering adds exactly the listed paths and leaves every other known path as it was. */
  lemma {:induction false} RegisterAllFacts(st: MonitorState, ds: seq<Device>)
    ensures RegisterAll(st, ds).devices.Keys == st.devices.Keys + PathsOf(ds)
    ensures forall p :: p in st.devices && p !in PathsOf(ds) ==> RegisterAll(st, ds).devices[p] == st.devices[p]
  {
    if ds != [] {
      var init := ds[..|ds| - 1];
      RegisterAllFacts(st, init);
      assert ds == init + [ds[|ds| - 1]];
      assert PathsOf(ds) == PathsOf(init) + {ds[|ds| - 1].path};
    }
  }

  /**
   * Dropping along a duplicate-free order: a visited path disappears exactly
   * when its name is not kept; every other path keeps its device.
   */
  /** Dropping the missing paths leaves exactly the known paths that are not missing. */
  lemma DropMissingKeys(st: MonitorState, order: seq<string>, missing: set<string>)
    requires Enumerates(order, st.devices.Keys * missing)
    ensures DropMissing(st, order).devices.Keys == st.devices.Keys - missing
  {
    UnregisterAllFacts(st, order, {});
  }

  lemma {:induction false} UnregisterAllFacts(st: MonitorState, order: seq<string>, keep: set<string>)
    requires forall i, j :: 0 <= i < j < |order| ==> order[i] != order[j]
    ensures forall p :: p !in order ==> (p in UnregisterAll(st, order, keep).devices <==> p in st.devices)
    ensures forall p :: p !in order && p in st.devices ==> UnregisterAll(st, order, keep).devices[p] == st.devices[p]
    ensures forall p :: p in order ==>
      (p in UnregisterAll(st, order, keep).devices <==> p in st.devices && st.devices[p].name in keep)
    ensures forall p :: p in UnregisterAll(st, order, keep).devices ==> UnregisterAll(st, order, keep).devices[p] == st.devices[p]
  {
    if order != [] {
      var init := order[..|order| - 1];
      var last := order[|order| - 1];
      UnregisterAllFacts(st, init, keep);
      forall i | 0 <= i < |init|
        ensures init[i] != last
      {
        assert order[i] != order[|order| - 1];
      }
      assert forall p :: p in order <==> p in init || p == last;
    }
  }

  /**
   * updateDeviceList's outcome: every listed device's path is known
   * afterwards; a previously known path the list does not mention survives
   * exactly when its device's name is listed; no other path appears.
   */
  lemma UpdateOutcome(st: MonitorState, listed: seq<Device>, order: seq<string>)
    requires Enumerates(order, st.devices.Keys - PathsOf(listed))
    ensures forall d :: d in listed ==> d.path in UpdateSpec(st, listed, order).devices
    ensures forall p :: p in st.devices && p !in PathsOf(listed) ==>
      (p in UpdateSpec(st, listed, order).devices <==> st.devices[p].name in NamesOf(listed))
    ensures UpdateSpec(st, listed, order).devices.Keys <= st.devices.Keys + PathsOf(listed)
  {
    var st1 := RegisterAll(st, listed);
    RegisterAllFacts(st, listed);
    UnregisterAllFacts(st1, order, NamesOf(listed));
    forall d | d in listed ensures d.path in UpdateSpec(st, listed, order).devices {
      assert d.path in PathsOf(listed);
    }
  }

  /** A re-keying pass that finds every scanned name at its known path (or unknown) changes nothing. */
  lemma {:induction false} RekeyAllQuiet(st: MonitorState, order: seq<string>, latest: map<string, Device>)
    requires forall n :: n in order ==> n in latest
    requires forall n :: n in order && n in st.byName ==> st.byName[n].path == latest[n].path
    ensures RekeyAll(st, order, latest) == st
  {
    if order != [] {
      RekeyAllQuiet(st, order[..|order| - 1], latest);
    }
  }

  /**
   * Dropping only missing paths and then registering leaves every known,
   * still-present path known: the add phase of the corrected poll never
   * loses a device that is still there.
   */
  lemma AddPhaseKeepsPresent(st: MonitorState, scan: seq<Device>, missing: set<string>, missingOrder: seq<string>)
    requires Enumerates(missingOrder, st.devices.Keys * missing)
    ensures forall p :: p in st.devices && p !in missing ==>
      p in RegisterAll(DropMissing(st, missingOrder), Unknown(scan, KnownNames(st))).devices
  {
    var st1 := DropMissing(st, missingOrder);
    UnregisterAllFacts(st, missingOrder, {});
    RegisterAllFacts(st1, Unknown(scan, KnownNames(st)));
  }

  lemma EnumerationOfSingleton(order: seq<string>, x: string)
    requires Enumerates(order, {x})
    ensures order == [x]
  {
    EnumerationSize(order, {x});
    assert x in order;
  }

  lemma EnumerationOfNothing(order: seq<string>)
    requires Enumerates(order, {})
    ensures order == []
  {
    EnumerationSize(order, {});
  }

  /** The shared fixture of the finding: a known keyboard, and a mouse that has just appeared. */
  lemma FindingFixture(k: Device, m: Device)
    requires k == Device("usb-Kb-event-kbd", "/dev/input/event3", Keyboard)
    requires m == Device("usb-Ms-event-mouse", "/dev/input/event5", Mouse)
    ensures KnownNames(MonitorState(map[k.path := k], map[k.name := k], [])) == {k.name}
    ensures Unknown([k, m], {k.name}) == [m]
    ensures RegisterAll(MonitorState(map[k.path := k], map[k.name := k], []), [m])
      == Register(MonitorState(map[k.path := k], map[k.name := k], []), m)
    ensures LatestByName([k, m]) == map[k.name := k, m.name := m]
  {
    FixtureLatest(k, m);
    var st := MonitorState(map[k.path := k], map[k.name := k], []);
    assert k.path in st.devices;
    forall n | n in KnownNames(st)
      ensures n == k.name
    {
    }
    assert [k, m][..1] == [k];
    assert [k][..0] == [];
    assert [m][..0] == [];
    assert Unknown([k], {k.name}) == [];
  }

  /** newDeviceMap for the finding's keyboard and mouse, whose names differ. */
  lemma FixtureLatest(k: Device, m: Device)
    requires k == Device("usb-Kb-event-kbd", "/dev/input/event3", Keyboard)
    requires m == Device("usb-Ms-event-mouse", "/dev/input/event5", Mouse)
    ensures k.name != m.name
    ensures LatestByName([k, m]) == map[k.name := k, m.name := m]
  {
    assert k.name != m.name by {
      assert k.name[4] != m.name[4];
    }
    assert [k, m][..1] == [k];
    assert [k][..0] == [];
  }

  /**
   * Finding, as written: a keyboard already known at event3 and a mouse that
   * has just appeared at event5. The poll hands only the mouse to
   * updateDeviceList, whose removal pass then drops the keyboard, which is
   * still plugged in, and reports it removed. Whatever order the maps are
   * visited in.
   */
  lemma PollDropsPresentDevice(missingOrder: seq<string>, updateOrder: seq<string>, rekeyOrder: seq<string>)
    requires var k := Device("usb-Kb-event-kbd", "/dev/input/event3", Keyboard);
      Enumerates(missingOrder, {}) && Enumerates(updateOrder, {k.path})
    requires var k := Device("usb-Kb-event-kbd", "/dev/input/event3", Keyboard);
      var m := Device("usb-Ms-event-mouse", "/dev/input/event5", Mouse);
      Enumerates(rekeyOrder, NamesOf([k, m]))
    ensures var k := Device("usb-Kb-event-kbd", "/dev/input/event3", Keyboard);
      var m := Device("usb-Ms-event-mouse", "/dev/input/event5", Mouse);
      var st := MonitorState(map[k.path := k], map[k.name := k], []);
      var after := CheckSpec(st, [k, m], missingOrder, updateOrder, rekeyOrder);
      k.path !in after.devices && DeviceEvent(Removed, k, k.path) in after.events
  {
    var k := Device("usb-Kb-event-kbd", "/dev/input/event3", Keyboard);
    var m := Device("usb-Ms-event-mouse", "/dev/input/event5", Mouse);
    var st := MonitorState(map[k.path := k], map[k.name := k], []);
    EnumerationOfNothing(missingOrder);
    EnumerationOfSingleton(updateOrder, k.path);
    FindingFixture(k, m);
    assert DropMissing(st, missingOrder) == st;
    UpdatePassDropsKeyboard(k, m);
    var st2 := MonitorState(map[m.path := m], map[m.name := m], [DeviceEvent(Added, m, m.path), DeviceEvent(Removed, k, k.path)]);
    RekeyAllQuiet(st2, rekeyOrder, LatestByName([k, m]));
  }

  /**
   * The same finding on the monitor itself: a monitor that knows only the
   * keyboard polls a scan listing the keyboard and a new mouse, with no
   * path gone, and loses the keyboard.
   */
  method PollRemovesPresentKeyboard(mon: DeviceMonitor)
    requires mon.State() == MonitorState(map["/dev/input/event3" := Device("usb-Kb-event-kbd", "/dev/input/event3", Keyboard)],
      map["usb-Kb-event-kbd" := Device("usb-Kb-event-kbd", "/dev/input/event3", Keyboard)], [])
    modifies mon
    ensures "/dev/input/event3" !in mon.devices
    ensures DeviceEvent(Removed, Device("usb-Kb-event-kbd", "/dev/input/event3", Keyboard), "/dev/input/event3") in mon.events
  {
    var k := Device("usb-Kb-event-kbd", "/dev/input/event3", Keyboard);
    var m := Device("usb-Ms-event-mouse", "/dev/input/event5", Mouse);
    FindingFixture(k, m);
    ghost var missingOrder, updateOrder, rekeyOrder := mon.CheckDeviceExistence(Scanned([k, m]), {});
    assert PathsOf([m]) == {m.path};
    PollDropsPresentDevice(missingOrder, updateOrder, rekeyOrder);
  }

  /** The update pass of the finding: handed only the mouse, it registers it and drops the keyboard. */
  lemma UpdatePassDropsKeyboard(k: Device, m: Device)
    requires k == Device("usb-Kb-event-kbd", "/dev/input/event3", Keyboard)
    requires m == Device("usb-Ms-event-mouse", "/dev/input/event5", Mouse)
    ensures UpdateSpec(MonitorState(map[k.path := k], map[k.name := k], []), [m], [k.path]) ==
      MonitorState(map[m.path := m], map[m.name := m], [DeviceEvent(Added, m, m.path), DeviceEvent(Removed, k, k.path)])
  {
    var st := MonitorState(map[k.path := k], map[k.name := k], []);
    assert k.path != m.path by {
      assert k.path[16] != m.path[16];
    }
    var st1 := Register(st, m);
    assert RegisterAll(st, [m]) == st1 by {
      assert [m][..0] == [];
    }
    assert NamesOf([m]) == {m.name};
    assert UnregisterAll(st1, [k.path], {m.name}) == Unregister(st1, k.path, {m.name}) by {
      assert [k.path][..0] == [];
    }
    assert k.name != m.name by {
      assert k.name[4] != m.name[4];
    }
  }

  /** Finding, corrected: on the same input the corrected poll keeps the keyboard and reports the mouse added. */
  lemma FixedPollKeepsPresentDevice(missingOrder: seq<string>, rekeyOrder: seq<string>)
    requires Enumerates(missingOrder, {})
    requires var k := Device("usb-Kb-event-kbd", "/dev/input/event3", Keyboard);
      var m := Device("usb-Ms-event-mouse", "/dev/input/event5", Mouse);
      Enumerates(rekeyOrder, NamesOf([k, m]))
    ensures var k := Device("usb-Kb-event-kbd", "/dev/input/event3", Keyboard);
      var m := Device("usb-Ms-event-mouse", "/dev/input/event5", Mouse);
      var st := MonitorState(map[k.path := k], map[k.name := k], []);
      var after := CheckSpecFixed(st, [k, m], missingOrder, rekeyOrder);
      after.devices == map[k.path := k, m.path := m] && after.events == [DeviceEvent(Added, m, m.path)]
  {
    var k := Device("usb-Kb-event-kbd", "/dev/input/event3", Keyboard);
    var m := Device("usb-Ms-event-mouse", "/dev/input/event5", Mouse);
    var st := MonitorState(map[k.path := k], map[k.name := k], []);
    EnumerationOfNothing(missingOrder);
    FindingFixture(k, m);
    RekeyAllQuiet(Register(st, m), rekeyOrder, LatestByName([k, m]));
  }

  class DeviceMonitor {
    var devices: map<string, Device>
    var byName: map<string, Device>
    var events: seq<DeviceEvent>

    function State(): MonitorState
      reads this
    {
      MonitorState(devices, byName, events)
    }

    constructor ()
      ensures State() == MonitorState(map[], map[], [])
    {
      devices, byName, events := map[], map[], [];
    }

    /** The first loop of updateDeviceList. */
    method RegisterDevices(listed: seq<Device>)
      modifies this
      ensures State() == RegisterAll(old(State()), listed)
    {
      var i := 0;
      while i < |listed|
        invariant 0 <= i <= |listed|
        invariant State() == RegisterAll(old(State()), listed[..i])
      {
        var d := listed[i];
        assert listed[..i + 1][..i] == listed[..i];
        if d.path !in devices {
          devices := devices[d.path := d];
          byName := byName[d.name := d];
          events := events + [DeviceEvent(Added, d, d.path)];
        } else if devices[d.path].name != d.name {
          devices := devices[d.path := d];
          byName := byName[d.name := d];
          events := events + [DeviceEvent(Changed, d, d.path)];
        }
        i := i + 1;
      }
      assert listed[..i] == listed;
    }

    /** Visits the paths of `pending` in an order of the runtime's choosing, dropping those whose name is not kept. */
    method DropPaths(pending: set<string>, keep: set<string>) returns (ghost order: seq<string>)
      modifies this
      ensures Enumerates(order, pending)
      ensures State() == UnregisterAll(old(State()), order, keep)
    {
      var rest := pending;
      order := [];
      while rest != {}
        invariant rest <= pending
        invariant forall i, j :: 0 <= i < j < |order| ==> order[i] != order[j]
        invariant forall x :: x in order <==> x in pending && x !in rest
        invariant State() == UnregisterAll(old(State()), order, keep)
        decreases rest
      {
        var p :| p in rest;
        if p in devices && devices[p].name !in keep {
          var d := devices[p];
          events := events + [DeviceEvent(Removed, d, p)];
          devices := devices - {p};
          byName := byName - {d.name};
        }
        assert (order + [p])[..|order|] == order;
        order := order + [p];
        rest := rest - {p};
      }
    }

    /** updateDeviceList. */
    method UpdateDeviceList(listed: seq<Device>) returns (ghost order: seq<string>)
      modifies this
      ensures Enumerates(order, old(devices).Keys - PathsOf(listed))
      ensures State() == UpdateSpec(old(State()), listed, order)
    {
      var current := devices.Keys;
      RegisterDevices(listed);
      order := DropPaths(current - PathsOf(listed), NamesOf(listed));
    }

    /** The path-change loop of checkDeviceExistence, over the names of newDeviceMap. */
    method RekeyDevices(latest: map<string, Device>) returns (ghost order: seq<string>)
      modifies this
      ensures Enumerates(order, latest.Keys)
      ensures State() == RekeyAll(old(State()), order, latest)
    {
      var rest := latest.Keys;
      order := [];
      while rest != {}
        invariant rest <= latest.Keys
        invariant forall i, j :: 0 <= i < j < |order| ==> order[i] != order[j]
        invariant forall x :: x in order <==> x in latest && x !in rest
        invariant State() == RekeyAll(old(State()), order, latest)
        decreases rest
      {
        var name :| name in rest;
        var scanned := latest[name];
        if name in byName && byName[name].path != scanned.path {
          devices := (devices - {byName[name].path})[scanned.path := scanned];
          byName := byName[name := scanned];
          events := events + [DeviceEvent(Changed, scanned, scanned.path)];
        }
        assert (order + [name])[..|order|] == order;
        order := order + [name];
        rest := rest - {name};
      }
    }

    /**
     * checkDeviceExistence: `missing` holds the paths the existence test
     * reports as gone.
     */
    method CheckDeviceExistence(scan: Scan, missing: set<string>)
      returns (ghost missingOrder: seq<string>, ghost updateOrder: seq<string>, ghost rekeyOrder: seq<string>)
      modifies this
      ensures scan.ScanFailed? ==> State() == old(State())
      ensures scan.Scanned? ==>
        Enumerates(missingOrder, old(devices).Keys * missing) &&
        Enumerates(rekeyOrder, NamesOf(scan.devices)) &&
        State() == CheckSpec(old(State()), scan.devices, missingOrder, updateOrder, rekeyOrder)
      ensures scan.Scanned? ==>
        var unseen := Unknown(scan.devices, KnownNames(old(State())));
        (unseen == [] ==> updateOrder == []) &&
        (unseen != [] ==> Enumerates(updateOrder, (old(devices).Keys - missing) - PathsOf(unseen)))
    {
      missingOrder, updateOrder, rekeyOrder := [], [], [];
      if scan.ScanFailed? {
        return;
      }
      var latest := LatestByName(scan.devices);
      var unseen := Unknown(scan.devices, KnownNames(State()));
      ghost var before := State();
      missingOrder := DropPaths(devices.Keys * missing, {});
      DropMissingKeys(before, missingOrder, missing);
      if unseen != [] {
        updateOrder := UpdateDeviceList(unseen);
      }
      rekeyOrder := RekeyDevices(latest);
    }

    /**
     * GetConnectedDevices: one entry per path key, in the runtime's map
     * order; the snapshot holds exactly the known devices, as many as there
     * are paths.
     */
    method GetConnectedDevices() returns (snapshot: seq<Device>, ghost keys: seq<string>)
      ensures |snapshot| == |devices.Keys|
      ensures forall d :: d in snapshot <==> d in devices.Values
      ensures Enumerates(keys, devices.Keys)
      ensures |snapshot| == |keys| && forall i :: 0 <= i < |keys| ==> snapshot[i] == devices[keys[i]]
    {
      var rest := devices.Keys;
      snapshot, keys := [], [];
      while rest != {}
        invariant rest <= devices.Keys
        invariant forall i, j :: 0 <= i < j < |keys| ==> keys[i] != keys[j]
        invariant forall x :: x in keys <==> x in devices && x !in rest
        invariant |snapshot| == |keys| && forall i :: 0 <= i < |keys| ==> snapshot[i] == devices[keys[i]]
        decreases rest
      {
        var p :| p in rest;
        snapshot := snapshot + [devices[p]];
        keys := keys + [p];
        rest := rest - {p};
      }
      EnumerationSize(keys, devices.Keys);
      forall d | d in devices.Values
        ensures d in snapshot
      {
        var p :| p in devices && devices[p] == d;
        var i :| 0 <= i < |keys| && keys[i] == p;
        assert snapshot[i] == d;
      }
    }
  }

  /**
   * GetDevices: the monitor's snapshot when a monitor exists and knows some
   * device, otherwise a new scan.
   */
  method GetDevices(monitor: DeviceMonitor?, listing: Option<seq<Entry>>) returns (r: Scan)
    ensures monitor != null && monitor.devices != map[] ==>
      r.Scanned? && |r.devices| == |monitor.devices.Keys| &&
      (forall d :: d in r.devices <==> d in monitor.devices.Values)
    ensures monitor == null || monitor.devices == map[] ==>
      (r.ScanFailed? <==> listing.None?) && (listing.Some? ==> r.devices == ScanOf(listing.value))
  {
    if monitor != null {
      var snapshot, keys := monitor.GetConnectedDevices();
      if |snapshot| > 0 {
        return Scanned(snapshot);
      }
    }
    r := ScanDevices(listing);
  }

  /** A duplicate-free listing of a set is as long as the set is large. */
  lemma {:induction false} EnumerationSize(order: seq<string>, s: set<string>)
    requires Enumerates(order, s)
    ensures |order| == |s|
    decreases |order|
  {
    if order != [] {
      var x := order[|order| - 1];
      var init := order[..|order| - 1];
      assert forall y :: y in init <==> y in s - {x} by {
        forall y ensures y in init <==> y in s - {x} {
          if y in init {
            var i :| 0 <= i < |init| && init[i] == y;
            assert order[i] != order[|order| - 1];
          }
          if y in s - {x} {
            assert y in order;
            var i :| 0 <= i < |order| && order[i] == y;
            assert i != |order| - 1;
            assert init[i] == y;
          }
        }
      }
      EnumerationSize(init, s - {x});
    } else {
      assert forall y :: y !in s;
      assert s == {};
    }
  }
}
