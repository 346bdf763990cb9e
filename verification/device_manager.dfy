/**
 * The desktop GUI's device panel (internal/gui/device_manager.go): the
 * device list, the selected keyboard and mouse, and the two drop-downs that
 * show them. Widgets are modelled by their option lists and selected text;
 * status texts by what they report.
 */
module GuiDevices {
  import opened Wrappers
  import opened Devices
  import opened GuiConfig

  datatype Status = Scanning | ListFailed | NoneFound | Found(keyboards: nat, mice: nat)

  /** The devices of a kind, in list order. */
  function OfKind(ds: seq<Device>, kind: DeviceType): (r: seq<Device>)
    ensures |r| <= |ds|
  {
    if ds == [] then []
    else OfKind(ds[..|ds| - 1], kind) + (if ds[|ds| - 1].kind == kind then [ds[|ds| - 1]] else [])
  }

  /** The first device with exactly this name. */
  function FirstNamed(ds: seq<Device>, name: string): Option<Device> {
    if ds == [] then None
    else if ds[0].name == name then Some(ds[0])
    else FirstNamed(ds[1..], name)
  }

  function Names(ds: seq<Device>): (r: seq<string>)
    ensures |r| == |ds|
  {
    seq(|ds|, i requires 0 <= i < |ds| => ds[i].name)
  }

  /**
   * RefreshDevices' choice for one kind: the first exact match of a
   * non-empty preference, else the first device of the kind, else the
   * previous selection.
   */
  function Refreshed(ofKind: seq<Device>, pref: Option<string>, previous: Option<Device>): Option<Device> {
    if pref.Some? && pref.value != "" && FirstNamed(ofKind, pref.value).Some? then FirstNamed(ofKind, pref.value)
    else if ofKind != [] then Some(ofKind[0])
    else previous
  }

  /** updateSelections' choice for one kind: the current selection, else the first option, else none. */
  function Kept(ofKind: seq<Device>, current: Option<Device>): Option<Device> {
    if current.Some? then current else if ofKind != [] then Some(ofKind[0]) else None
  }

  function ShownName(d: Option<Device>): string {
    if d.Some? then d.value.name else ""
  }

  /** A name match found by FirstNamed is the earliest device of that name. */
  lemma {:induction false} FirstNamedIndex(ds: seq<Device>, name: string)
    ensures FirstNamed(ds, name).None? <==> forall i :: 0 <= i < |ds| ==> ds[i].name != name
    ensures FirstNamed(ds, name).Some? ==>
      exists i :: 0 <= i < |ds| && ds[i] == FirstNamed(ds, name).value && ds[i].name == name &&
        forall j :: 0 <= j < i ==> ds[j].name != name
  {
    if ds != [] && ds[0].name != name {
      FirstNamedIndex(ds[1..], name);
      assert forall i :: 1 <= i < |ds| ==> ds[i] == ds[1..][i - 1];
      if FirstNamed(ds[1..], name).Some? {
        var i :| 0 <= i < |ds[1..]| && ds[1..][i] == FirstNamed(ds[1..], name).value && ds[1..][i].name == name &&
          forall j :: 0 <= j < i ==> ds[1..][j].name != name;
        assert ds[i + 1] == FirstNamed(ds, name).value;
      }
    }
  }

  /** The kind's devices are exactly the listed devices of that kind. */
  lemma {:induction false} OfKindMembers(ds: seq<Device>, kind: DeviceType)
    ensures forall d :: d in OfKind(ds, kind) <==> d in ds && d.kind == kind
  {
    if ds != [] {
      OfKindMembers(ds[..|ds| - 1], kind);
      assert ds == ds[..|ds| - 1] + [ds[|ds| - 1]];
    }
  }

  /** Filtering keeps the relative order: the kind's devices of a concatenation are those of each part. */
  lemma {:induction false} OfKindAppend(a: seq<Device>, b: seq<Device>, kind: DeviceType)
    ensures OfKind(a + b, kind) == OfKind(a, kind) + OfKind(b, kind)
    decreases |b|
  {
    if b == [] {
      assert a + b == a;
    } else {
      var init := b[..|b| - 1];
      OfKindAppend(a, init, kind);
      var ab := a + b;
      assert ab[..|ab| - 1] == a + init;
      assert ab[|ab| - 1] == b[|b| - 1];
      assert OfKind(ab, kind) == OfKind(a + init, kind) + (if b[|b| - 1].kind == kind then [b[|b| - 1]] else []);
    }
  }

  /** The refreshed selection of a kind is a listed device of that kind, unless none is listed. */
  lemma RefreshedIsListed(ofKind: seq<Device>, pref: Option<string>, previous: Option<Device>)
    ensures ofKind != [] ==> Refreshed(ofKind, pref, previous).Some? && Refreshed(ofKind, pref, previous).value in ofKind
    ensures ofKind == [] ==> Refreshed(ofKind, pref, previous) == previous
    ensures pref.Some? && pref.value != "" && (exists d :: d in ofKind && d.name == pref.value) ==>
      Refreshed(ofKind, pref, previous).Some? && Refreshed(ofKind, pref, previous).value.name == pref.value
  {
    if pref.Some? {
      FirstNamedIndex(ofKind, pref.value);
    }
  }

  class DeviceManager {
    var devices: seq<Device>
    var selectedKeyboard: Option<Device>
    var selectedMouse: Option<Device>
    var status: Status
    var configManager: ConfigManager?
    /** Whether the panel with the two drop-downs exists yet. */
    var hasSelectors: bool
    var keyboardOptions: seq<string>
    var mouseOptions: seq<string>
    var keyboardShown: string
    var mouseShown: string

    /** The preference of a kind, when a settings manager is attached. */
    function Preference(kind: DeviceType): Option<string>
      reads this, configManager
    {
      if configManager == null then None
      else if kind == Keyboard then Some(configManager.config.preferredKeyboard)
      else Some(configManager.config.preferredMouse)
    }

    /** Collects the devices of a kind, in order. */
    static method Filter(ds: seq<Device>, kind: DeviceType) returns (r: seq<Device>)
      ensures r == OfKind(ds, kind)
    {
      r := [];
      var i := 0;
      while i < |ds|
        invariant 0 <= i <= |ds|
        invariant r == OfKind(ds[..i], kind)
      {
        assert ds[..i + 1][..i] == ds[..i];
        if ds[i].kind == kind {
          r := r + [ds[i]];
        }
        i := i + 1;
      }
      assert ds[..i] == ds;
    }

    /** The search loop with early exit for an exact name. */
    static method FindNamed(ds: seq<Device>, name: string) returns (r: Option<Device>)
      ensures r == FirstNamed(ds, name)
    {
      var i := 0;
      while i < |ds|
        invariant 0 <= i <= |ds|
        invariant FirstNamed(ds, name) == FirstNamed(ds[i..], name)
      {
        if ds[i].name == name {
          return Some(ds[i]);
        }
        assert ds[i..][1..] == ds[i + 1..];
        i := i + 1;
      }
      r := None;
    }

    /** The option list of a drop-down. */
    static method CollectNames(ds: seq<Device>) returns (names: seq<string>)
      ensures names == Names(ds)
    {
      names := [];
      var i := 0;
      while i < |ds|
        invariant 0 <= i <= |ds|
        invariant names == Names(ds[..i])
      {
        names := names + [ds[i].name];
        i := i + 1;
      }
      assert ds[..i] == ds;
    }

    /** updateSelections. */
    method UpdateSelections(keyboards: seq<Device>, mice: seq<Device>)
      modifies this`keyboardOptions, this`mouseOptions, this`keyboardShown, this`mouseShown,
        this`selectedKeyboard, this`selectedMouse
      ensures keyboardOptions == Names(keyboards) && mouseOptions == Names(mice)
      ensures selectedKeyboard == Kept(keyboards, old(selectedKeyboard))
      ensures selectedMouse == Kept(mice, old(selectedMouse))
      ensures keyboardShown == ShownName(selectedKeyboard) && mouseShown == ShownName(selectedMouse)
    {
      keyboardOptions := CollectNames(keyboards);
      mouseOptions := CollectNames(mice);
      if selectedKeyboard.Some? {
        keyboardShown := selectedKeyboard.value.name;
      } else if |keyboards| > 0 {
        keyboardShown := keyboards[0].name;
        selectedKeyboard := Some(keyboards[0]);
      } else {
        keyboardShown := "";
        selectedKeyboard := None;
      }
      if selectedMouse.Some? {
        mouseShown := selectedMouse.value.name;
      } else if |mice| > 0 {
        mouseShown := mice[0].name;
        selectedMouse := Some(mice[0]);
      } else {
        mouseShown := "";
        selectedMouse := None;
      }
    }

    /**
     * RefreshDevices, given what GetDevices returned. A failed or empty
     * listing only updates the status; otherwise each kind is re-chosen and,
     * when the drop-downs exist, they are refilled.
     */
    method RefreshDevices(listing: Scan)
      modifies this
      ensures configManager == old(configManager) && hasSelectors == old(hasSelectors)
      ensures devices == (if listing.ScanFailed? then [] else listing.devices)
      ensures listing.ScanFailed? || listing.devices == [] ==>
        status == (if listing.ScanFailed? then ListFailed else NoneFound) &&
        selectedKeyboard == old(selectedKeyboard) && selectedMouse == old(selectedMouse) &&
        keyboardOptions == old(keyboardOptions) && mouseOptions == old(mouseOptions) &&
        keyboardShown == old(keyboardShown) && mouseShown == old(mouseShown)
      ensures listing.Scanned? && listing.devices != [] ==>
        var keyboards := OfKind(listing.devices, Keyboard);
        var mice := OfKind(listing.devices, Mouse);
        status == Found(|keyboards|, |mice|) &&
        selectedKeyboard == Refreshed(keyboards, Preference(Keyboard), old(selectedKeyboard)) &&
        selectedMouse == Refreshed(mice, Preference(Mouse), old(selectedMouse)) &&
        (hasSelectors ==>
          keyboardOptions == Names(keyboards) && mouseOptions == Names(mice) &&
          keyboardShown == ShownName(selectedKeyboard) && mouseShown == ShownName(selectedMouse)) &&
        (!hasSelectors ==>
          keyboardOptions == old(keyboardOptions) && mouseOptions == old(mouseOptions) &&
          keyboardShown == old(keyboardShown) && mouseShown == old(mouseShown))
    {
      if listing.ScanFailed? {
        devices := [];
        status := ListFailed;
        return;
      }
      devices := listing.devices;
      if |devices| == 0 {
        status := NoneFound;
        return;
      }
      var keyboards := Filter(devices, Keyboard);
      var mice := Filter(devices, Mouse);
      status := Found(|keyboards|, |mice|);
      ChooseSelections(keyboards, mice);
      if hasSelectors {
        UpdateSelections(keyboards, mice);
      }
    }

    /** The selection part of RefreshDevices. */
    method ChooseSelections(keyboards: seq<Device>, mice: seq<Device>)
      modifies this`selectedKeyboard, this`selectedMouse
      ensures selectedKeyboard == Refreshed(keyboards, Preference(Keyboard), old(selectedKeyboard))
      ensures selectedMouse == Refreshed(mice, Preference(Mouse), old(selectedMouse))
    {
      var keyboardFound, mouseFound := false, false;
      if configManager != null {
        var c := configManager.GetConfig();
        if c.preferredKeyboard != "" {
          var k := FindNamed(keyboards, c.preferredKeyboard);
          if k.Some? {
            selectedKeyboard := k;
            keyboardFound := true;
          }
        }
        if c.preferredMouse != "" {
          var m := FindNamed(mice, c.preferredMouse);
          if m.Some? {
            selectedMouse := m;
            mouseFound := true;
          }
        }
      }
      if !keyboardFound && |keyboards| > 0 {
        selectedKeyboard := Some(keyboards[0]);
      }
      if !mouseFound && |mice| > 0 {
        selectedMouse := Some(mice[0]);
      }
    }

    /**
     * LoadSavedDevicePreferences: for each kind, a non-empty preference that
     * names a device of that kind selects the first such device.
     */
    method LoadSavedDevicePreferences()
      modifies this`selectedKeyboard, this`selectedMouse, this`keyboardShown, this`mouseShown
      ensures var k := Preference(Keyboard);
        if k.Some? && k.value != "" && FirstNamed(OfKind(devices, Keyboard), k.value).Some? then
          selectedKeyboard == FirstNamed(OfKind(devices, Keyboard), k.value) &&
          keyboardShown == (if hasSelectors then k.value else old(keyboardShown))
        else selectedKeyboard == old(selectedKeyboard) && keyboardShown == old(keyboardShown)
      ensures var m := Preference(Mouse);
        if m.Some? && m.value != "" && FirstNamed(OfKind(devices, Mouse), m.value).Some? then
          selectedMouse == FirstNamed(OfKind(devices, Mouse), m.value) &&
          mouseShown == (if hasSelectors then m.value else old(mouseShown))
        else selectedMouse == old(selectedMouse) && mouseShown == old(mouseShown)
    {
      if configManager == null {
        return;
      }
      var c := configManager.GetConfig();
      if c.preferredKeyboard != "" {
        var k := FindNamed(OfKind(devices, Keyboard), c.preferredKeyboard);
        if k.Some? {
          FirstNamedIndex(OfKind(devices, Keyboard), c.preferredKeyboard);
          selectedKeyboard := k;
          if hasSelectors {
            keyboardShown := k.value.name;
          }
        }
      }
      if c.preferredMouse != "" {
        var m := FindNamed(OfKind(devices, Mouse), c.preferredMouse);
        if m.Some? {
          FirstNamedIndex(OfKind(devices, Mouse), c.preferredMouse);
          selectedMouse := m;
          if hasSelectors {
            mouseShown := m.value.name;
          }
        }
      }
    }

    /**
     * SaveDevicePreferences as written: it does nothing unless a settings
     * manager and both selections exist; otherwise it edits a copy of the
     * configuration and asks the manager to save, which writes the
     * manager's own, unedited configuration.
     */
    method SaveDevicePreferences(writeOk: bool) returns (notified: Option<bool>)
      modifies configManager
      ensures configManager != null ==> configManager.config == old(configManager.config)
      ensures notified.None? <==> configManager == null || selectedKeyboard.None? || selectedMouse.None?
      ensures notified.None? && configManager != null ==> configManager.saved == old(configManager.saved)
      ensures notified.Some? ==>
        (notified.value == writeOk &&
         configManager.saved == (if writeOk then Some(old(configManager.config)) else old(configManager.saved)))
    {
      if configManager == null || selectedKeyboard.None? || selectedMouse.None? {
        return None;
      }
      var c := configManager.GetConfig();
      c := c.(preferredKeyboard := selectedKeyboard.value.name, preferredMouse := selectedMouse.value.name);
      var ok := configManager.SaveConfig(writeOk);
      notified := Some(ok);
    }

    /** SaveDevicePreferences as evidently intended: the selections are stored in the manager and written. */
    method SaveDevicePreferencesFixed(writeOk: bool) returns (notified: Option<bool>)
      modifies configManager
      ensures notified.None? <==> configManager == null || selectedKeyboard.None? || selectedMouse.None?
      ensures notified.None? && configManager != null ==>
        configManager.config == old(configManager.config) && configManager.saved == old(configManager.saved)
      ensures notified.Some? ==>
        notified.value == writeOk &&
        configManager.config.preferredKeyboard == selectedKeyboard.value.name &&
        configManager.config.preferredMouse == selectedMouse.value.name &&
        (writeOk ==> configManager.saved == Some(configManager.config))
    {
      if configManager == null || selectedKeyboard.None? || selectedMouse.None? {
        return None;
      }
      configManager.config := configManager.config.(preferredKeyboard := selectedKeyboard.value.name,
        preferredMouse := selectedMouse.value.name);
      var ok := configManager.SaveConfig(writeOk);
      notified := Some(ok);
    }
  }
}
