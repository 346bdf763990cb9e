/**
 * The control panel and the server together: what the page makes of the
 * replies the handlers produce, and the key names under which the page
 * looks for the device preferences.
 */
module EndToEnd {
  import opened Wrappers
  import opened Json
  import Settings
  import Devices
  import Routes
  import ControlPanel

  /** A reply as the page receives it. */
  function Received(r: Routes.Reply, contentLength: Option<string>): ControlPanel.Response {
    ControlPanel.Http(r.code, contentLength, ControlPanel.Parsed(r.body))
  }

  /** Every error envelope the server writes ends as a failure whose toast is the server's message. */
  lemma ErrorRepliesReachToast(code: int, message: string, contentLength: Option<string>)
    requires !ControlPanel.IsOk(code) && message != ""
    ensures ControlPanel.Settle(Received(Routes.ErrorReply(code, message), contentLength)) == ControlPanel.Failed(message)
  {
    var body := Routes.ErrorReply(code, message).body;
    assert Prop(body, "error") == Value(JStr(message));
  }

  /**
   * The status reply sets the indicator green and disables start exactly
   * when the service runs; a stopped service shows red.
   */
  lemma StatusReplyDrivesIndicator(running: bool, contentLength: Option<string>)
    requires contentLength != Some("0")
    ensures var r := Routes.StatusReply(if running then "running" else "stopped");
      var s := ControlPanel.StatusOf(ControlPanel.Settle(Received(r, contentLength)));
      s.Some? && (s.value == "running" <==> running) &&
      ControlPanel.StatusLight(s.value) == (if running then ControlPanel.Green else ControlPanel.Red)
  {
    var word := if running then "running" else "stopped";
    var r := Routes.StatusReply(word);
    assert Prop(r.body, "status") == Value(JStr(word));
    assert !ControlPanel.LowerEq("stopped", "running") by {
      assert !ControlPanel.LowersTo("stopped"[0], "running"[0]);
    }
    assert ControlPanel.LowerEq(word, word);
  }

  /** The health reply always turns the health light green. */
  lemma HealthReplyIsGreen(contentLength: Option<string>)
    requires contentLength != Some("0")
    ensures var s := ControlPanel.StatusOf(ControlPanel.Settle(Received(Routes.HealthReply, contentLength)));
      s == Some("ok") && ControlPanel.HealthLight(s.value) == ControlPanel.Green
  {
    assert Prop(Routes.HealthReply.body, "status") == Value(JStr("ok"));
    assert ControlPanel.LowerEq("ok", "ok");
  }

  /** What a listed device looks like to the page. */
  lemma DeviceJsonFields(d: Devices.Device)
    ensures Prop(Routes.DeviceJson(d), "Name") == Value(JStr(d.name))
    ensures ControlPanel.KindOf(Prop(Routes.DeviceJson(d), "Type")) ==
      (if d.kind == Devices.Keyboard then ControlPanel.KeyboardKind else ControlPanel.MouseKind)
  {
    assert "Name" in Routes.DeviceJson(d).fields;
    assert "Type" in Routes.DeviceJson(d).fields;
  }

  /** A non-empty device list from the server reaches the forEach loop, with no null element. */
  lemma ListingIsReconciled(ds: seq<Devices.Device>)
    requires ds != []
    ensures Routes.DevicesJson(ds).JArr? && |Routes.DevicesJson(ds).items| == |ds|
    ensures Truthy(Value(Routes.DevicesJson(ds)))
    ensures !StrictEq(Prop(Routes.DevicesJson(ds), "length"), Value(JNum(0)))
    ensures !ControlPanel.HasNull(Routes.DevicesJson(ds).items)
    ensures forall i :: 0 <= i < |ds| ==> Routes.DevicesJson(ds).items[i] == Routes.DeviceJson(ds[i])
  {
  }

  /** The script's keys find nothing in the server's configuration, so both preferences read as "". */
  lemma ScriptKeysReadEmpty(c: Settings.Config)
    ensures ControlPanel.Preference(Routes.ConfigJson(c), ControlPanel.ScriptKeys.group, ControlPanel.ScriptKeys.keyboard) == Value(JStr(""))
    ensures ControlPanel.Preference(Routes.ConfigJson(c), ControlPanel.ScriptKeys.group, ControlPanel.ScriptKeys.mouse) == Value(JStr(""))
  {
    assert "device_prefs" !in Routes.ConfigJson(c).fields;
  }

  /** The Go field names find the stored preferences. */
  lemma GoFieldKeysReadStored(c: Settings.Config)
    ensures ControlPanel.Preference(Routes.ConfigJson(c), ControlPanel.GoFieldKeys.group, ControlPanel.GoFieldKeys.keyboard) ==
      Value(JStr(c.preferredKeyboard))
    ensures ControlPanel.Preference(Routes.ConfigJson(c), ControlPanel.GoFieldKeys.group, ControlPanel.GoFieldKeys.mouse) ==
      Value(JStr(c.preferredMouse))
  {
    var prefs := Routes.ConfigJson(c).fields["DevicePrefs"];
    assert prefs.fields["PreferredKeyboardDevice"] == JStr(c.preferredKeyboard);
    assert prefs.fields["PreferredMouseDevice"] == JStr(c.preferredMouse);
  }

  /**
   * As written: whatever preference is stored, the device list the server
   * sends is shown with both selectors on their placeholder, and a device
   * gets the preferred badge only if its name is empty.
   */
  lemma PreferenceNeverShown(ds: seq<Devices.Device>, c: Settings.Config)
    requires ds != []
    ensures var view := ControlPanel.DevicesViewOf(Routes.DevicesJson(ds), Routes.ConfigJson(c), ControlPanel.ScriptKeys);
      view.list.Listed? && |view.list.items| == |ds| &&
      (forall i :: 0 <= i < |ds| ==> (view.list.items[i].preferred <==> ds[i].name == "")) &&
      ControlPanel.SelectValue(view.keyboards) == "" && ControlPanel.SelectValue(view.mice) == ""
  {
    var json := Routes.DevicesJson(ds);
    var config := Routes.ConfigJson(c);
    ListingIsReconciled(ds);
    ScriptKeysReadEmpty(c);
    var empty := Value(JStr(""));
    var items := ControlPanel.ItemsOf(json.items, empty, empty);
    forall i | 0 <= i < |ds|
      ensures items[i].preferred <==> ds[i].name == ""
    {
      DeviceJsonFields(ds[i]);
    }
    ControlPanel.SelectorShowsPreference(json.items, empty, empty, ControlPanel.KeyboardKind);
    ControlPanel.SelectorShowsPreference(json.items, empty, empty, ControlPanel.MouseKind);
  }

  /**
   * Corrected: read under the Go field names, the stored preference is
   * pre-selected exactly when a device of that kind and name is listed.
   */
  lemma FixedKeysShowPreference(ds: seq<Devices.Device>, c: Settings.Config)
    requires ds != []
    ensures var view := ControlPanel.DevicesViewOf(Routes.DevicesJson(ds), Routes.ConfigJson(c), ControlPanel.GoFieldKeys);
      ControlPanel.SelectValue(view.keyboards) ==
        (if exists i :: 0 <= i < |ds| && ds[i].kind == Devices.Keyboard && ds[i].name == c.preferredKeyboard
         then c.preferredKeyboard else "") &&
      ControlPanel.SelectValue(view.mice) ==
        (if exists i :: 0 <= i < |ds| && ds[i].kind == Devices.Mouse && ds[i].name == c.preferredMouse
         then c.preferredMouse else "")
  {
    var json := Routes.DevicesJson(ds);
    ListingIsReconciled(ds);
    GoFieldKeysReadStored(c);
    var kp := Value(JStr(c.preferredKeyboard));
    var mp := Value(JStr(c.preferredMouse));
    forall i | 0 <= i < |ds|
      ensures ControlPanel.KindOf(Prop(json.items[i], "Type")) == ControlPanel.KeyboardKind <==> ds[i].kind == Devices.Keyboard
      ensures ControlPanel.KindOf(Prop(json.items[i], "Type")) == ControlPanel.MouseKind <==> ds[i].kind == Devices.Mouse
      ensures StrictEq(Prop(json.items[i], "Name"), kp) <==> ds[i].name == c.preferredKeyboard
      ensures StrictEq(Prop(json.items[i], "Name"), mp) <==> ds[i].name == c.preferredMouse
    {
      DeviceJsonFields(ds[i]);
    }
    ControlPanel.SelectorShowsPreference(json.items, kp, mp, ControlPanel.KeyboardKind);
    ControlPanel.SelectorShowsPreference(json.items, kp, mp, ControlPanel.MouseKind);
  }
}
