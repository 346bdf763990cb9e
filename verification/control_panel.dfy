/**
 * The browser control panel (internal/api/static/script.js). The page is a
 * record of UI state held by the class Panel: which buttons are disabled or
 * show a spinner, the pending timers that restore them, the two status
 * indicators, the config box, the device list and the two selectors, the
 * toast slot and the requests sent. Every handler is one step that takes
 * the server's answers (an Exchange: the response and the clock readings
 * around it) as parameters.
 */
module ControlPanel {
  import opened Wrappers
  import opened Json
  import Strconv

  // ---------------------------------------------------------------------
  // Buttons bound to requests
  // ---------------------------------------------------------------------

  datatype Button = StartButton | StopButton | StatusButton | ConfigGetButton | ConfigUpdateButton
                  | ConfigSaveButton | DevicesButton | PreferredButton | HealthButton

  /** The endpoint and method each button is bound to. */
  function Pattern(b: Button): (string, string) {
    match b
    case StartButton => ("/service/start", "POST")
    case StopButton => ("/service/stop", "POST")
    case StatusButton => ("/service/status", "GET")
    case ConfigGetButton => ("/config", "GET")
    case ConfigUpdateButton => ("/config", "PUT")
    case ConfigSaveButton => ("/config/save", "POST")
    case DevicesButton => ("/devices", "GET")
    case PreferredButton => ("/devices/preferred", "PUT")
    case HealthButton => ("/health", "GET")
  }

  /**
   * getButtonSelectorForEndpoint: the button a request marks busy. Exactly
   * the nine patterns are bound, each to its own button.
   */
  function Binding(endpoint: string, verb: string): (r: Option<Button>)
    ensures r.Some? ==> Pattern(r.value) == (endpoint, verb)
    ensures forall b: Button :: Pattern(b) == (endpoint, verb) ==> r == Some(b)
  {
    if endpoint == "/service/start" && verb == "POST" then Some(StartButton)
    else if endpoint == "/service/stop" && verb == "POST" then Some(StopButton)
    else if endpoint == "/service/status" && verb == "GET" then Some(StatusButton)
    else if endpoint == "/config" && verb == "GET" then Some(ConfigGetButton)
    else if endpoint == "/config" && verb == "PUT" then Some(ConfigUpdateButton)
    else if endpoint == "/config/save" && verb == "POST" then Some(ConfigSaveButton)
    else if endpoint == "/devices" && verb == "GET" then Some(DevicesButton)
    else if endpoint == "/devices/preferred" && verb == "PUT" then Some(PreferredButton)
    else if endpoint == "/health" && verb == "GET" then Some(HealthButton)
    else None
  }

  /** Every button is found again from its own pattern, so distinct buttons have distinct patterns. */
  lemma BindingInvertsPattern(b: Button)
    ensures Binding(Pattern(b).0, Pattern(b).1) == Some(b)
  {
  }

  datatype Icon = NoIcon | Glyph(name: string, spaced: bool)

  /** setButtonIcon: the icon a restored button shows; blank exactly for an unbound request. */
  function IconFor(endpoint: string, verb: string): (icon: Icon)
    ensures icon.NoIcon? <==> Binding(endpoint, verb).None?
  {
    if endpoint == "/service/start" && verb == "POST" then Glyph("fa-play", false)
    else if endpoint == "/service/stop" && verb == "POST" then Glyph("fa-stop", false)
    else if endpoint == "/service/status" && verb == "GET" then Glyph("fa-sync-alt", false)
    else if endpoint == "/config" && verb == "GET" then Glyph("fa-download", false)
    else if endpoint == "/config" && verb == "PUT" then Glyph("fa-upload", true)
    else if endpoint == "/config/save" && verb == "POST" then Glyph("fa-save", false)
    else if endpoint == "/devices" && verb == "GET" then Glyph("fa-sync-alt", false)
    else if endpoint == "/devices/preferred" && verb == "PUT" then Glyph("fa-save", true)
    else if endpoint == "/health" && verb == "GET" then Glyph("fa-stethoscope", false)
    else NoIcon
  }

  /** The buttons a request marks busy: none or one. */
  function BoundTo(endpoint: string, verb: string): set<Button> {
    match Binding(endpoint, verb)
    case Some(b) => {b}
    case None => {}
  }

  /** How long the spinner is kept after the answer, so that it shows for at least 300 ms. */
  function RestoreDelay(elapsed: int): (d: nat)
    ensures elapsed < 300 ==> elapsed + d == 300
    ensures elapsed >= 300 ==> d == 0
  {
    if 300 - elapsed > 0 then 300 - elapsed else 0
  }

  // ---------------------------------------------------------------------
  // Responses and how apiRequest settles them
  // ---------------------------------------------------------------------

  datatype Body = Parsed(value: Json) | Unparsable(message: string)

  datatype Response =
    | NetworkFailure(message: string)
    | Http(status: int, contentLength: Option<string>, body: Body)

  /** One request as the page sees it: the response and the clock (ms) before and after it. */
  datatype Exchange = Exchange(response: Response, start: int, finish: int)

  datatype Outcome = Ok(data: Json) | Failed(message: string)

  predicate IsOk(status: int) {
    200 <= status <= 299
  }

  const Acknowledged: Json := JObj(map["status" := JStr("success")])

  function HttpError(status: int): string {
    "HTTP エラー: " + Strconv.Itoa(status)
  }

  /** The message of the error thrown for a response that is not ok. */
  function ErrorMessage(status: int, body: Body): (m: string)
    ensures body.Unparsable? || body.value.JNull? ==> m == HttpError(status)
    ensures body.Parsed? && !body.value.JNull? && Truthy(Prop(body.value, "error")) ==>
      m == ToJsString(Prop(body.value, "error"))
    ensures body.Parsed? && !body.value.JNull? && !Truthy(Prop(body.value, "error")) ==>
      m == "サーバーエラー: " + Strconv.Itoa(status)
  {
    match body
    case Unparsable(_) => HttpError(status)
    case Parsed(v) =>
      var e := Prop(v, "error");
      if e.Throws? then HttpError(status)
      else ToJsString(Or(e, JStr("サーバーエラー: " + Strconv.Itoa(status))))
  }

  /**
   * apiRequest's result: a failure carries the message the error toast
   * shows; a 204 or an explicit zero length is acknowledged without
   * looking at the body.
   */
  function Settle(r: Response): (o: Outcome)
    ensures r.NetworkFailure? ==> o == Failed(r.message)
    ensures r.Http? && !IsOk(r.status) ==> o == Failed(ErrorMessage(r.status, r.body))
    ensures r.Http? && IsOk(r.status) && (r.status == 204 || r.contentLength == Some("0")) ==> o == Ok(Acknowledged)
    ensures r.Http? && IsOk(r.status) && r.status != 204 && r.contentLength != Some("0") ==>
      (o.Ok? <==> r.body.Parsed?) && (o.Ok? ==> o.data == r.body.value)
  {
    match r
    case NetworkFailure(m) => Failed(m)
    case Http(status, length, body) =>
      if !IsOk(status) then Failed(ErrorMessage(status, body))
      else if status == 204 || length == Some("0") then Ok(Acknowledged)
      else
        match body
        case Parsed(v) => Ok(v)
        case Unparsable(m) => Failed(m)
  }

  /** A request as sent: a falsy body is not sent at all. */
  datatype Request = Request(endpoint: string, verb: string, body: Option<Json>)

  function Sent(endpoint: string, verb: string, body: Json): (r: Request)
    ensures r.body.Some? <==> Truthy(Value(body))
    ensures r.body.Some? ==> r.body.value == body
  {
    Request(endpoint, verb, if Truthy(Value(body)) then Some(body) else None)
  }

  /** A pending timer that gives a button back its icon and enables it. */
  datatype Restore = Restore(button: Button, due: int)

  function RestoreFor(endpoint: string, verb: string, ex: Exchange): seq<Restore> {
    match Binding(endpoint, verb)
    case Some(b) => [Restore(b, ex.finish + RestoreDelay(ex.finish - ex.start))]
    case None => []
  }

  function TimerButtons(ts: seq<Restore>): set<Button> {
    set r | r in ts :: r.button
  }

  // ---------------------------------------------------------------------
  // Indicators
  // ---------------------------------------------------------------------

  /** The class of a status dot (and line): running, error, or idle/partial. */
  datatype Light = Green | Red | Neutral

  /** `c.toLowerCase() === a` for a lower-case ASCII letter a. */
  predicate LowersTo(c: char, a: char) {
    c == a || ('A' <= c <= 'Z' && c as int + 32 == a as int) || (c == '\U{212A}' && a == 'k')
  }

  /** `s.toLowerCase() === target` for a target of lower-case ASCII letters. */
  predicate LowerEq(s: string, target: string) {
    |s| == |target| && forall i :: 0 <= i < |s| ==> LowersTo(s[i], target[i])
  }

  /** updateStatusIndicators. */
  function StatusLight(s: string): Light {
    if LowerEq(s, "running") then Green
    else if LowerEq(s, "stopped") || LowerEq(s, "error") then Red
    else Neutral
  }

  /** updateHealthIndicators. */
  function HealthLight(s: string): Light {
    if LowerEq(s, "ok") then Green
    else if LowerEq(s, "error") then Red
    else Neutral
  }

  function UpperChar(c: char): char {
    if 'a' <= c <= 'z' then (c as int - 32) as char else c
  }

  function Upper(s: string): (u: string)
    ensures |u| == |s|
  {
    seq(|s|, i requires 0 <= i < |s| => UpperChar(s[i]))
  }

  predicate LowerAscii(t: string) {
    forall i :: 0 <= i < |t| ==> 'a' <= t[i] <= 'z'
  }

  lemma LowerEqUpper(s: string, t: string)
    requires LowerAscii(t)
    ensures LowerEq(Upper(s), t) <==> LowerEq(s, t)
  {
    if |s| == |t| {
      forall i | 0 <= i < |s|
        ensures LowersTo(Upper(s)[i], t[i]) <==> LowersTo(s[i], t[i])
      {
        assert 'a' <= t[i] <= 'z';
      }
    }
  }

  /** The classification ignores ASCII case: upper-casing a status does not change its light. */
  lemma LightsIgnoreCase(s: string)
    ensures StatusLight(Upper(s)) == StatusLight(s)
    ensures HealthLight(Upper(s)) == HealthLight(s)
  {
    LowerEqUpper(s, "running");
    LowerEqUpper(s, "stopped");
    LowerEqUpper(s, "error");
    LowerEqUpper(s, "ok");
  }

  // ---------------------------------------------------------------------
  // Device reconciliation
  // ---------------------------------------------------------------------

  datatype Kind = KeyboardKind | MouseKind | OtherKind

  /** The kind a device's Type code stands for: 0 keyboard, 1 mouse, anything else other. */
  function KindOf(typeCode: Access): (k: Kind)
    ensures k == KeyboardKind <==> typeCode == Value(JNum(0))
    ensures k == MouseKind <==> typeCode == Value(JNum(1))
  {
    if StrictEq(typeCode, Value(JNum(0))) then KeyboardKind
    else if StrictEq(typeCode, Value(JNum(1))) then MouseKind
    else OtherKind
  }

  /** A device as listed: its name and path as shown, its kind, and the preferred badge. */
  datatype Item = Item(name: string, path: string, kind: Kind, preferred: bool)

  /** A selector option: its value, its text and whether it was appended selected. */
  datatype Choice = Choice(value: string, text: string, selected: bool)

  const KeyboardPlaceholder: Choice := Choice("", "-- キーボードを選択 --", false)
  const MousePlaceholder: Choice := Choice("", "-- マウスを選択 --", false)
  const LoadError: Choice := Choice("", "読み込みエラー", false)

  /** The preference the page reads from the configuration, `|| ""` included. */
  function Preference(config: Json, group: string, field: string): (p: Access)
    requires !config.JNull?
    ensures (p.Value? && Truthy(p)) || p == Value(JStr(""))
  {
    Or(OptionalMember(Prop(config, group), field), JStr(""))
  }

  function ItemOf(d: Json, keyboardPref: Access, mousePref: Access): (it: Item)
    requires !d.JNull?
    ensures it.preferred <==>
      (it.kind == KeyboardKind && StrictEq(Prop(d, "Name"), keyboardPref)) ||
      (it.kind == MouseKind && StrictEq(Prop(d, "Name"), mousePref))
    ensures it.name == ToJsString(Prop(d, "Name"))
  {
    var kind := KindOf(Prop(d, "Type"));
    var name := Prop(d, "Name");
    Item(ToJsString(name), ToJsString(Prop(d, "Path")), kind,
         (kind == KeyboardKind && StrictEq(name, keyboardPref)) || (kind == MouseKind && StrictEq(name, mousePref)))
  }

  function ChoiceOf(it: Item): Choice {
    Choice(it.name, it.name + " (" + it.path + ")", it.preferred)
  }

  /** The options appended to the selector for kind k, in the order of the items. */
  function KindChoices(items: seq<Item>, k: Kind): seq<Choice> {
    if items == [] then []
    else
      var last := items[|items| - 1];
      KindChoices(items[..|items| - 1], k) + (if last.kind == k then [ChoiceOf(last)] else [])
  }

  lemma KindChoicesExtend(items: seq<Item>, it: Item, k: Kind)
    ensures KindChoices(items + [it], k) == KindChoices(items, k) + (if it.kind == k then [ChoiceOf(it)] else [])
  {
    assert (items + [it])[..|items|] == items;
  }

  /** Options are appended in input order: the options of a concatenation are concatenated. */
  lemma {:induction false} KindChoicesAppend(a: seq<Item>, b: seq<Item>, k: Kind)
    ensures KindChoices(a + b, k) == KindChoices(a, k) + KindChoices(b, k)
    decreases |b|
  {
    if b == [] {
      assert a + b == a;
    } else {
      var init := b[..|b| - 1];
      KindChoicesAppend(a, init, k);
      assert (a + b)[..|a + b| - 1] == a + init;
    }
  }

  /** Only items of kind k reach its selector, and every one of them does. */
  lemma {:induction false} KindChoicesMembers(items: seq<Item>, k: Kind)
    ensures forall c :: c in KindChoices(items, k) ==> exists i :: 0 <= i < |items| && items[i].kind == k && c == ChoiceOf(items[i])
    ensures forall i :: 0 <= i < |items| && items[i].kind == k ==> ChoiceOf(items[i]) in KindChoices(items, k)
  {
    if items != [] {
      var init := items[..|items| - 1];
      KindChoicesMembers(init, k);
      forall c | c in KindChoices(items, k)
        ensures exists i :: 0 <= i < |items| && items[i].kind == k && c == ChoiceOf(items[i])
      {
        if c in KindChoices(init, k) {
          var i :| 0 <= i < |init| && init[i].kind == k && c == ChoiceOf(init[i]);
          assert items[i] == init[i];
        } else {
          assert items[|items| - 1].kind == k && c == ChoiceOf(items[|items| - 1]);
        }
      }
      forall i | 0 <= i < |items| && items[i].kind == k
        ensures ChoiceOf(items[i]) in KindChoices(items, k)
      {
        if i < |init| {
          assert init[i] == items[i];
        }
      }
    }
  }

  /** The value of the last option appended selected, if any. */
  function LastSelected(opts: seq<Choice>): Option<string> {
    if opts == [] then None
    else if opts[|opts| - 1].selected then Some(opts[|opts| - 1].value)
    else LastSelected(opts[..|opts| - 1])
  }

  /** A selector's value: the last option appended selected wins, else the first option shows. */
  function SelectValue(opts: seq<Choice>): string {
    match LastSelected(opts)
    case Some(v) => v
    case None => if opts == [] then "" else opts[0].value
  }

  /** The selector shows a preferred device of kind k exactly when there is one, and then the last. */
  lemma {:induction false} SelectedChoice(items: seq<Item>, k: Kind)
    ensures LastSelected(KindChoices(items, k)).None? <==> forall i :: 0 <= i < |items| ==> !(items[i].kind == k && items[i].preferred)
    ensures LastSelected(KindChoices(items, k)).Some? ==>
      exists i :: 0 <= i < |items| && items[i].kind == k && items[i].preferred && LastSelected(KindChoices(items, k)).value == items[i].name
  {
    if items != [] {
      var init := items[..|items| - 1];
      var last := items[|items| - 1];
      SelectedChoice(init, k);
      var cs := KindChoices(items, k);
      if last.kind == k {
        assert cs == KindChoices(init, k) + [ChoiceOf(last)];
        if !last.preferred {
          assert cs[..|cs| - 1] == KindChoices(init, k);
        }
      } else {
        assert cs == KindChoices(init, k);
      }
      forall i | 0 <= i < |init|
        ensures items[i] == init[i]
      {
      }
    }
  }

  /** The placeholder is never selected, so it shows only when no option was appended selected. */
  lemma {:induction false} LastSelectedAfterPlaceholder(p: Choice, cs: seq<Choice>)
    requires !p.selected
    ensures LastSelected([p] + cs) == LastSelected(cs)
    decreases |cs|
  {
    if cs == [] {
      assert [p] + cs == [p];
      assert [p][..0] == [];
    } else {
      var init := cs[..|cs| - 1];
      LastSelectedAfterPlaceholder(p, init);
      assert ([p] + cs)[..|[p] + cs| - 1] == [p] + init;
    }
  }

  /** The reconciled list: an exception when an element is null, else the items in input order. */
  datatype Reconciled = Threw | Built(items: seq<Item>, keyboards: seq<Choice>, mice: seq<Choice>)

  predicate HasNull(ds: seq<Json>) {
    exists i :: 0 <= i < |ds| && ds[i].JNull?
  }

  function ItemsOf(ds: seq<Json>, keyboardPref: Access, mousePref: Access): (items: seq<Item>)
    requires !HasNull(ds)
    ensures |items| == |ds|
  {
    seq(|ds|, i requires 0 <= i < |ds| => ItemOf(ds[i], keyboardPref, mousePref))
  }

  function ReconcileSpec(ds: seq<Json>, keyboardPref: Access, mousePref: Access): Reconciled {
    if HasNull(ds) then Threw
    else
      var items := ItemsOf(ds, keyboardPref, mousePref);
      Built(items, KindChoices(items, KeyboardKind), KindChoices(items, MouseKind))
  }

  lemma ItemsOfExtend(ds: seq<Json>, i: nat, keyboardPref: Access, mousePref: Access)
    requires i < |ds| && !HasNull(ds[..i]) && !ds[i].JNull?
    ensures !HasNull(ds[..i + 1])
    ensures ItemsOf(ds[..i + 1], keyboardPref, mousePref) == ItemsOf(ds[..i], keyboardPref, mousePref) + [ItemOf(ds[i], keyboardPref, mousePref)]
  {
    assert ds[..i + 1] == ds[..i] + [ds[i]];
  }

  /**
   * The devices.forEach loop: each device becomes an item, and a keyboard
   * or mouse option appended to its selector; a null element throws.
   */
  method Reconcile(ds: seq<Json>, keyboardPref: Access, mousePref: Access) returns (r: Reconciled)
    ensures r == ReconcileSpec(ds, keyboardPref, mousePref)
  {
    var items: seq<Item> := [];
    var keyboards: seq<Choice> := [];
    var mice: seq<Choice> := [];
    var i := 0;
    while i < |ds|
      invariant 0 <= i <= |ds|
      invariant !HasNull(ds[..i])
      invariant items == ItemsOf(ds[..i], keyboardPref, mousePref)
      invariant keyboards == KindChoices(items, KeyboardKind)
      invariant mice == KindChoices(items, MouseKind)
    {
      if ds[i].JNull? {
        assert HasNull(ds);
        return Threw;
      }
      var it := ItemOf(ds[i], keyboardPref, mousePref);
      ItemsOfExtend(ds, i, keyboardPref, mousePref);
      KindChoicesExtend(items, it, KeyboardKind);
      KindChoicesExtend(items, it, MouseKind);
      if it.kind == KeyboardKind {
        keyboards := keyboards + [ChoiceOf(it)];
      } else if it.kind == MouseKind {
        mice := mice + [ChoiceOf(it)];
      }
      items := items + [it];
      i := i + 1;
    }
    assert ds[..i] == ds;
    r := Built(items, keyboards, mice);
  }

  function PlaceholderFor(k: Kind): Choice {
    if k == KeyboardKind then KeyboardPlaceholder else MousePlaceholder
  }

  /**
   * After reconciliation a selector shows the stored preference exactly
   * when some device of its kind has that Name, and the placeholder's ""
   * otherwise.
   */
  lemma SelectorShowsPreference(ds: seq<Json>, keyboardPref: Access, mousePref: Access, k: Kind)
    requires !HasNull(ds) && k != OtherKind
    requires !keyboardPref.Throws? && !mousePref.Throws?
    ensures var pref := if k == KeyboardKind then keyboardPref else mousePref;
      SelectValue([PlaceholderFor(k)] + KindChoices(ItemsOf(ds, keyboardPref, mousePref), k)) ==
      if exists i :: 0 <= i < |ds| && KindOf(Prop(ds[i], "Type")) == k && StrictEq(Prop(ds[i], "Name"), pref)
      then ToJsString(pref) else ""
  {
    var pref := if k == KeyboardKind then keyboardPref else mousePref;
    var items := ItemsOf(ds, keyboardPref, mousePref);
    var cs := KindChoices(items, k);
    SelectedChoice(items, k);
    LastSelectedAfterPlaceholder(PlaceholderFor(k), cs);
    if exists i :: 0 <= i < |ds| && KindOf(Prop(ds[i], "Type")) == k && StrictEq(Prop(ds[i], "Name"), pref) {
      var i :| 0 <= i < |ds| && KindOf(Prop(ds[i], "Type")) == k && StrictEq(Prop(ds[i], "Name"), pref);
      assert items[i] == ItemOf(ds[i], keyboardPref, mousePref);
      var j :| 0 <= j < |items| && items[j].kind == k && items[j].preferred && LastSelected(cs).value == items[j].name;
      assert items[j] == ItemOf(ds[j], keyboardPref, mousePref);
      assert StrictEq(Prop(ds[j], "Name"), pref);
    } else {
      forall i | 0 <= i < |items|
        ensures !(items[i].kind == k && items[i].preferred)
      {
        assert items[i] == ItemOf(ds[i], keyboardPref, mousePref);
      }
    }
  }

  /** What the device list area shows. */
  datatype DeviceList = Untouched | Listed(items: seq<Item>) | NoDevices | LoadFailed

  /** The page after getDevices, given the two answers it got. */
  datatype DevicesView = DevicesView(list: DeviceList, keyboards: seq<Choice>, mice: seq<Choice>)

  const FailedView: DevicesView := DevicesView(LoadFailed, [LoadError], [LoadError])

  /** Where the page looks for the two preferences in the configuration. */
  datatype PrefKeys = PrefKeys(group: string, keyboard: string, mouse: string)

  /** The keys script.js reads. */
  const ScriptKeys: PrefKeys := PrefKeys("device_prefs", "preferred_keyboard_device", "preferred_mouse_device")

  /** The keys under which the server's JSON encoding actually holds the preferences. */
  const GoFieldKeys: PrefKeys := PrefKeys("DevicePrefs", "PreferredKeyboardDevice", "PreferredMouseDevice")

  /** getDevices once both requests succeeded, reading the preferences under the given keys. */
  function DevicesViewOf(devices: Json, config: Json, keys: PrefKeys): DevicesView {
    if config.JNull? then FailedView
    else
      var kp := Preference(config, keys.group, keys.keyboard);
      var mp := Preference(config, keys.group, keys.mouse);
      if !Truthy(Value(devices)) || StrictEq(Prop(devices, "length"), Value(JNum(0))) then
        DevicesView(NoDevices, [KeyboardPlaceholder], [MousePlaceholder])
      else if !devices.JArr? then FailedView
      else
        match ReconcileSpec(devices.items, kp, mp)
        case Threw => FailedView
        case Built(items, ks, ms) => DevicesView(Listed(items), [KeyboardPlaceholder] + ks, [MousePlaceholder] + ms)
  }

  /** Picking option i by hand: it alone is selected. */
  function Picked(opts: seq<Choice>, i: nat): (p: seq<Choice>)
    requires i < |opts|
    ensures |p| == |opts|
  {
    seq(|opts|, j requires 0 <= j < |opts| => opts[j].(selected := j == i))
  }

  lemma {:induction false} LastSelectedAt(p: seq<Choice>, i: nat, k: nat)
    requires i < k <= |p| && p[i].selected
    requires forall j :: i < j < k ==> !p[j].selected
    ensures LastSelected(p[..k]) == Some(p[i].value)
    decreases k
  {
    if k - 1 != i {
      LastSelectedAt(p, i, k - 1);
      assert p[..k][..k - 1] == p[..k - 1];
    }
  }

  /** After a pick, the selector's value is the picked option's value. */
  lemma PickedValue(opts: seq<Choice>, i: nat)
    requires i < |opts|
    ensures SelectValue(Picked(opts, i)) == opts[i].value
  {
    var p := Picked(opts, i);
    LastSelectedAt(p, i, |p|);
    assert p[..|p|] == p;
  }

  // ---------------------------------------------------------------------
  // The page
  // ---------------------------------------------------------------------

  datatype ToastKind = Info | Success | Error
  datatype Toast = Toast(message: string, kind: ToastKind)

  datatype Checked = Never | CheckedAt(time: int) | CheckFailedAt(time: int)

  datatype ConfigBox = Blank | Shown(config: Json) | ErrorText(text: string)

  /** The status carried by a settled answer, when it is a string. */
  function StatusOf(o: Outcome): Option<string> {
    match o
    case Failed(_) => None
    case Ok(data) =>
      match Prop(data, "status")
      case Value(JStr(s)) => Some(s)
      case _ => None
  }

  /** The requests the start-up sequence makes, in order; the second config request only follows a device list. */
  function StartupRequests(devicesOk: bool): seq<Request> {
    [Request("/service/status", "GET", None), Request("/config", "GET", None), Request("/devices", "GET", None)] +
    (if devicesOk then [Request("/config", "GET", None)] else []) +
    [Request("/health", "GET", None)]
  }

  class Panel {
    var disabled: set<Button>
    /** Buttons showing the spinner instead of their icon. */
    var busy: set<Button>
    var timers: seq<Restore>
    var serviceRunning: bool
    var statusText: string
    var statusLight: Light
    var healthText: string
    var healthLight: Light
    var lastChecked: Checked
    var configBox: ConfigBox
    var deviceList: DeviceList
    var keyboardOptions: seq<Choice>
    var mouseOptions: seq<Choice>
    /** Every toast shown, the current one last. */
    var toasts: seq<Toast>
    var requests: seq<Request>

    /** A button is busy, or disabled by a request, only while a timer will restore it. */
    ghost predicate Valid()
      reads this
    {
      busy <= TimerButtons(timers) && disabled <= TimerButtons(timers) + {StartButton, StopButton}
    }

    constructor ()
      ensures Valid()
      ensures disabled == {} && busy == {} && timers == [] && !serviceRunning
      ensures lastChecked == Never && configBox == Blank && deviceList == Untouched
      ensures toasts == [] && requests == []
    {
      disabled := {};
      busy := {};
      timers := [];
      serviceRunning := false;
      statusText := "";
      statusLight := Neutral;
      healthText := "";
      healthLight := Neutral;
      lastChecked := Never;
      configBox := Blank;
      deviceList := Untouched;
      keyboardOptions := [];
      mouseOptions := [];
      toasts := [];
      requests := [];
    }

    /** The toast slot: only the latest toast is on screen. */
    function CurrentToast(): Option<Toast>
      reads this
    {
      if toasts == [] then None else Some(toasts[|toasts| - 1])
    }

    /** showToast: a new toast takes the slot from the one shown before. */
    method ShowToast(message: string, kind: ToastKind)
      modifies this`toasts
      ensures toasts == old(toasts) + [Toast(message, kind)]
      ensures CurrentToast() == Some(Toast(message, kind))
    {
      toasts := toasts + [Toast(message, kind)];
    }

    /**
     * apiRequest: marks the bound button busy, sends the request, settles
     * the answer (one error toast on failure) and queues the restore of the
     * button whatever the outcome.
     */
    method ApiRequest(endpoint: string, verb: string, body: Json, ex: Exchange) returns (outcome: Outcome)
      requires Valid()
      modifies this`disabled, this`busy, this`timers, this`toasts, this`requests
      ensures Valid()
      ensures outcome == Settle(ex.response)
      ensures requests == old(requests) + [Sent(endpoint, verb, body)]
      ensures outcome.Failed? ==> toasts == old(toasts) + [Toast(outcome.message, Error)]
      ensures outcome.Ok? ==> toasts == old(toasts)
      ensures timers == old(timers) + RestoreFor(endpoint, verb, ex)
      ensures busy == old(busy) + BoundTo(endpoint, verb)
      ensures disabled == old(disabled) + BoundTo(endpoint, verb)
    {
      var bound := Binding(endpoint, verb);
      if bound.Some? {
        busy := busy + {bound.value};
        disabled := disabled + {bound.value};
      }
      requests := requests + [Sent(endpoint, verb, body)];
      outcome := Settle(ex.response);
      if outcome.Failed? {
        ShowToast(outcome.message, Error);
      }
      if bound.Some? {
        timers := timers + [Restore(bound.value, ex.finish + RestoreDelay(ex.finish - ex.start))];
      }
    }

    /** A restore timer fires: the button gets its icon back and is enabled. */
    method FireRestore(i: nat)
      requires Valid() && i < |timers|
      modifies this`disabled, this`busy, this`timers
      ensures Valid()
      ensures timers == old(timers[..i] + timers[i + 1..])
      ensures busy == old(busy) - {old(timers[i].button)}
      ensures disabled == old(disabled) - {old(timers[i].button)}
    {
      var b := timers[i].button;
      ghost var before := timers;
      timers := timers[..i] + timers[i + 1..];
      busy := busy - {b};
      disabled := disabled - {b};
      forall c | c in busy || c in disabled - {StartButton, StopButton}
        ensures c in TimerButtons(timers)
      {
        var r :| r in before && r.button == c;
        var j :| 0 <= j < |before| && before[j] == r;
        if j < i {
          assert timers[j] == r;
        } else {
          assert j != i;
          assert timers[j - 1] == r;
        }
      }
    }

    method SetStatus(s: string)
      modifies this`statusText, this`statusLight
      ensures statusText == s && statusLight == StatusLight(s)
    {
      statusText := s;
      statusLight := StatusLight(s);
    }

    /**
     * getServiceStatus: a string status is shown and classified; start is
     * disabled exactly when it is "running" and stop otherwise. Anything
     * else shows "Error" and leaves both buttons as they were.
     */
    method GetServiceStatus(ex: Exchange)
      requires Valid()
      modifies this`disabled, this`busy, this`timers, this`toasts, this`requests
      modifies this`statusText, this`statusLight, this`serviceRunning
      ensures Valid()
      ensures requests == old(requests) + [Request("/service/status", "GET", None)]
      ensures timers == old(timers) + RestoreFor("/service/status", "GET", ex)
      ensures busy == old(busy) + {StatusButton}
      ensures StatusOf(Settle(ex.response)).Some? ==>
        var s := StatusOf(Settle(ex.response)).value;
        statusText == s && statusLight == StatusLight(s) && serviceRunning == (s == "running") &&
        disabled == old(disabled) + {StatusButton} - {StartButton, StopButton} + (if s == "running" then {StartButton} else {StopButton})
      ensures StatusOf(Settle(ex.response)).None? ==>
        statusText == "Error" && statusLight == Red && serviceRunning == old(serviceRunning) &&
        disabled == old(disabled) + {StatusButton}
      ensures Settle(ex.response).Failed? ==> toasts == old(toasts) + [Toast(Settle(ex.response).message, Error)]
      ensures Settle(ex.response).Ok? ==> toasts == old(toasts)
    {
      var o := ApiRequest("/service/status", "GET", JNull, ex);
      var status := StatusOf(o);
      if status.None? {
        SetStatus("Error");
        return;
      }
      SetStatus(status.value);
      serviceRunning := status.value == "running";
      if serviceRunning {
        disabled := disabled - {StopButton} + {StartButton};
      } else {
        disabled := disabled - {StartButton} + {StopButton};
      }
    }

    /** The start button: a successful answer is toasted and then the status is refreshed. */
    method StartClicked(ex: Exchange) returns (refresh: bool)
      requires Valid()
      modifies this`disabled, this`busy, this`timers, this`toasts, this`requests
      ensures Valid()
      ensures requests == old(requests) + [Request("/service/start", "POST", None)]
      ensures disabled == old(disabled) + {StartButton} && busy == old(busy) + {StartButton}
      ensures timers == old(timers) + RestoreFor("/service/start", "POST", ex)
      ensures refresh <==> Settle(ex.response).Ok? && !Settle(ex.response).data.JNull?
      ensures Settle(ex.response).Failed? ==> toasts == old(toasts) + [Toast(Settle(ex.response).message, Error)]
      ensures Settle(ex.response).Ok? && Settle(ex.response).data.JNull? ==> toasts == old(toasts)
      ensures refresh ==> (toasts == old(toasts) +
        [if StrictEq(Prop(Settle(ex.response).data, "status"), Value(JStr("already_running")))
         then Toast("サービスはすでに実行中です", Info) else Toast("サービスを開始しました", Success)])
    {
      var o := ApiRequest("/service/start", "POST", JNull, ex);
      refresh := false;
      if o.Failed? || o.data.JNull? {
        return;
      }
      if StrictEq(Prop(o.data, "status"), Value(JStr("already_running"))) {
        ShowToast("サービスはすでに実行中です", Info);
      } else {
        ShowToast("サービスを開始しました", Success);
      }
      refresh := true;
    }

    /** The stop button, symmetric to the start button. */
    method StopClicked(ex: Exchange) returns (refresh: bool)
      requires Valid()
      modifies this`disabled, this`busy, this`timers, this`toasts, this`requests
      ensures Valid()
      ensures requests == old(requests) + [Request("/service/stop", "POST", None)]
      ensures disabled == old(disabled) + {StopButton} && busy == old(busy) + {StopButton}
      ensures timers == old(timers) + RestoreFor("/service/stop", "POST", ex)
      ensures refresh <==> Settle(ex.response).Ok? && !Settle(ex.response).data.JNull?
      ensures Settle(ex.response).Failed? ==> toasts == old(toasts) + [Toast(Settle(ex.response).message, Error)]
      ensures Settle(ex.response).Ok? && Settle(ex.response).data.JNull? ==> toasts == old(toasts)
      ensures refresh ==> (toasts == old(toasts) +
        [if StrictEq(Prop(Settle(ex.response).data, "status"), Value(JStr("not_running")))
         then Toast("サービスは既に停止しています", Info) else Toast("サービスを停止しました", Success)])
    {
      var o := ApiRequest("/service/stop", "POST", JNull, ex);
      refresh := false;
      if o.Failed? || o.data.JNull? {
        return;
      }
      if StrictEq(Prop(o.data, "status"), Value(JStr("not_running"))) {
        ShowToast("サービスは既に停止しています", Info);
      } else {
        ShowToast("サービスを停止しました", Success);
      }
      refresh := true;
    }

    /** getConfig: the configuration, or the error message, goes into the config box. */
    method GetConfig(ex: Exchange)
      requires Valid()
      modifies this`disabled, this`busy, this`timers, this`toasts, this`requests, this`configBox
      ensures Valid()
      ensures requests == old(requests) + [Request("/config", "GET", None)]
      ensures disabled == old(disabled) + {ConfigGetButton} && busy == old(busy) + {ConfigGetButton}
      ensures timers == old(timers) + RestoreFor("/config", "GET", ex)
      ensures Settle(ex.response).Ok? ==>
        configBox == Shown(Settle(ex.response).data) && toasts == old(toasts) + [Toast("設定を取得しました", Info)]
      ensures Settle(ex.response).Failed? ==>
        configBox == ErrorText("Error: " + Settle(ex.response).message) &&
        toasts == old(toasts) + [Toast(Settle(ex.response).message, Error)]
    {
      var o := ApiRequest("/config", "GET", JNull, ex);
      if o.Failed? {
        configBox := ErrorText("Error: " + o.message);
        return;
      }
      configBox := Shown(o.data);
      ShowToast("設定を取得しました", Info);
    }

    /** The save button: asks for the default path and toasts the path the server chose. */
    method SaveConfigClicked(ex: Exchange)
      requires Valid()
      modifies this`disabled, this`busy, this`timers, this`toasts, this`requests
      ensures Valid()
      ensures requests == old(requests) + [Request("/config/save", "POST", Some(JObj(map["path" := JStr("")])))]
      ensures disabled == old(disabled) + {ConfigSaveButton} && busy == old(busy) + {ConfigSaveButton}
      ensures timers == old(timers) + RestoreFor("/config/save", "POST", ex)
      ensures Settle(ex.response).Failed? ==> toasts == old(toasts) + [Toast(Settle(ex.response).message, Error)]
      ensures Settle(ex.response).Ok? && Settle(ex.response).data.JNull? ==> toasts == old(toasts)
      ensures Settle(ex.response).Ok? && !Settle(ex.response).data.JNull? ==>
        toasts == old(toasts) + [Toast("設定を保存しました: " +
          ToJsString(Or(Prop(Settle(ex.response).data, "path"), JStr("デフォルト場所"))), Success)]
    {
      var o := ApiRequest("/config/save", "POST", JObj(map["path" := JStr("")]), ex);
      if o.Failed? || o.data.JNull? {
        return;
      }
      ShowToast("設定を保存しました: " + ToJsString(Or(Prop(o.data, "path"), JStr("デフォルト場所"))), Success);
    }

    /**
     * The update button: text in the config box that does not parse (None)
     * is refused with a toast before any request is made.
     */
    method UpdateConfigClicked(parsed: Option<Json>, ex: Exchange)
      requires Valid()
      modifies this`disabled, this`busy, this`timers, this`toasts, this`requests
      ensures Valid()
      ensures parsed.None? ==>
        requests == old(requests) && disabled == old(disabled) && busy == old(busy) && timers == old(timers) &&
        toasts == old(toasts) + [Toast("エラー: JSONの形式が正しくありません", Error)]
      ensures parsed.Some? ==>
        requests == old(requests) + [Sent("/config", "PUT", parsed.value)] &&
        disabled == old(disabled) + {ConfigUpdateButton} && busy == old(busy) + {ConfigUpdateButton} &&
        timers == old(timers) + RestoreFor("/config", "PUT", ex) &&
        (Settle(ex.response).Ok? ==> toasts == old(toasts) + [Toast("設定を更新しました", Success)]) &&
        (Settle(ex.response).Failed? ==> toasts == old(toasts) + [Toast(Settle(ex.response).message, Error)])
    {
      if parsed.None? {
        ShowToast("エラー: JSONの形式が正しくありません", Error);
        return;
      }
      var o := ApiRequest("/config", "PUT", parsed.value, ex);
      if o.Ok? {
        ShowToast("設定を更新しました", Success);
      }
    }

    method FailListing()
      modifies this`deviceList, this`keyboardOptions, this`mouseOptions
      ensures DevicesView(deviceList, keyboardOptions, mouseOptions) == FailedView
    {
      deviceList := LoadFailed;
      keyboardOptions := [LoadError];
      mouseOptions := [LoadError];
    }

    /**
     * getDevices: fetches the devices, then the configuration for the
     * preferences, and rebuilds the list and both selectors.
     */
    method GetDevices(devicesEx: Exchange, configEx: Exchange)
      requires Valid()
      modifies this`disabled, this`busy, this`timers, this`toasts, this`requests
      modifies this`deviceList, this`keyboardOptions, this`mouseOptions
      ensures Valid()
      ensures requests == old(requests) + [Request("/devices", "GET", None)] +
        (if Settle(devicesEx.response).Ok? then [Request("/config", "GET", None)] else [])
      ensures Settle(devicesEx.response).Failed? ==>
        DevicesView(deviceList, keyboardOptions, mouseOptions) == FailedView &&
        toasts == old(toasts) + [Toast(Settle(devicesEx.response).message, Error)] &&
        busy == old(busy) + {DevicesButton} && disabled == old(disabled) + {DevicesButton} &&
        timers == old(timers) + RestoreFor("/devices", "GET", devicesEx)
      ensures Settle(devicesEx.response).Ok? ==>
        busy == old(busy) + {DevicesButton, ConfigGetButton} &&
        disabled == old(disabled) + {DevicesButton, ConfigGetButton} &&
        timers == old(timers) + RestoreFor("/devices", "GET", devicesEx) + RestoreFor("/config", "GET", configEx)
      ensures Settle(devicesEx.response).Ok? && Settle(configEx.response).Failed? ==>
        DevicesView(deviceList, keyboardOptions, mouseOptions) == FailedView &&
        toasts == old(toasts) + [Toast(Settle(configEx.response).message, Error)]
      ensures Settle(devicesEx.response).Ok? && Settle(configEx.response).Ok? ==>
        var view := DevicesViewOf(Settle(devicesEx.response).data, Settle(configEx.response).data, ScriptKeys);
        DevicesView(deviceList, keyboardOptions, mouseOptions) == view &&
        toasts == old(toasts) +
          (if view.list.Listed? then [Toast(Strconv.Itoa(|view.list.items|) + "個のデバイスを検出しました", Info)] else [])
    {
      var o := ApiRequest("/devices", "GET", JNull, devicesEx);
      if o.Failed? {
        FailListing();
        return;
      }
      var c := ApiRequest("/config", "GET", JNull, configEx);
      if c.Failed? || c.data.JNull? {
        FailListing();
        return;
      }
      ShowDevices(o.data, c.data);
    }

    /** The part of getDevices after both answers arrived. */
    method ShowDevices(devices: Json, config: Json)
      requires !config.JNull?
      modifies this`toasts, this`deviceList, this`keyboardOptions, this`mouseOptions
      ensures DevicesView(deviceList, keyboardOptions, mouseOptions) == DevicesViewOf(devices, config, ScriptKeys)
      ensures toasts == old(toasts) +
        (if deviceList.Listed? then [Toast(Strconv.Itoa(|deviceList.items|) + "個のデバイスを検出しました", Info)] else [])
    {
      var kp := Preference(config, ScriptKeys.group, ScriptKeys.keyboard);
      var mp := Preference(config, ScriptKeys.group, ScriptKeys.mouse);
      if !Truthy(Value(devices)) || StrictEq(Prop(devices, "length"), Value(JNum(0))) {
        deviceList := NoDevices;
        keyboardOptions := [KeyboardPlaceholder];
        mouseOptions := [MousePlaceholder];
        return;
      }
      if !devices.JArr? {
        FailListing();
        return;
      }
      var r := Reconcile(devices.items, kp, mp);
      if r.Threw? {
        FailListing();
        return;
      }
      deviceList := Listed(r.items);
      keyboardOptions := [KeyboardPlaceholder] + r.keyboards;
      mouseOptions := [MousePlaceholder] + r.mice;
      ShowToast(Strconv.Itoa(|r.items|) + "個のデバイスを検出しました", Info);
    }

    /** The user picks option i of the keyboard selector. */
    method PickKeyboard(i: nat)
      requires i < |keyboardOptions|
      modifies this`keyboardOptions
      ensures keyboardOptions == Picked(old(keyboardOptions), i)
      ensures SelectValue(keyboardOptions) == old(keyboardOptions[i].value)
    {
      PickedValue(keyboardOptions, i);
      keyboardOptions := Picked(keyboardOptions, i);
    }

    /** The user picks option i of the mouse selector. */
    method PickMouse(i: nat)
      requires i < |mouseOptions|
      modifies this`mouseOptions
      ensures mouseOptions == Picked(old(mouseOptions), i)
      ensures SelectValue(mouseOptions) == old(mouseOptions[i].value)
    {
      PickedValue(mouseOptions, i);
      mouseOptions := Picked(mouseOptions, i);
    }

    /**
     * The set-preferred button: with neither selector set it only toasts an
     * error; otherwise it sends both values, empty ones included, and on
     * success asks for the config and the devices to be fetched again.
     */
    method SetPreferredClicked(ex: Exchange) returns (refresh: bool)
      requires Valid()
      modifies this`disabled, this`busy, this`timers, this`toasts, this`requests
      ensures Valid()
      ensures SelectValue(keyboardOptions) == "" && SelectValue(mouseOptions) == "" ==>
        !refresh && requests == old(requests) && disabled == old(disabled) && busy == old(busy) &&
        timers == old(timers) && toasts == old(toasts) + [Toast("キーボードまたはマウスを選択してください", Error)]
      ensures SelectValue(keyboardOptions) != "" || SelectValue(mouseOptions) != "" ==>
        requests == old(requests) + [Request("/devices/preferred", "PUT", Some(JObj(map[
          "keyboard_device" := JStr(SelectValue(keyboardOptions)),
          "mouse_device" := JStr(SelectValue(mouseOptions))])))] &&
        disabled == old(disabled) + {PreferredButton} && busy == old(busy) + {PreferredButton} &&
        timers == old(timers) + RestoreFor("/devices/preferred", "PUT", ex) &&
        (refresh <==> Settle(ex.response).Ok?) &&
        (refresh ==> toasts == old(toasts) + [Toast("優先デバイスを設定しました", Success)]) &&
        (!refresh ==> toasts == old(toasts) + [Toast(Settle(ex.response).message, Error)])
    {
      var keyboard := SelectValue(keyboardOptions);
      var mouse := SelectValue(mouseOptions);
      refresh := false;
      if keyboard == "" && mouse == "" {
        ShowToast("キーボードまたはマウスを選択してください", Error);
        return;
      }
      var body := JObj(map["keyboard_device" := JStr(keyboard), "mouse_device" := JStr(mouse)]);
      var o := ApiRequest("/devices/preferred", "PUT", body, ex);
      if o.Ok? {
        ShowToast("優先デバイスを設定しました", Success);
        refresh := true;
      }
    }

    /** checkHealth: a string status is shown and classified; anything else shows "error". */
    method CheckHealth(ex: Exchange, now: int)
      requires Valid()
      modifies this`disabled, this`busy, this`timers, this`toasts, this`requests
      modifies this`healthText, this`healthLight, this`lastChecked
      ensures Valid()
      ensures requests == old(requests) + [Request("/health", "GET", None)]
      ensures disabled == old(disabled) + {HealthButton} && busy == old(busy) + {HealthButton}
      ensures timers == old(timers) + RestoreFor("/health", "GET", ex)
      ensures StatusOf(Settle(ex.response)).Some? ==>
        var s := StatusOf(Settle(ex.response)).value;
        healthText == s && healthLight == HealthLight(s) && lastChecked == CheckedAt(now) &&
        toasts == old(toasts) + [Toast("システムは正常に動作しています", Success)]
      ensures StatusOf(Settle(ex.response)).None? ==>
        healthText == "error" && healthLight == Red && lastChecked == CheckFailedAt(now)
      ensures Settle(ex.response).Ok? && StatusOf(Settle(ex.response)).None? ==> toasts == old(toasts)
      ensures Settle(ex.response).Failed? ==> toasts == old(toasts) + [Toast(Settle(ex.response).message, Error)]
    {
      var o := ApiRequest("/health", "GET", JNull, ex);
      var status := StatusOf(o);
      if status.None? {
        healthText := "error";
        healthLight := HealthLight("error");
        lastChecked := CheckFailedAt(now);
        return;
      }
      healthText := status.value;
      healthLight := HealthLight(status.value);
      lastChecked := CheckedAt(now);
      ShowToast("システムは正常に動作しています", Success);
    }

    /** The first half of initializeApp: the service status, then the configuration. */
    method LoadStatusAndConfig(statusEx: Exchange, configEx: Exchange)
      requires Valid()
      modifies this`disabled, this`busy, this`timers, this`toasts, this`requests, this`statusText, this`statusLight
      modifies this`serviceRunning, this`configBox
      ensures Valid()
      ensures requests == old(requests) + [Request("/service/status", "GET", None), Request("/config", "GET", None)]
      ensures configBox.Shown? <==> Settle(configEx.response).Ok?
    {
      GetServiceStatus(statusEx);
      GetConfig(configEx);
    }

    /** The second half of initializeApp: the devices, then the health check. */
    method LoadDevicesAndHealth(devicesEx: Exchange, devicesConfigEx: Exchange, healthEx: Exchange, now: int)
      requires Valid()
      modifies this`disabled, this`busy, this`timers, this`toasts, this`requests
      modifies this`deviceList, this`keyboardOptions, this`mouseOptions
      modifies this`healthText, this`healthLight, this`lastChecked
      ensures Valid()
      ensures requests == old(requests) + [Request("/devices", "GET", None)] +
        (if Settle(devicesEx.response).Ok? then [Request("/config", "GET", None)] else []) +
        [Request("/health", "GET", None)]
      ensures lastChecked.CheckedAt? || lastChecked.CheckFailedAt?
    {
      GetDevices(devicesEx, devicesConfigEx);
      CheckHealth(healthEx, now);
    }

    /** initializeApp: status, then config, then devices, then health, each after the previous one. */
    method InitializeApp(statusEx: Exchange, configEx: Exchange, devicesEx: Exchange, devicesConfigEx: Exchange,
                         healthEx: Exchange, now: int)
      requires Valid()
      modifies this`disabled, this`busy, this`timers, this`toasts, this`requests, this`statusText, this`statusLight
      modifies this`serviceRunning, this`configBox, this`deviceList, this`keyboardOptions, this`mouseOptions
      modifies this`healthText, this`healthLight, this`lastChecked
      ensures Valid()
      ensures requests == old(requests) + StartupRequests(Settle(devicesEx.response).Ok?)
      ensures lastChecked.CheckedAt? || lastChecked.CheckFailedAt?
      ensures configBox.Shown? <==> Settle(configEx.response).Ok?
    {
      LoadStatusAndConfig(statusEx, configEx);
      LoadDevicesAndHealth(devicesEx, devicesConfigEx, healthEx, now);
    }
  }
}
