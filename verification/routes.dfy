/**
 * The HTTP handlers of the web service (internal/api/routes.go): each
 * handler is a method on the server that turns a decoded request (None when
 * the body does not decode) and the outcomes of the calls it makes into a
 * reply, a status code with a JSON body. The server's configuration object
 * is shared with the gesture service created from it, so an in-place edit
 * is seen by both.
 */
module Routes {
  import opened Wrappers
  import opened Json
  import Settings
  import Service
  import Devices

  datatype Verb = Get | Put | Post

  datatype Endpoint = ConfigGet | ConfigPut | ConfigSave | DevicesGet | PreferredPut | ServiceStart | ServiceStop
                    | ServiceStatus | Health

  /** setupRoutes: the endpoint registered for a verb and a path below /api. */
  function Route(verb: Verb, path: string): Option<Endpoint> {
    match (verb, path)
    case (Get, "/config") => Some(ConfigGet)
    case (Put, "/config") => Some(ConfigPut)
    case (Post, "/config/save") => Some(ConfigSave)
    case (Get, "/devices") => Some(DevicesGet)
    case (Put, "/devices/preferred") => Some(PreferredPut)
    case (Post, "/service/start") => Some(ServiceStart)
    case (Post, "/service/stop") => Some(ServiceStop)
    case (Get, "/service/status") => Some(ServiceStatus)
    case (Get, "/health") => Some(Health)
    case _ => None
  }

  /** The verb and path an endpoint is registered under. */
  function Pattern(e: Endpoint): (Verb, string) {
    match e
    case ConfigGet => (Get, "/config")
    case ConfigPut => (Put, "/config")
    case ConfigSave => (Post, "/config/save")
    case DevicesGet => (Get, "/devices")
    case PreferredPut => (Put, "/devices/preferred")
    case ServiceStart => (Post, "/service/start")
    case ServiceStop => (Post, "/service/stop")
    case ServiceStatus => (Get, "/service/status")
    case Health => (Get, "/health")
  }

  /** Each endpoint is reached by exactly its own pattern. */
  lemma RoutesArePatterns(verb: Verb, path: string, e: Endpoint)
    ensures Route(verb, path) == Some(e) <==> (verb, path) == Pattern(e)
  {
  }

  datatype Reply = Reply(code: int, body: Json)

  function StatusReply(status: string): Reply {
    Reply(200, JObj(map["status" := JStr(status)]))
  }

  /** writeError: the message in an {error} envelope. */
  function ErrorReply(code: int, message: string): Reply {
    Reply(code, JObj(map["error" := JStr(message)]))
  }

  /**
   * The configuration as encoding/json writes it: the Go field names, since
   * the record carries only TOML tags. The floating-point smoothing factor
   * is not part of this model.
   */
  function ConfigJson(c: Settings.Config): Json
    reads c
  {
    JObj(map[
      "TouchPad" := JObj(map["MinX" := JNum(c.minX), "MaxX" := JNum(c.maxX), "MinY" := JNum(c.minY), "MaxY" := JNum(c.maxY)]),
      "Input" := JObj(map["TwoFingerKey" := JNum(c.twoFingerKey), "FourFingerKey" := JNum(c.fourFingerKey)]),
      "Motion" := JObj(map["FilterWarmUpCount" := JNum(c.warmUpCount), "MouseDeltaFactor" := JNum(c.mouseDeltaFactor)]),
      "Gesture" := JObj(map["ResetThreshold" := JNum(c.resetThreshold)]),
      "DevicePrefs" := JObj(map["PreferredKeyboardDevice" := JStr(c.preferredKeyboard),
                                "PreferredMouseDevice" := JStr(c.preferredMouse)])])
  }

  function DeviceJson(d: Devices.Device): Json {
    JObj(map["Name" := JStr(d.name), "Path" := JStr(d.path), "Type" := JNum(if d.kind == Devices.Keyboard then 0 else 1)])
  }

  /** A device list as JSON: a list with no devices is Go's nil slice, written as null. */
  function DevicesJson(ds: seq<Devices.Device>): Json {
    if ds == [] then JNull else JArr(seq(|ds|, i requires 0 <= i < |ds| => DeviceJson(ds[i])))
  }

  /** filepath.Join for a directory and a plain file name. */
  function JoinFile(dir: string, file: string): string {
    if dir == "" then file
    else if dir[|dir| - 1] == '/' then dir + file
    else dir + "/" + file
  }

  /** The fixed part of each error Start reports. */
  function StartErrorText(e: Service.StartError): string {
    match e
    case AlreadyRunning => "サービスは既に実行中です"
    case PadFailed => "仮想タッチパッドの作成に失敗しました"
    case ListFailed => "デバイス一覧の取得に失敗しました"
    case NoMouse => "マウスデバイスが見つかりませんでした"
    case NoKeyboard => "キーボードデバイスが見つかりませんでした"
    case MouseOpenFailed => "マウスデバイスのオープンに失敗しました"
    case KeyboardOpenFailed => "キーボードデバイスのオープンに失敗しました"
  }

  class Server {
    var cfg: Settings.Config
    /** The package-level gesture service, created by the first start request. */
    var gestureService: Service.GestureService?
    /** The configuration files written, each with the configuration it held. */
    var written: seq<(string, Json)>

    ghost predicate Valid()
      reads this, gestureService
    {
      gestureService != null ==> gestureService.Valid()
    }

    constructor (c: Settings.Config)
      ensures Valid() && cfg == c && gestureService == null && written == []
    {
      cfg := c;
      gestureService := null;
      written := [];
    }

    /** GET /api/config. */
    method HandleGetConfig() returns (r: Reply)
      ensures r == Reply(200, ConfigJson(cfg))
    {
      r := Reply(200, ConfigJson(cfg));
    }

    /** PUT /api/config: replaces the server's configuration; a running service keeps the one it has. */
    method HandleUpdateConfig(decoded: Option<Settings.Config>) returns (r: Reply)
      modifies this`cfg
      ensures decoded.None? ==> r == ErrorReply(400, "設定の解析に失敗しました") && cfg == old(cfg)
      ensures decoded.Some? ==> r == StatusReply("success") && cfg == decoded.value
    {
      if decoded.None? {
        return ErrorReply(400, "設定の解析に失敗しました");
      }
      cfg := decoded.value;
      r := StatusReply("success");
    }

    /**
     * POST /api/config/save: an empty path means config.toml in the default
     * directory (None: that directory is unknown); the reply echoes the path.
     */
    method HandleSaveConfig(requested: Option<string>, defaultDir: Option<string>, writeError: Option<string>)
      returns (r: Reply)
      modifies this`written
      ensures requested.None? ==> r == ErrorReply(400, "リクエストの解析に失敗しました") && written == old(written)
      ensures requested == Some("") && defaultDir.None? ==>
        r == ErrorReply(500, "デフォルト設定ディレクトリの取得に失敗しました") && written == old(written)
      ensures requested.Some? && (requested.value != "" || defaultDir.Some?) ==>
        var path := if requested.value == "" then JoinFile(defaultDir.value, "config.toml") else requested.value;
        (writeError.Some? ==> r == ErrorReply(500, "設定の保存に失敗しました: " + writeError.value) && written == old(written)) &&
        (writeError.None? ==>
          r == Reply(200, JObj(map["status" := JStr("success"), "path" := JStr(path)])) &&
          written == old(written) + [(path, ConfigJson(cfg))])
    {
      if requested.None? {
        return ErrorReply(400, "リクエストの解析に失敗しました");
      }
      var path := requested.value;
      if path == "" {
        if defaultDir.None? {
          return ErrorReply(500, "デフォルト設定ディレクトリの取得に失敗しました");
        }
        path := JoinFile(defaultDir.value, "config.toml");
      }
      if writeError.Some? {
        return ErrorReply(500, "設定の保存に失敗しました: " + writeError.value);
      }
      written := written + [(path, ConfigJson(cfg))];
      r := Reply(200, JObj(map["status" := JStr("success"), "path" := JStr(path)]));
    }

    /** GET /api/devices, given what GetDevices returned and, on failure, the error text. */
    method HandleGetDevices(listing: Devices.Scan, reason: string) returns (r: Reply)
      ensures listing.ScanFailed? ==> r == ErrorReply(500, "デバイス一覧の取得に失敗しました: " + reason)
      ensures listing.Scanned? ==> r == Reply(200, DevicesJson(listing.devices))
    {
      if listing.ScanFailed? {
        return ErrorReply(500, "デバイス一覧の取得に失敗しました: " + reason);
      }
      r := Reply(200, DevicesJson(listing.devices));
    }

    /**
     * PUT /api/devices/preferred: both preferences are overwritten in the
     * shared configuration object, empty strings included.
     */
    method HandleSetPreferredDevices(request: Option<(string, string)>) returns (r: Reply)
      modifies cfg
      ensures request.None? ==> r == ErrorReply(400, "リクエストの解析に失敗しました") && unchanged(cfg)
      ensures request.Some? ==>
        r == StatusReply("success") &&
        cfg.preferredKeyboard == request.value.0 && cfg.preferredMouse == request.value.1 &&
        cfg.minX == old(cfg.minX) && cfg.maxX == old(cfg.maxX) && cfg.minY == old(cfg.minY) && cfg.maxY == old(cfg.maxY) &&
        cfg.twoFingerKey == old(cfg.twoFingerKey) && cfg.fourFingerKey == old(cfg.fourFingerKey) &&
        cfg.warmUpCount == old(cfg.warmUpCount) && cfg.mouseDeltaFactor == old(cfg.mouseDeltaFactor) &&
        cfg.resetThreshold == old(cfg.resetThreshold)
    {
      if request.None? {
        return ErrorReply(400, "リクエストの解析に失敗しました");
      }
      cfg.preferredKeyboard := request.value.0;
      cfg.preferredMouse := request.value.1;
      r := StatusReply("success");
    }

    /**
     * POST /api/service/start: creates the service from the server's
     * configuration on first use; a running service is not restarted.
     */
    method HandleStartService(padOk: bool, listing: Devices.Scan, mouseOpens: bool, keyboardOpens: bool) returns (r: Reply)
      requires Valid()
      modifies this`gestureService, gestureService
      ensures Valid() && gestureService != null
      ensures old(gestureService) != null ==> gestureService == old(gestureService)
      ensures old(gestureService) == null ==> fresh(gestureService) && gestureService.cfg == cfg
      ensures old(gestureService) != null && old(gestureService.running) ==>
        r == StatusReply("already_running") && gestureService.running
      ensures old(gestureService) == null || !old(gestureService.running) ==>
        var outcome := Service.StartOutcome(padOk, listing, gestureService.cfg.preferredKeyboard,
          gestureService.cfg.preferredMouse, mouseOpens, keyboardOpens);
        (outcome.None? ==> r == StatusReply("started") && gestureService.running) &&
        (outcome.Some? ==>
          r == ErrorReply(500, "サービスの起動に失敗しました: " + StartErrorText(outcome.value)) && !gestureService.running)
    {
      if gestureService == null {
        gestureService := new Service.GestureService(cfg);
      }
      if gestureService.running {
        return StatusReply("already_running");
      }
      var err := gestureService.Start(padOk, listing, mouseOpens, keyboardOpens);
      if err.Some? {
        return ErrorReply(500, "サービスの起動に失敗しました: " + StartErrorText(err.value));
      }
      r := StatusReply("started");
    }

    /** POST /api/service/stop. */
    method HandleStopService() returns (r: Reply)
      requires Valid()
      modifies gestureService
      ensures Valid()
      ensures gestureService == null || !old(gestureService.running) ==>
        r == StatusReply("not_running") && (gestureService != null ==> gestureService.running == old(gestureService.running))
      ensures gestureService != null && old(gestureService.running) ==>
        r == StatusReply("stopped") && !gestureService.running && !gestureService.reconnectOnDisconnect
    {
      if gestureService == null || !gestureService.running {
        return StatusReply("not_running");
      }
      var ok := gestureService.Stop();
      r := StatusReply("stopped");
    }

    /** GET /api/service/status. */
    method HandleServiceStatus() returns (r: Reply)
      ensures r == StatusReply(if gestureService != null && gestureService.running then "running" else "stopped")
    {
      var status := "stopped";
      if gestureService != null && gestureService.running {
        status := "running";
      }
      r := StatusReply(status);
    }
  }

  /** GET /api/health. */
  const HealthReply: Reply := StatusReply("ok")
}
