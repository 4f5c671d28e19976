/**
 * The application (application.go): the configuration overlay that
 * `loadConfig` reads from the unnamed section of an INI file, the checks of
 * `validateConfig`, `newHost`, and the decisions `run` makes on the state
 * and the number of hosts before serving.
 *
 * The INI file arrives as its lines; which files exist on disk (the
 * certificate and key checks), whether the log file opens, and the server
 * itself are parameters or left out.
 */
module App {
  import opened GoLib
  import opened AppConfig
  import Ini
  import Router
  import HostRouting

  const ModeDev: int := 0
  const ModePro: int := 1

  const StateUninitialized: int := 0
  const StateInitialized: int := 1
  const StateRunning: int := 2

  type Params = Ini.Params

  // ---------------------------------------------------------------------
  // Reading one key of the unnamed section

  /** A string key: its value when present and non-empty, else the current setting. */
  function StrOr(p: Params, key: string, cur: string): string
  {
    if key in p && p[key] != "" then p[key] else cur
  }

  /** An integer key: its value when present and a valid integer, else the current setting. */
  function IntOr(p: Params, key: string, cur: int): int
  {
    if key in p && Atoi(p[key]).Ok? then Atoi(p[key]).value else cur
  }

  /** An integer key that only a positive value overrides. */
  function PosIntOr(p: Params, key: string, cur: int): int
  {
    if key in p && Atoi(p[key]).Ok? && Atoi(p[key]).value > 0 then Atoi(p[key]).value else cur
  }

  /** A boolean key: when present, true iff `on` or `true` in any case; else the current setting. */
  function BoolOr(p: Params, key: string, cur: bool): bool
  {
    if key in p then EqualFold("on", p[key]) || EqualFold("true", p[key]) else cur
  }

  // ---------------------------------------------------------------------
  // The base settings

  /** `mode`: development iff the value is `DEV` in any case; anything else, or nothing, is production. */
  function ModeOf(p: Params): (m: int)
    ensures m == ModeDev <==> "mode" in p && EqualFold(p["mode"], "DEV")
    ensures m == ModeDev || m == ModePro
  {
    // A failed lookup yields the empty string, which is not `DEV`.
    if EqualFold(StrOr(p, "mode", ""), "DEV") then ModeDev else ModePro
  }

  /** `base_path`, else the current base path; an empty one becomes the parent of the file's directory. */
  function BasePathOf(p: Params, filename: string, cur: string): (r: string)
    ensures r != ""
    ensures "base_path" in p && p["base_path"] != "" ==> r == p["base_path"]
    ensures !("base_path" in p && p["base_path"] != "") && cur != "" ==> r == cur
    ensures !("base_path" in p && p["base_path"] != "") && cur == "" ==> r == PathDir(PathDir(filename))
  {
    var b := StrOr(p, "base_path", cur);
    if |b| == 0 then PathDir(PathDir(filename)) else b
  }

  /** A `server.protocol` value that is present but neither HTTP nor HTTPS. */
  predicate ProtocolRejected(p: Params)
  {
    "server.protocol" in p && p["server.protocol"] != ""
    && !EqualFold("HTTP", p["server.protocol"]) && !EqualFold("HTTPS", p["server.protocol"])
  }

  // ---------------------------------------------------------------------
  // Panics

  /** Why the application panics; `Message` gives the text of each. */
  datatype Fault =
    | UnsupportedProtocol(protocol: string)
    | BasePathUnset
    | CertFileMissing(certFile: string)
    | KeyFileMissing(keyFile: string)
    | ActionAffixesEmpty
    | SessionNameEmpty
    | CsrfWithoutSession
    | CsrfSessionParamEmpty
    | CsrfHeaderParamEmpty
    | CsrfFormParamEmpty
    | Uninitialized
    | LogOpenFailed(err: string)
    | SessionWithoutCache
    | NoHost
    | NoDefaultHost

  /** The text the application panics with. */
  function Message(f: Fault): string
  {
    match f
    case UnsupportedProtocol(protocol) => "The protocol is not supported: " + protocol + ", only support HTTP and HTTPS"
    case BasePathUnset => "The basePath must be set."
    case CertFileMissing(file) => "The server's cert file dose not exist: " + file
    case KeyFileMissing(file) => "The server's key file dose not exist: " + file
    case ActionAffixesEmpty => "actionPrefix and actionSuffix cannot be empty string at the same time."
    case SessionNameEmpty => "The session can not be empty string."
    case CsrfWithoutSession =>
      "The CSRF validation depend on the session, please enable the session or disable CSRF validation."
    case CsrfSessionParamEmpty => "The csrfSessionParam can not be empty string."
    case CsrfHeaderParamEmpty => "The csrfHeaderParam can not be empty string."
    case CsrfFormParamEmpty => "The csrfFormParam can not be empty string."
    case Uninitialized =>
      "Please initialize the Application by invoking the method: cheetah.Init(\"/path/to/ini_config_file\")"
    case LogOpenFailed(err) => err
    case SessionWithoutCache => "The session depends on redis cache, please enable the cache component."
    case NoHost => "No host."
    case NoDefaultHost => "The default host must be set."
  }

  /** A computation that either completes with a value or panics. */
  datatype Flow<T> = Completes(value: T) | Panics(fault: Fault)

  // ---------------------------------------------------------------------
  // The configuration overlay, group by group in the order of `loadConfig`

  /** The server keys once the protocol is accepted. */
  function ServerOverlay(p: Params, c: ServerConfig): ServerConfig
  {
    ServerConfig(StrOr(p, "server.port", c.port), StrOr(p, "server.protocol", c.protocol),
                 StrOr(p, "server.cert_file", c.certFile), StrOr(p, "server.key_file", c.keyFile))
  }

  function ControllerOverlay(p: Params, c: ControllerConfig): ControllerConfig
  {
    ControllerConfig(StrOr(p, "controller.prefix", c.prefix), StrOr(p, "controller.suffix", c.suffix))
  }

  function ActionOverlay(p: Params, c: ActionConfig): ActionConfig
  {
    ActionConfig(StrOr(p, "action.prefix", c.prefix), StrOr(p, "action.suffix", c.suffix),
                 StrOr(p, "action.default", c.defaultAction))
  }

  function ViewOverlay(p: Params, c: ViewConfig): ViewConfig
  {
    ViewConfig(StrOr(p, "view.layout", c.layout), StrOr(p, "view.layout_dir", c.layoutDir),
               StrOr(p, "view.dir", c.dir), StrOr(p, "view.suffix", c.suffix))
  }

  /** The maximum age only changes for a positive value. */
  function SessionOverlay(p: Params, c: SessionConfig): SessionConfig
  {
    SessionConfig(BoolOr(p, "session.enable", c.enable), StrOr(p, "session.name", c.name),
                  StrOr(p, "session.store", c.store), PosIntOr(p, "session.max_age", c.maxAge))
  }

  /** The Redis keys; no key switches the cache itself, and the idle timeout only changes for a positive value. */
  function CacheOverlay(p: Params, c: CacheConfig): CacheConfig
  {
    CacheConfig(c.enable, StrOr(p, "redis.network", c.network), StrOr(p, "redis.address", c.address),
                StrOr(p, "redis.password", c.password), StrOr(p, "redis.db", c.db),
                IntOr(p, "redis.max_idle", c.maxIdle), PosIntOr(p, "redis.idle_timeout", c.idleTimeout))
  }

  function CsrfOverlay(p: Params, c: CsrfConfig): CsrfConfig
  {
    CsrfConfig(BoolOr(p, "csrf.enable_validation", c.enableValidation), IntOr(p, "csrf.mask_length", c.maskLength),
               StrOr(p, "csrf.session_param", c.sessionParam), StrOr(p, "csrf.header_param", c.headerParam),
               StrOr(p, "csrf.form_param", c.formParam))
  }

  /**
   * The log keys; `log.file_level` is read after `log.level` and sets the
   * logger's level too, never the file target's.
   */
  function LogOverlay(p: Params, c: LogConfig): LogConfig
  {
    LogConfig(
      BoolOr(p, "log.enable", c.enable),
      IntOr(p, "log.file_level", IntOr(p, "log.level", c.level)),
      IntOr(p, "log.flag", c.flag),
      LogFileOverlay(p, c.file),
      LogMailOverlay(p, c.mail))
  }

  /** The file target's keys; its level is not among them. */
  function LogFileOverlay(p: Params, c: LogFileConfig): LogFileConfig
  {
    LogFileConfig(c.level, StrOr(p, "log.file_dir", c.dir), StrOr(p, "log.file_name", c.name),
                  StrOr(p, "log.file_path", c.path), IntOr(p, "log.file_max_size", c.maxSize),
                  IntOr(p, "log.file_interval", c.interval))
  }

  function LogMailOverlay(p: Params, c: LogMailConfig): LogMailConfig
  {
    LogMailConfig(IntOr(p, "log.mail_level", c.level), StrOr(p, "log.mail_host", c.host),
                  StrOr(p, "log.mail_port", c.port), StrOr(p, "log.mail_user", c.user),
                  StrOr(p, "log.mail_password", c.password), StrOr(p, "log.mail_from", c.sender),
                  StrOr(p, "log.mail_to", c.recipient), StrOr(p, "log.mail_subject", c.subject))
  }

  function RouteOverlay(p: Params, c: RouteConfig): RouteConfig
  {
    RouteConfig(
      StrOr(p, "router.default", c.defaultRoute),
      Router.RouterOptions(
        BoolOr(p, "router.redirect_trailing_slash", c.options.redirectTrailingSlash),
        BoolOr(p, "router.redirect_fixed_path", c.options.redirectFixedPath),
        BoolOr(p, "router.handle_method_not_allowed", c.options.handleMethodNotAllowed),
        BoolOr(p, "router.handle_options", c.options.handleOptions)))
  }

  /**
   * The whole overlay: the port, then the protocol (a panic when it is
   * unsupported, the port already read), then every other group.
   */
  function Overlay(p: Params, c: Config): (r: Flow<Config>)
  {
    if ProtocolRejected(p) then Panics(UnsupportedProtocol(p["server.protocol"]))
    else
      Completes(Config(ServerOverlay(p, c.server), ControllerOverlay(p, c.controller), ActionOverlay(p, c.action), ViewOverlay(p, c.view),
                      SessionOverlay(p, c.session), CsrfOverlay(p, c.csrf), LogOverlay(p, c.log),
                      RouteOverlay(p, c.router), CacheOverlay(p, c.cache)))
  }

  /** An unsupported protocol is the overlay's only panic. */
  lemma OverlayPanics(p: Params, c: Config)
    ensures Overlay(p, c).Panics? <==> ProtocolRejected(p)
    ensures Overlay(p, c).Panics? ==> Overlay(p, c).fault == UnsupportedProtocol(p["server.protocol"])
    ensures !ProtocolRejected(p) ==> Overlay(p, c).value.server.protocol == StrOr(p, "server.protocol", c.server.protocol)
  {
  }

  /** No key switches the cache on or off, and `log.file_level` never reaches the file target's level. */
  lemma OverlayUnreadFields(p: Params, c: Config)
    requires !ProtocolRejected(p)
    ensures Overlay(p, c).value.cache.enable == c.cache.enable
    ensures Overlay(p, c).value.log.file.level == c.log.file.level
  {
  }

  /** A valid `log.file_level` wins over `log.level` for the logger's level. */
  lemma FileLevelSetsLogLevel(p: Params, c: Config)
    requires !ProtocolRejected(p)
    requires "log.file_level" in p && Atoi(p["log.file_level"]).Ok?
    ensures Overlay(p, c).value.log.level == Atoi(p["log.file_level"]).value
  {
  }

  /**
   * The log keys as the key names say: `log.file_level` sets the file
   * target's level, and the logger's level comes from `log.level` alone.
   */
  function IntendedLogOverlay(p: Params, c: LogConfig): LogConfig
  {
    var r := LogOverlay(p, c);
    r.(level := IntOr(p, "log.level", c.level), file := r.file.(level := IntOr(p, "log.file_level", c.file.level)))
  }

  /**
   * In the corrected overlay a valid `log.file_level` reaches the file
   * target, never the logger's level; every other field is as written.
   */
  lemma IntendedFileLevel(p: Params, c: LogConfig)
    ensures "log.file_level" in p && Atoi(p["log.file_level"]).Ok? ==>
              IntendedLogOverlay(p, c).file.level == Atoi(p["log.file_level"]).value
    ensures !("log.file_level" in p && Atoi(p["log.file_level"]).Ok?) ==> IntendedLogOverlay(p, c).file.level == c.file.level
    ensures IntendedLogOverlay(p, c).level == IntOr(p, "log.level", c.level)
    ensures IntendedLogOverlay(p, c).(level := LogOverlay(p, c).level, file := LogOverlay(p, c).file) == LogOverlay(p, c)
  {
  }

  /** The maximum session age and the Redis idle timeout change only for a positive value. */
  lemma OnlyPositiveOverrides(p: Params, c: Config)
    requires !ProtocolRejected(p)
    ensures Overlay(p, c).value.session.maxAge != c.session.maxAge ==>
              "session.max_age" in p && Atoi(p["session.max_age"]).Ok? && Atoi(p["session.max_age"]).value > 0
    ensures Overlay(p, c).value.cache.idleTimeout != c.cache.idleTimeout ==>
              "redis.idle_timeout" in p && Atoi(p["redis.idle_timeout"]).Ok? && Atoi(p["redis.idle_timeout"]).value > 0
  {
  }

  /** An empty section changes nothing. */
  lemma EmptyOverlay(c: Config)
    ensures Overlay(map[], c) == Completes(c)
  {
  }

  // ---------------------------------------------------------------------
  // Validation

  /** The certificate and key files, which must exist under HTTPS, and action naming. */
  function ServerActionError(c: Config, files: set<string>): Option<Fault>
  {
    if EqualFold("HTTPS", c.server.protocol) && c.server.certFile !in files then Some(CertFileMissing(c.server.certFile))
    else if EqualFold("HTTPS", c.server.protocol) && c.server.keyFile !in files then Some(KeyFileMissing(c.server.keyFile))
    else if |c.action.prefix| == 0 && |c.action.suffix| == 0 then Some(ActionAffixesEmpty)
    else None
  }

  /** The checks before the log path is filled in: the base path, then the server and action checks. */
  function EarlyError(basePath: string, c: Config, files: set<string>): Option<Fault>
  {
    if |basePath| == 0 then Some(BasePathUnset) else ServerActionError(c, files)
  }

  /** The checks after it: the session name, then CSRF's dependence on the session and its parameter names. */
  function LateError(c: Config): Option<Fault>
  {
    if c.session.enable && |c.session.name| == 0 then Some(SessionNameEmpty)
    else if c.csrf.enableValidation && !c.session.enable then Some(CsrfWithoutSession)
    else if c.csrf.enableValidation && |c.csrf.sessionParam| == 0 then Some(CsrfSessionParamEmpty)
    else if c.csrf.enableValidation && |c.csrf.headerParam| == 0 then Some(CsrfHeaderParamEmpty)
    else if c.csrf.enableValidation && |c.csrf.formParam| == 0 then Some(CsrfFormParamEmpty)
    else None
  }

  /** Every check but the base path's. */
  function ConfigError(c: Config, files: set<string>): Option<Fault>
  {
    if ServerActionError(c, files).Some? then ServerActionError(c, files) else LateError(c)
  }

  /** `validateConfig`'s panic, if any (`files` is the set of paths that are files). */
  function ValidationError(basePath: string, c: Config, files: set<string>): Option<Fault>
  {
    if |basePath| == 0 then Some(BasePathUnset) else ConfigError(c, files)
  }

  /** With logging on, an empty log path becomes the log directory under the base path. */
  function WithLogPath(basePath: string, c: Config): (r: Config)
    ensures c.log.enable && c.log.file.path == "" ==> r == c.(log := c.log.(file := c.log.file.(path := PathJoin([basePath, c.log.file.dir]))))
    ensures !(c.log.enable && c.log.file.path == "") ==> r == c
  {
    if c.log.enable && |c.log.file.path| == 0 then c.(log := c.log.(file := c.log.file.(path := PathJoin([basePath, c.log.file.dir])))) else c
  }

  /** The configuration after `validateConfig`: the log path is filled in unless an early check panicked. */
  function Validated(basePath: string, c: Config, files: set<string>): Config
  {
    if EarlyError(basePath, c, files).Some? then c else WithLogPath(basePath, c)
  }

  /** Everything `validateConfig` demands, stated on its own. */
  predicate Acceptable(basePath: string, c: Config, files: set<string>)
  {
    basePath != ""
    && (EqualFold("HTTPS", c.server.protocol) ==> c.server.certFile in files && c.server.keyFile in files)
    && (c.action.prefix != "" || c.action.suffix != "")
    && (c.session.enable ==> c.session.name != "")
    && (c.csrf.enableValidation ==> c.session.enable && c.csrf.sessionParam != "" && c.csrf.headerParam != "" && c.csrf.formParam != "")
  }

  /** Validation passes exactly when every demand holds. */
  lemma ValidationIff(basePath: string, c: Config, files: set<string>)
    ensures ValidationError(basePath, c, files).None? <==> Acceptable(basePath, c, files)
  {
  }

  /** A mask shorter than recommended is accepted and left as it is. */
  lemma ShortMaskAccepted(basePath: string, c: Config, files: set<string>, n: int)
    requires n < RecommendedMaskLength
    ensures ValidationError(basePath, c.(csrf := c.csrf.(maskLength := n)), files) == ValidationError(basePath, c, files)
    ensures Validated(basePath, c.(csrf := c.csrf.(maskLength := n)), files).csrf.maskLength == n
  {
  }

  /**
   * Validation as its notice says: with CSRF validation on, a mask shorter
   * than recommended is raised to the recommended length.
   */
  function IntendedValidated(basePath: string, c: Config, files: set<string>): Config
  {
    var v := Validated(basePath, c, files);
    if v.csrf.enableValidation && v.csrf.maskLength < RecommendedMaskLength then v.(csrf := v.csrf.(maskLength := RecommendedMaskLength))
    else v
  }

  /**
   * After corrected validation the mask is never short while CSRF validation
   * is on, and nothing but the mask differs from validation as written.
   */
  lemma IntendedMaskRaised(basePath: string, c: Config, files: set<string>)
    ensures c.csrf.enableValidation ==> IntendedValidated(basePath, c, files).csrf.maskLength >= RecommendedMaskLength
    ensures c.csrf.maskLength >= RecommendedMaskLength ==> IntendedValidated(basePath, c, files).csrf.maskLength == c.csrf.maskLength
    ensures IntendedValidated(basePath, c, files).(csrf := IntendedValidated(basePath, c, files).csrf.(maskLength := c.csrf.maskLength))
              == Validated(basePath, c, files)
  {
  }

  /** The defaults pass validation once a base path is known. */
  lemma DefaultsAccepted(bits: LogBits, basePath: string, files: set<string>)
    requires basePath != ""
    ensures ValidationError(basePath, DefaultConfig(bits), files).None?
    ensures Validated(basePath, DefaultConfig(bits), files).log.file.path == PathJoin([basePath, "logs"])
  {
    var c := DefaultConfig(bits);
    assert !EqualFold("HTTPS", c.server.protocol) by {
      assert |LowerString("HTTPS")| != |LowerString(c.server.protocol)|;
    }
  }

  // ---------------------------------------------------------------------
  // `loadConfig` as a function

  /** What `loadConfig` sets: the name, the mode, the base path, the configuration and the resources. */
  datatype Settings = Settings(name: string, mode: int, basePath: string, config: Config, resources: map<string, string>)

  /** The name, the mode and the base path read from the unnamed section. */
  function BaseSettings(s: Settings, p: Params, filename: string): (r: Settings)
  {
    s.(name := StrOr(p, "name", s.name), mode := ModeOf(p), basePath := BasePathOf(p, filename, s.basePath))
  }

  /** The configuration when the protocol panics: only the port has been read. */
  function PortRead(p: Params, c: Config): Config
  {
    c.(server := c.server.(port := StrOr(p, "server.port", c.server.port)))
  }

  /** The `resources` section, when there is one. */
  function ResourcesOf(sections: map<string, Params>, cur: map<string, string>): map<string, string>
  {
    if "resources" in sections then sections["resources"] else cur
  }

  /** The sections of a parsed INI file, by name; the unnamed one is always there. */
  type Sections = map<string, Params>

  /**
   * `loadConfig` over the parsed file: the settings afterwards and the
   * panic, if any. A panic leaves the settings read before it in place.
   */
  function Load(s: Settings, filename: string, sections: Sections, files: set<string>): (r: (Settings, Option<Fault>))
    requires "" in sections
  {
    var p := sections[""];
    var s1 := BaseSettings(s, p, filename);
    match Overlay(p, s.config)
    case Panics(fault) => (s1.(config := PortRead(p, s.config)), Some(fault))
    case Completes(c) =>
      (s1.(config := Validated(s1.basePath, c, files), resources := ResourcesOf(sections, s.resources)),
       ValidationError(s1.basePath, c, files))
  }

  /** `Load` when the protocol panics. */
  lemma LoadPanics(s: Settings, filename: string, sections: Sections, files: set<string>)
    requires "" in sections && Overlay(sections[""], s.config).Panics?
    ensures var p := sections[""];
            Load(s, filename, sections, files) ==
            (BaseSettings(s, p, filename).(config := PortRead(p, s.config)), Some(Overlay(p, s.config).fault))
  {
  }

  /** `Load` when the overlay completes. */
  lemma LoadCompletes(s: Settings, filename: string, sections: Sections, files: set<string>)
    requires "" in sections && Overlay(sections[""], s.config).Completes?
    ensures var p := sections[""];
            var base := BaseSettings(s, p, filename);
            var c := Overlay(p, s.config).value;
            Load(s, filename, sections, files) ==
            (base.(config := Validated(base.basePath, c, files), resources := ResourcesOf(sections, s.resources)),
             ValidationError(base.basePath, c, files))
  {
  }

  /** After loading, the base path is never empty, so only the other checks can fail. */
  lemma LoadedBasePath(s: Settings, filename: string, sections: Sections, files: set<string>)
    requires "" in sections
    ensures Load(s, filename, sections, files).0.basePath != ""
    ensures var p := sections[""];
            Overlay(p, s.config).Completes? ==> Load(s, filename, sections, files).1 == ConfigError(Overlay(p, s.config).value, files)
  {
  }

  /** Loading keeps whether the cache is on: no key sets it. */
  lemma LoadKeepsCache(s: Settings, filename: string, sections: Sections, files: set<string>)
    requires "" in sections
    ensures Load(s, filename, sections, files).0.config.cache.enable == s.config.cache.enable
  {
    var p := sections[""];
    if !ProtocolRejected(p) {
      OverlayUnreadFields(p, s.config);
    }
  }

  // ---------------------------------------------------------------------
  // `run`

  /** How the server is started: its address, whether it uses TLS, and the single host or domain dispatch. */
  datatype Serving = Serving(addr: string, tls: bool, certFile: string, keyFile: string, single: Option<HostRouting.Host>)

  /** The start-up checks of `run` before the state becomes running. */
  function StartupError(state: int, c: Config, logOpenError: Option<string>): Option<Fault>
  {
    if state == StateUninitialized then Some(Uninitialized)
    else if c.log.enable && logOpenError.Some? then Some(LogOpenFailed(logOpenError.value))
    else if c.session.enable && !c.cache.enable then Some(SessionWithoutCache)
    else None
  }

  /** The host-count checks after it: no host, or several hosts without a default. */
  function HostError(count: nat, hasDefault: bool): (r: Option<Fault>)
    ensures r.None? <==> count == 1 || (count > 1 && hasDefault)
  {
    if count == 0 then Some(NoHost)
    else if count > 1 && !hasDefault then Some(NoDefaultHost)
    else None
  }

  /** `run`'s panic, if any. */
  function RunError(state: int, c: Config, logOpenError: Option<string>, count: nat, hasDefault: bool): Option<Fault>
  {
    if StartupError(state, c, logOpenError).Some? then StartupError(state, c, logOpenError) else HostError(count, hasDefault)
  }

  /** A loaded default configuration passes the session's cache check: the cache stays on. */
  lemma LoadedSessionHasCache(bits: LogBits, s: Settings, filename: string, sections: Sections, files: set<string>)
    requires "" in sections && s.config == DefaultConfig(bits)
    ensures var c := Load(s, filename, sections, files).0.config;
            StartupError(StateInitialized, c, None).None?
  {
    LoadKeepsCache(s, filename, sections, files);
  }

  // ---------------------------------------------------------------------
  // The application object

  /** Every host is well formed, and each domain has its own host. */
  ghost predicate HostsValid(hosts: map<string, HostRouting.Host>)
    reads hosts.Values
  {
    (forall d :: d in hosts ==> hosts[d].Valid())
    && (forall d, e :: d in hosts && e in hosts && d != e ==> hosts[d] != hosts[e])
  }

  /** Hosts whose tables are as they were stay valid. */
  twostate lemma HostsStayValid(hosts: map<string, HostRouting.Host>)
    requires old(HostsValid(hosts))
    requires forall d :: d in hosts ==> unchanged(hosts[d])
    ensures HostsValid(hosts)
  { }

  /** Every host's tables are bound under `cfg`. */
  ghost predicate HostsBound(hosts: map<string, HostRouting.Host>, cfg: Config)
    reads hosts.Values
  {
    forall d :: d in hosts ==> hosts[d].Bound(cfg)
  }

  /** Hosts whose tables are as they were stay valid and bound. */
  twostate lemma HostsStayBound(hosts: map<string, HostRouting.Host>, new cfg: Config)
    requires old(HostsValid(hosts))
    requires old(HostsBound(hosts, cfg))
    requires forall d :: d in hosts ==> unchanged(hosts[d])
    ensures HostsValid(hosts)
    ensures HostsBound(hosts, cfg)
  { }

  class Application {
    /** The name, the mode, the base path, the configuration and the resources. */
    var settings: Settings
    var state: int
    var language: string
    var hosts: map<string, HostRouting.Host>
    var defaultHost: HostRouting.Host?

    /** The application's hosts are valid: see `HostsValid`. */
    ghost predicate Valid()
      reads this, hosts.Values
    {
      HostsValid(hosts)
    }

    /** `NewApplication`: production mode, not initialized, no hosts, the default configuration. */
    constructor (bits: LogBits)
      ensures Valid() && settings == Settings("Cheetah Application", ModePro, "", DefaultConfig(bits), map[])
      ensures language == "en" && state == StateUninitialized && hosts == map[] && defaultHost == null
    {
      settings := Settings("Cheetah Application", ModePro, "", DefaultConfig(bits), map[]);
      state, language := StateUninitialized, "en";
      hosts, defaultHost := map[], null;
    }

    /**
     * `loadConfig`: parses the file, overlays the unnamed section's keys,
     * takes the `resources` section, validates, and is initialized.
     */
    method LoadConfig(filename: string, lines: seq<string>, files: set<string>) returns (panic: Option<Fault>)
      requires Valid()
      modifies this
      ensures Valid() && hosts == old(hosts) && defaultHost == old(defaultHost) && language == old(language)
      ensures settings == Load(old(settings), filename, Ini.ReadAll(lines).sections, files).0
      ensures panic == Load(old(settings), filename, Ini.ReadAll(lines).sections, files).1
      ensures state == if panic.None? then StateInitialized else old(state)
    {
      var p, resourcesSection, sections := ParseSections(filename, lines);
      panic := LoadSections(filename, p, resourcesSection, sections, files);
    }

    /** The parse `loadConfig` starts with: the unnamed section and the lookup of `resources`. */
    static method ParseSections(filename: string, lines: seq<string>)
      returns (p: Params, resourcesSection: Result<Params>, ghost sections: Sections)
      ensures sections == Ini.ReadAll(lines).sections
      ensures "" in sections && p == sections[""]
      ensures resourcesSection.Ok? <==> "resources" in sections
      ensures resourcesSection.Ok? ==> resourcesSection.value == sections["resources"]
    {
      var ini := new Ini.IniConfig(filename, lines);
      sections := ini.sections;
      var section := ini.GetSection("");
      // Reading a section changes nothing, so `resources` may be looked up first.
      resourcesSection := ini.GetSection("resources");
      p := section.value;
    }

    /**
     * `loadConfig` once the file is parsed: `p` is its unnamed section and
     * `resourcesSection` the lookup of its `resources` section.
     */
    method LoadSections(filename: string, p: Params, resourcesSection: Result<Params>, ghost sections: Sections,
                        files: set<string>) returns (panic: Option<Fault>)
      requires "" in sections && p == sections[""]
      requires resourcesSection.Ok? <==> "resources" in sections
      requires resourcesSection.Ok? ==> resourcesSection.value == sections["resources"]
      requires Valid()
      modifies this
      ensures Valid() && hosts == old(hosts) && defaultHost == old(defaultHost) && language == old(language)
      ensures settings == Load(old(settings), filename, sections, files).0
      ensures panic == Load(old(settings), filename, sections, files).1
      ensures state == if panic.None? then StateInitialized else old(state)
    {
      var s;
      s, panic := LoadValues(settings, filename, p, resourcesSection, sections, files);
      Install(s, panic.None?);
    }

    /** The loaded settings replace the old ones; a completed load initializes the application. */
    method Install(s: Settings, initialized: bool)
      requires Valid()
      modifies this
      ensures Valid() && settings == s && state == if initialized then StateInitialized else old(state)
      ensures hosts == old(hosts) && defaultHost == old(defaultHost) && language == old(language)
    {
      settings := s;
      if initialized {
        state := StateInitialized;
      }
      // Only the application's own fields change, so the hosts stay valid.
      HostsStayValid(hosts);
    }

    /** The settings `loadConfig` arrives at from `s0`, step by step. */
    static method LoadValues(s0: Settings, filename: string, p: Params, resourcesSection: Result<Params>,
                             ghost sections: Sections, files: set<string>) returns (s: Settings, panic: Option<Fault>)
      requires "" in sections && p == sections[""]
      requires resourcesSection.Ok? <==> "resources" in sections
      requires resourcesSection.Ok? ==> resourcesSection.value == sections["resources"]
      ensures (s, panic) == Load(s0, filename, sections, files)
    {
      s := LoadBase(s0, p, filename);
      var c;
      c, panic := ReadConfig(p, s0.config);
      s := s.(config := c);
      if panic.Some? {
        LoadPanics(s0, filename, sections, files);
        return;
      }
      if resourcesSection.Ok? {
        s := s.(resources := resourcesSection.value);
      }
      c, panic := ValidateConfig(s.basePath, c, files);
      s := s.(config := c);
      LoadCompletes(s0, filename, sections, files);
    }

    /** The base settings: the name, the mode, and the base path with its fallback. */
    static method LoadBase(s0: Settings, p: Params, filename: string) returns (s: Settings)
      ensures s == BaseSettings(s0, p, filename)
    {
      s := s0;
      var name := ReadString(p, "name", s.name);
      s := s.(name := name);
      // A failed lookup yields the empty string, which is not `DEV`.
      var modeValue := ReadString(p, "mode", "");
      if EqualFold(modeValue, "DEV") {
        s := s.(mode := ModeDev);
      } else {
        s := s.(mode := ModePro);
      }
      var basePath := ReadString(p, "base_path", s.basePath);
      if |basePath| == 0 {
        basePath := PathDir(PathDir(filename));
      }
      s := s.(basePath := basePath);
    }

    /**
     * The configuration keys of the unnamed section, read in order over
     * `c0`; an unsupported protocol panics once the port is read.
     */
    static method ReadConfig(p: Params, c0: Config) returns (c: Config, panic: Option<Fault>)
      ensures Overlay(p, c0).Panics? ==> panic == Some(Overlay(p, c0).fault) && c == PortRead(p, c0)
      ensures Overlay(p, c0).Completes? ==> panic.None? && c == Overlay(p, c0).value
    {
      var server;
      server, panic := LoadServer(p, c0.server);
      if panic.Some? {
        return c0.(server := server), panic;
      }
      var controller := LoadController(p, c0.controller);
      var action := LoadAction(p, c0.action);
      var view := LoadView(p, c0.view);
      var session := LoadSession(p, c0.session);
      var cache := LoadCache(p, c0.cache);
      var csrf := LoadCsrf(p, c0.csrf);
      var log := LoadLog(p, c0.log);
      var router := LoadRouter(p, c0.router);
      c := Config(server, controller, action, view, session, csrf, log, router, cache);
    }

    /** The server keys; an unsupported protocol panics once the port is read. */
    static method LoadServer(p: Params, c0: ServerConfig) returns (c: ServerConfig, panic: Option<Fault>)
      ensures ProtocolRejected(p) ==>
                panic == Some(UnsupportedProtocol(p["server.protocol"])) && c == c0.(port := StrOr(p, "server.port", c0.port))
      ensures !ProtocolRejected(p) ==> panic.None? && c == ServerOverlay(p, c0)
    {
      var port := ReadString(p, "server.port", c0.port);
      c := c0.(port := port);
      var protocol := Ini.GetString(p, "server.protocol", None);
      if protocol.Ok? {
        if !EqualFold("HTTP", protocol.value) && !EqualFold("HTTPS", protocol.value) {
          return c, Some(UnsupportedProtocol(protocol.value));
        }
        c := c.(protocol := protocol.value);
      }
      var certFile := ReadString(p, "server.cert_file", c.certFile);
      c := c.(certFile := certFile);
      var keyFile := ReadString(p, "server.key_file", c.keyFile);
      c := c.(keyFile := keyFile);
      return c, None;
    }

    /** `GetString` with no default; the setting changes only when it succeeds. */
    static method ReadString(p: Params, key: string, cur: string) returns (r: string)
      ensures r == StrOr(p, key, cur)
    {
      r := cur;
      var v := Ini.GetString(p, key, None);
      if v.Ok? {
        r := v.value;
      }
    }

    static method ReadInt(p: Params, key: string, cur: int) returns (r: int)
      ensures r == IntOr(p, key, cur)
    {
      r := cur;
      var v := Ini.GetInt(p, key, None);
      if v.Ok? {
        r := v.value;
      }
    }

    /** An integer setting that only a positive value changes. */
    static method ReadPositiveInt(p: Params, key: string, cur: int) returns (r: int)
      ensures r == PosIntOr(p, key, cur)
    {
      r := cur;
      var v := Ini.GetInt(p, key, None);
      if v.Ok? && v.value > 0 {
        r := v.value;
      }
    }

    static method ReadBool(p: Params, key: string, cur: bool) returns (r: bool)
      ensures r == BoolOr(p, key, cur)
    {
      r := cur;
      var v := Ini.GetBool(p, key, None);
      if v.Ok? {
        r := v.value;
      }
    }

    static method LoadController(p: Params, c0: ControllerConfig) returns (c: ControllerConfig)
      ensures c == ControllerOverlay(p, c0)
    {
      c := c0;
      var prefix := ReadString(p, "controller.prefix", c.prefix);
      c := c.(prefix := prefix);
      var suffix := ReadString(p, "controller.suffix", c.suffix);
      c := c.(suffix := suffix);
    }

    static method LoadAction(p: Params, c0: ActionConfig) returns (c: ActionConfig)
      ensures c == ActionOverlay(p, c0)
    {
      c := c0;
      var prefix := ReadString(p, "action.prefix", c.prefix);
      c := c.(prefix := prefix);
      var suffix := ReadString(p, "action.suffix", c.suffix);
      c := c.(suffix := suffix);
      var defaultAction := ReadString(p, "action.default", c.defaultAction);
      c := c.(defaultAction := defaultAction);
    }

    static method LoadView(p: Params, c0: ViewConfig) returns (c: ViewConfig)
      ensures c == ViewOverlay(p, c0)
    {
      c := c0;
      var dir := ReadString(p, "view.dir", c.dir);
      c := c.(dir := dir);
      var suffix := ReadString(p, "view.suffix", c.suffix);
      c := c.(suffix := suffix);
      var layout := ReadString(p, "view.layout", c.layout);
      c := c.(layout := layout);
      var layoutDir := ReadString(p, "view.layout_dir", c.layoutDir);
      c := c.(layoutDir := layoutDir);
    }

    static method LoadSession(p: Params, c0: SessionConfig) returns (c: SessionConfig)
      ensures c == SessionOverlay(p, c0)
    {
      c := c0;
      var enable := ReadBool(p, "session.enable", c.enable);
      c := c.(enable := enable);
      var name := ReadString(p, "session.name", c.name);
      c := c.(name := name);
      var maxAge := ReadPositiveInt(p, "session.max_age", c.maxAge);
      c := c.(maxAge := maxAge);
      var store := ReadString(p, "session.store", c.store);
      c := c.(store := store);
    }

    static method LoadCache(p: Params, c0: CacheConfig) returns (c: CacheConfig)
      ensures c == CacheOverlay(p, c0)
    {
      c := c0;
      var maxIdle := ReadInt(p, "redis.max_idle", c.maxIdle);
      c := c.(maxIdle := maxIdle);
      var idleTimeout := ReadPositiveInt(p, "redis.idle_timeout", c.idleTimeout);
      c := c.(idleTimeout := idleTimeout);
      var network := ReadString(p, "redis.network", c.network);
      c := c.(network := network);
      var address := ReadString(p, "redis.address", c.address);
      c := c.(address := address);
      var password := ReadString(p, "redis.password", c.password);
      c := c.(password := password);
      var db := ReadString(p, "redis.db", c.db);
      c := c.(db := db);
    }

    static method LoadCsrf(p: Params, c0: CsrfConfig) returns (c: CsrfConfig)
      ensures c == CsrfOverlay(p, c0)
    {
      c := c0;
      var enable := ReadBool(p, "csrf.enable_validation", c.enableValidation);
      c := c.(enableValidation := enable);
      var maskLength := ReadInt(p, "csrf.mask_length", c.maskLength);
      c := c.(maskLength := maskLength);
      var sessionParam := ReadString(p, "csrf.session_param", c.sessionParam);
      c := c.(sessionParam := sessionParam);
      var headerParam := ReadString(p, "csrf.header_param", c.headerParam);
      c := c.(headerParam := headerParam);
      var formParam := ReadString(p, "csrf.form_param", c.formParam);
      c := c.(formParam := formParam);
    }

    static method LoadLog(p: Params, c0: LogConfig) returns (c: LogConfig)
      ensures c == LogOverlay(p, c0)
    {
      c := c0;
      var enable := ReadBool(p, "log.enable", c.enable);
      c := c.(enable := enable);
      var level := ReadInt(p, "log.level", c.level);
      c := c.(level := level);
      var flag := ReadInt(p, "log.flag", c.flag);
      c := c.(flag := flag);
      var file := LoadLogFile(p, c.file);
      c := c.(file := file);
      var fileLevel := ReadInt(p, "log.file_level", c.level);
      c := c.(level := fileLevel);
      var mail := LoadLogMail(p, c.mail);
      c := c.(mail := mail);
    }

    static method LoadLogFile(p: Params, c0: LogFileConfig) returns (c: LogFileConfig)
      ensures c == LogFileOverlay(p, c0)
    {
      c := c0;
      var dir := ReadString(p, "log.file_dir", c.dir);
      c := c.(dir := dir);
      var name := ReadString(p, "log.file_name", c.name);
      c := c.(name := name);
      var path := ReadString(p, "log.file_path", c.path);
      c := c.(path := path);
      var maxSize := ReadInt(p, "log.file_max_size", c.maxSize);
      c := c.(maxSize := maxSize);
      var interval := ReadInt(p, "log.file_interval", c.interval);
      c := c.(interval := interval);
    }

    static method LoadLogMail(p: Params, c0: LogMailConfig) returns (c: LogMailConfig)
      ensures c == LogMailOverlay(p, c0)
    {
      c := c0;
      var level := ReadInt(p, "log.mail_level", c.level);
      c := c.(level := level);
      var host := ReadString(p, "log.mail_host", c.host);
      c := c.(host := host);
      var port := ReadString(p, "log.mail_port", c.port);
      c := c.(port := port);
      var user := ReadString(p, "log.mail_user", c.user);
      c := c.(user := user);
      var password := ReadString(p, "log.mail_password", c.password);
      c := c.(password := password);
      var sender := ReadString(p, "log.mail_from", c.sender);
      c := c.(sender := sender);
      var recipient := ReadString(p, "log.mail_to", c.recipient);
      c := c.(recipient := recipient);
      var subject := ReadString(p, "log.mail_subject", c.subject);
      c := c.(subject := subject);
    }

    static method LoadRouter(p: Params, c0: RouteConfig) returns (c: RouteConfig)
      ensures c == RouteOverlay(p, c0)
    {
      c := c0;
      var defaultRoute := ReadString(p, "router.default", c.defaultRoute);
      c := c.(defaultRoute := defaultRoute);
      var trailingSlash := ReadBool(p, "router.redirect_trailing_slash", c.options.redirectTrailingSlash);
      c := c.(options := c.options.(redirectTrailingSlash := trailingSlash));
      var fixedPath := ReadBool(p, "router.redirect_fixed_path", c.options.redirectFixedPath);
      c := c.(options := c.options.(redirectFixedPath := fixedPath));
      var methodNotAllowed := ReadBool(p, "router.handle_method_not_allowed", c.options.handleMethodNotAllowed);
      c := c.(options := c.options.(handleMethodNotAllowed := methodNotAllowed));
      var handleOptions := ReadBool(p, "router.handle_options", c.options.handleOptions);
      c := c.(options := c.options.(handleOptions := handleOptions));
    }

    /**
     * `validateConfig`: panics on the first failed check; fills in the log
     * path once the early checks have passed. A short CSRF mask only
     * prints a notice.
     */
    static method ValidateConfig(basePath: string, c0: Config, files: set<string>) returns (c: Config, panic: Option<Fault>)
      ensures panic == ValidationError(basePath, c0, files)
      ensures c == Validated(basePath, c0, files)
    {
      c := c0;
      if |basePath| == 0 {
        return c, Some(BasePathUnset);
      }
      panic := CheckServerAction(c, files);
      if panic.Some? {
        return;
      }
      if c.log.enable {
        if |c.log.file.path| == 0 {
          c := c.(log := c.log.(file := c.log.file.(path := PathJoin([basePath, c.log.file.dir]))));
        }
      }
      panic := CheckSessionCsrf(c);
    }

    /** The server's files under HTTPS, then the action naming. */
    static method CheckServerAction(c: Config, files: set<string>) returns (panic: Option<Fault>)
      ensures panic == ServerActionError(c, files)
    {
      if EqualFold("HTTPS", c.server.protocol) {
        if c.server.certFile !in files {
          return Some(CertFileMissing(c.server.certFile));
        }
        if c.server.keyFile !in files {
          return Some(KeyFileMissing(c.server.keyFile));
        }
      }
      if |c.action.prefix| == 0 && |c.action.suffix| == 0 {
        return Some(ActionAffixesEmpty);
      }
      return None;
    }

    /** The session name, then CSRF's dependence on the session and its parameter names. */
    static method CheckSessionCsrf(c: Config) returns (panic: Option<Fault>)
      ensures panic == LateError(c)
    {
      if c.session.enable {
        if |c.session.name| == 0 {
          return Some(SessionNameEmpty);
        }
      }
      if c.csrf.enableValidation {
        if !c.session.enable {
          return Some(CsrfWithoutSession);
        }
        if c.csrf.maskLength < RecommendedMaskLength {
          // Only a notice is printed; the length is kept.
        }
        if |c.csrf.sessionParam| == 0 {
          return Some(CsrfSessionParamEmpty);
        }
        if |c.csrf.headerParam| == 0 {
          return Some(CsrfHeaderParamEmpty);
        }
        if |c.csrf.formParam| == 0 {
          return Some(CsrfFormParamEmpty);
        }
      }
      return None;
    }

    /** `newHost`: a fresh host with the configured router options, stored under the domain. */
    method NewHost(domain: string) returns (h: HostRouting.Host)
      requires Valid()
      modifies this
      ensures Valid() && fresh(h) && hosts == old(hosts)[domain := h]
      ensures h.routes == map[] && h.router == map[] && h.options == RouterOptionsOf(settings.config)
      ensures settings == old(settings) && state == old(state)
      ensures language == old(language) && defaultHost == old(defaultHost)
    {
      h := new HostRouting.Host(RouterOptionsOf(settings.config));
      hosts := hosts[domain := h];
    }

    /** `SetDefaultHost`. */
    method SetDefaultHost(h: HostRouting.Host?)
      modifies this
      ensures defaultHost == h && hosts == old(hosts) && settings == old(settings) && state == old(state)
      ensures language == old(language)
    {
      defaultHost := h;
    }

    /** `registerRouteHandler`: every host generates its route handles. */
    method RegisterRouteHandler()
      requires Valid()
      modifies hosts.Values
      ensures Valid()
      ensures forall d :: d in hosts ==> hosts[d].Bound(settings.config) && hosts[d].routes.Keys == old(hosts[d].routes.Keys)
    {
      var remaining := hosts.Keys;
      ghost var done: set<string> := {};
      while remaining != {}
        invariant remaining + done == hosts.Keys && remaining !! done
        invariant Valid()
        invariant forall d :: d in done ==> hosts[d].Bound(settings.config) && hosts[d].routes.Keys == old(hosts[d].routes.Keys)
        invariant forall d :: d in remaining ==> hosts[d].routes == old(hosts[d].routes)
        decreases remaining
      {
        var d :| d in remaining;
        BindHost(hosts[d], settings.config);
        remaining := remaining - {d};
        done := done + {d};
      }
    }

    /** One host generates its route handles: it stays valid, becomes bound, and keeps its routes. */
    static method BindHost(h: HostRouting.Host, cfg: Config)
      requires h.Valid()
      modifies h
      ensures h.Valid() && h.Bound(cfg) && h.routes.Keys == old(h.routes.Keys)
    {
      h.GenerateRouteHandle(cfg);
    }

    /**
     * `run`: generates the route handles, checks the state, opens the log
     * (`logOpenError` is the error opening the log file, if any), checks
     * the cache, becomes running, and picks the handler by the number of
     * hosts. The server itself is not modelled: the result says how it
     * would be started.
     */
    method Run(logOpenError: Option<string>) returns (r: Flow<Serving>)
      requires Valid()
      modifies this, hosts.Values
      ensures Valid() && hosts == old(hosts) && defaultHost == old(defaultHost) && settings == old(settings)
      ensures language == old(language)
      ensures forall d :: d in hosts ==> hosts[d].Bound(settings.config) && hosts[d].routes.Keys == old(hosts[d].routes.Keys)
      ensures state == if StartupError(old(state), settings.config, logOpenError).None? then StateRunning else old(state)
      ensures r.Panics? <==> RunError(old(state), settings.config, logOpenError, |hosts|, defaultHost != null).Some?
      ensures r.Panics? ==> r.fault == RunError(old(state), settings.config, logOpenError, |hosts|, defaultHost != null).value
      ensures r.Completes? ==> r.value.addr == ":" + settings.config.server.port
      ensures r.Completes? ==> (r.value.tls <==> EqualFold("HTTPS", settings.config.server.protocol))
      ensures r.Completes? ==> r.value.certFile == settings.config.server.certFile && r.value.keyFile == settings.config.server.keyFile
      ensures r.Completes? ==> (r.value.single.Some? <==> |hosts| == 1)
      ensures r.Completes? && r.value.single.Some? ==> r.value.single.value in hosts.Values
    {
      RegisterRouteHandler();
      r := Start(logOpenError);
    }

    /** `run` once the route handles are generated: the checks, the state, and the handler. */
    method Start(logOpenError: Option<string>) returns (r: Flow<Serving>)
      requires Valid() && HostsBound(hosts, settings.config)
      modifies this
      ensures Valid() && HostsBound(hosts, settings.config)
      ensures hosts == old(hosts) && defaultHost == old(defaultHost) && settings == old(settings)
      ensures forall d :: d in hosts ==> hosts[d].routes == old(hosts[d].routes)
      ensures language == old(language)
      ensures state == if StartupError(old(state), settings.config, logOpenError).None? then StateRunning else old(state)
      ensures r.Panics? <==> RunError(old(state), settings.config, logOpenError, |hosts|, defaultHost != null).Some?
      ensures r.Panics? ==> r.fault == RunError(old(state), settings.config, logOpenError, |hosts|, defaultHost != null).value
      ensures r.Completes? ==> r.value.addr == ":" + settings.config.server.port
      ensures r.Completes? ==> (r.value.tls <==> EqualFold("HTTPS", settings.config.server.protocol))
      ensures r.Completes? ==> r.value.certFile == settings.config.server.certFile && r.value.keyFile == settings.config.server.keyFile
      ensures r.Completes? ==> (r.value.single.Some? <==> |hosts| == 1)
      ensures r.Completes? && r.value.single.Some? ==> r.value.single.value in hosts.Values
    {
      var fault := StartupCheck(state, settings.config, logOpenError);
      if fault.Some? {
        return Panics(fault.value);
      }
      r := Dispatch(hosts, defaultHost != null, settings.config);
      SetRunning();
    }

    /** The application becomes running; nothing else changes. */
    method SetRunning()
      requires Valid() && HostsBound(hosts, settings.config)
      modifies this
      ensures Valid() && HostsBound(hosts, settings.config) && state == StateRunning
      ensures hosts == old(hosts) && defaultHost == old(defaultHost) && settings == old(settings)
      ensures language == old(language)
      ensures forall d :: d in hosts ==> hosts[d].routes == old(hosts[d].routes)
    {
      state := StateRunning;
      // Only the application's own fields change, so the hosts stay valid and bound.
      HostsStayBound(hosts, settings.config);
    }

    /** The state, the log file, and the cache the session depends on. */
    static method StartupCheck(state: int, c: Config, logOpenError: Option<string>) returns (fault: Option<Fault>)
      ensures fault == StartupError(state, c, logOpenError)
    {
      if state == StateUninitialized {
        return Some(Uninitialized);
      }
      if c.log.enable && logOpenError.Some? {
        return Some(LogOpenFailed(logOpenError.value));
      }
      if c.session.enable && !c.cache.enable {
        return Some(SessionWithoutCache);
      }
      return None;
    }

    /**
     * The handler by the number of hosts: none panics, one serves alone,
     * several need a default host and are dispatched by domain.
     */
    static method Dispatch(hosts: map<string, HostRouting.Host>, hasDefault: bool, c: Config) returns (r: Flow<Serving>)
      ensures r.Panics? <==> HostError(|hosts|, hasDefault).Some?
      ensures r.Panics? ==> r.fault == HostError(|hosts|, hasDefault).value
      ensures r.Completes? ==> r.value.addr == ":" + c.server.port
      ensures r.Completes? ==> (r.value.tls <==> EqualFold("HTTPS", c.server.protocol))
      ensures r.Completes? ==> r.value.certFile == c.server.certFile && r.value.keyFile == c.server.keyFile
      ensures r.Completes? ==> (r.value.single.Some? <==> |hosts| == 1)
      ensures r.Completes? && r.value.single.Some? ==> r.value.single.value in hosts.Values
    {
      if |hosts| == 0 {
        return Panics(NoHost);
      }
      var single: Option<HostRouting.Host> := None;
      if |hosts| == 1 {
        var d :| d in hosts;
        single := Some(hosts[d]);
      } else if !hasDefault {
        return Panics(NoDefaultHost);
      }
      var tls := EqualFold("HTTPS", c.server.protocol);
      r := Completes(Serving(":" + c.server.port, tls, c.server.certFile, c.server.keyFile, single));
    }
  }
}
