/**
 * The application configuration record (`Config` of config.go) and the
 * defaults `NewApplication` installs (application.go).
 *
 * The Go record is flat; here its fields are grouped as the defaults group
 * them (server, controller, action, view, session, CSRF, log, router,
 * cache), so `actionPrefix` is `action.prefix` and so on. The address field
 * is the port, the field the application reads and writes. The logger's
 * flag and level constants belong to the logging library; their values are
 * a parameter of the defaults.
 */
module AppConfig {
  import opened GoLib
  import Router

  datatype ServerConfig = ServerConfig(port: string, protocol: string, certFile: string, keyFile: string)

  datatype ControllerConfig = ControllerConfig(prefix: string, suffix: string)

  datatype ActionConfig = ActionConfig(prefix: string, suffix: string, defaultAction: string)

  datatype ViewConfig = ViewConfig(layout: string, layoutDir: string, dir: string, suffix: string)

  datatype SessionConfig = SessionConfig(enable: bool, name: string, store: string, maxAge: int)

  /** The file target of the logger. */
  datatype LogFileConfig = LogFileConfig(level: int, dir: string, name: string, path: string, maxSize: int, interval: int)

  /** The mail target of the logger. */
  datatype LogMailConfig = LogMailConfig(level: int, host: string, port: string, user: string, password: string,
                                         sender: string, recipient: string, subject: string)

  datatype LogConfig = LogConfig(enable: bool, level: int, flag: int, file: LogFileConfig, mail: LogMailConfig)

  datatype CsrfConfig = CsrfConfig(enableValidation: bool, maskLength: int, sessionParam: string,
                                   headerParam: string, formParam: string)

  /** The default route and the options every host's httprouter is built with. */
  datatype RouteConfig = RouteConfig(defaultRoute: string, options: Router.RouterOptions)

  datatype CacheConfig = CacheConfig(enable: bool, network: string, address: string, password: string,
                                     db: string, maxIdle: int, idleTimeout: int)

  datatype Config = Config(
    server: ServerConfig,
    controller: ControllerConfig,
    action: ActionConfig,
    view: ViewConfig,
    session: SessionConfig,
    csrf: CsrfConfig,
    log: LogConfig,
    router: RouteConfig,
    cache: CacheConfig)

  /** The logging library's flag and level masks used by the defaults. */
  datatype LogBits = LogBits(flag: int, level: int, fileLevel: int, mailLevel: int)

  /** The shortest mask length the application recommends (`CsrfMaskLength`). */
  const RecommendedMaskLength: int := 8

  /** The configuration `NewApplication` starts from. */
  function DefaultConfig(bits: LogBits): Config
  {
    Config(
      ServerConfig("8080", "HTTP", "", ""),
      ControllerConfig("", "Controller"),
      ActionConfig("Action", "", "Index"),
      ViewConfig("layout.html", "layouts", "views", ".html"),
      SessionConfig(true, "GOSESSION", "REDIS", 10 * 24 * 3600),
      CsrfConfig(true, 8, "_csrf", "X-CSRF-Token", "_csrf"),
      LogConfig(true, bits.level, bits.flag,
                LogFileConfig(bits.fileLevel, "logs", "app.log", "", 20 * 1024 * 1024, 3600),
                LogMailConfig(bits.mailLevel, "", "", "", "", "", "", "Application Log")),
      RouteConfig("/index", Router.RouterOptions(true, true, true, true)),
      CacheConfig(true, "tcp", ":6379", "", "0", 1000, 300))
  }

  /** The httprouter options a new host is built with. */
  function RouterOptionsOf(c: Config): Router.RouterOptions
  {
    c.router.options
  }
}
