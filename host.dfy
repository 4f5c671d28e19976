/**
 * A virtual host of host.go: its route table, filled from the controllers
 * registered on it, and its httprouter table, bound from the route table;
 * and the choice of host for a request by its domain.
 *
 * Reflection is replaced by a controller descriptor: the type's name, its
 * package path, its methods (name and parameter kinds, in the order the
 * type lists them, embedded `WebController` methods included) and what its
 * `MethodFilter` and `GetLayout` methods return. The httprouter table is a
 * map from (HTTP method, pattern) to the handle bound there.
 */
module HostRouting {
  import opened GoLib
  import opened Router
  import AppConfig
  import Cheetah

  /** An exported method of a controller type: its name and the kinds of its parameters. */
  /** Go method names are identifiers, never empty. */
  type MethodName = s: string | s != "" witness "Index"

  datatype MethodDescriptor = MethodDescriptor(name: MethodName, paramKinds: seq<string>)

  /**
   * A controller type: its name, its name qualified by its package, its
   * package's import path, its methods, the allowed methods per action its
   * `MethodFilter` returns (empty without one) and the string its
   * `GetLayout` returns (`None` when the first result is not a string).
   */
  datatype ControllerDescriptor = ControllerDescriptor(
    typeName: string,
    qualifiedName: string,
    importPath: string,
    methods: seq<MethodDescriptor>,
    methodFilter: map<string, seq<string>>,
    layoutResult: Option<string>)

  // ---------------------------------------------------------------------
  // What a registration derives

  /** The package directory under `GOPATH`. */
  function PackagePath(gopath: string, d: ControllerDescriptor): string
  {
    PathJoin([gopath, "src", d.importPath])
  }

  /** The controller's view directory: beside its package, the view dir and the pretty controller name. */
  function ViewPath(cfg: AppConfig.Config, pkgPath: string, controllerName: string): string
  {
    PathJoin([PathDir(pkgPath), cfg.view.dir, PrettyRoute(controllerName)])
  }

  /**
   * The layout: the `GetLayout` string unless it is `0` (in any case); the
   * fallback to the configured layout for `"0"` follows it.
   */
  function Layout(cfg: AppConfig.Config, layoutResult: Option<string>): string
  {
    var viewLayout := if layoutResult.Some? && !EqualFold(layoutResult.value, "0") then layoutResult.value else "";
    if viewLayout == "0" then cfg.view.layout else viewLayout
  }

  /**
   * The fallback to the configured layout never applies: a controller that
   * keeps the inherited `GetLayout` (which returns `"0"`) gets no layout.
   */
  lemma LayoutNeverConfigured(cfg: AppConfig.Config, layoutResult: Option<string>)
    ensures Layout(cfg, layoutResult) == (if layoutResult.Some? && !EqualFold(layoutResult.value, "0") then layoutResult.value else "")
    ensures Layout(cfg, Some("0")) == "" && Layout(cfg, None) == ""
    ensures Layout(cfg, Some("main.html")) == "main.html"
  {
    assert EqualFold("0", "0");
    assert LowerString("main.html") == "main.html";
    assert LowerString("0") == "0";
  }

  /**
   * The layout as `GetLayout`'s documentation describes it: `"0"` (in any
   * case) means the configured layout, any other string is the layout's
   * name (`""` disables it), and no string result leaves no layout.
   */
  function IntendedLayout(cfg: AppConfig.Config, layoutResult: Option<string>): string
  {
    if layoutResult.None? then ""
    else if EqualFold(layoutResult.value, "0") then cfg.view.layout
    else layoutResult.value
  }

  /**
   * The corrected layout falls back to the configured one for the inherited
   * `"0"`, and agrees with the layout as written on every other string.
   */
  lemma IntendedLayoutUsesGlobal(cfg: AppConfig.Config, layoutResult: Option<string>)
    ensures IntendedLayout(cfg, Some("0")) == cfg.view.layout
    ensures layoutResult.Some? && EqualFold(layoutResult.value, "0") ==> IntendedLayout(cfg, layoutResult) == cfg.view.layout
    ensures !(layoutResult.Some? && EqualFold(layoutResult.value, "0")) ==> IntendedLayout(cfg, layoutResult) == Layout(cfg, layoutResult)
  {
    assert EqualFold("0", "0");
  }

  /** The allowed methods of an action: its `MethodFilter` entry, else GET and POST. */
  function AllowMethods(filter: map<string, seq<string>>, actionName: string): (r: seq<string>)
    ensures actionName in filter ==> r == filter[actionName]
    ensures actionName !in filter ==> r == ["GET", "POST"]
  {
    if |filter| > 0 && actionName in filter then filter[actionName] else ["GET", "POST"]
  }

  /** The name of the `k`-th parameter segment: `a`, `b`, ... (`string(rune(97 + k))`). */
  function ParamLetter(k: nat): char
  {
    if 97 + k < 0xD800 || 0xE000 <= 97 + k < 0x11_0000 then (97 + k) as char else '�'
  }

  /** The parameter segments of the first `k` parameters: `/:a/:b`... */
  function ParamSuffix(k: nat): (r: string)
    ensures |r| == 3 * k
  {
    if k == 0 then "" else ParamSuffix(k - 1) + "/:" + [ParamLetter(k - 1)]
  }

  /** A parameter kind the framework can convert. */
  predicate KindsSupported(kinds: seq<string>)
  {
    forall i :: 0 <= i < |kinds| ==> kinds[i] == "string" || kinds[i] == "int"
  }

  /** The action's route followed by its extension with one more parameter segment per parameter, up to `n`. */
  function ParamRoutes(route: string, n: nat): (r: seq<string>)
    ensures |r| == n + 1
    ensures forall j :: 0 <= j <= n ==> r[j] == route + ParamSuffix(j)
  {
    if n == 0 then [route] else ParamRoutes(route, n - 1) + [route + ParamSuffix(n)]
  }

  /**
   * The patterns of an action with `n` parameters: the base when it is the
   * default action, then its parameter routes.
   */
  function Patterns(cfg: AppConfig.Config, base: string, actionName: string, n: nat): (r: seq<string>)
    ensures |r| == n + 1 + (if EqualFold(actionName, cfg.action.defaultAction) then 1 else 0)
  {
    (if EqualFold(actionName, cfg.action.defaultAction) then [base] else [])
    + ParamRoutes(base + "/" + PrettyRoute(actionName), n)
  }

  /** One record per pattern, all sharing the allowed methods and the controller information. */
  function Records(patterns: seq<string>, allow: seq<string>, typeName: string, info: ControllerInfo): (r: seq<RouteInfo>)
    ensures |r| == |patterns|
    ensures forall i :: 0 <= i < |r| ==> r[i] == RouteInfo(patterns[i], allow, typeName, info, None)
  {
    seq(|patterns|, i requires 0 <= i < |patterns| => RouteInfo(patterns[i], allow, typeName, info, None))
  }

  /** What the routes of one controller share. */
  datatype Site = Site(
    base: string,
    typeName: string,
    qualifiedName: string,
    controllerName: string,
    pkgPath: string,
    viewPath: string,
    layout: string,
    filter: map<string, seq<string>>)

  function SiteOf(cfg: AppConfig.Config, gopath: string, base: string, d: ControllerDescriptor, controllerName: string): Site
  {
    var pkgPath := PackagePath(gopath, d);
    Site(base, d.typeName, d.qualifiedName, controllerName, pkgPath, ViewPath(cfg, pkgPath, controllerName),
         Layout(cfg, d.layoutResult), d.methodFilter)
  }

  function KindPanic(s: Site, methodName: string): string
  {
    "The type of " + s.qualifiedName + "." + methodName + "()'s params must be string or int."
  }

  /** The route records of one method, in the order they are written, or the panic of an unsupported kind. */
  function MethodRoutes(cfg: AppConfig.Config, s: Site, m: MethodDescriptor): (r: Outcome<seq<RouteInfo>>)
    ensures Cheetah.ActionName(cfg, m.name).None? ==> r == Returned([])
    ensures r.Panicked? <==> Cheetah.ActionName(cfg, m.name).Some? && !KindsSupported(m.paramKinds)
  {
    match Cheetah.ActionName(cfg, m.name)
    case None => Returned([])
    case Some(actionName) =>
      if !KindsSupported(m.paramKinds) then Panicked(KindPanic(s, m.name))
      else
        var ps := Patterns(cfg, s.base, actionName, |m.paramKinds|);
        var info := ControllerInfo(s.pkgPath, s.controllerName, s.typeName, s.viewPath, m.name, actionName,
                                   m.paramKinds, s.layout);
        Returned(Records(ps, AllowMethods(s.filter, actionName), s.typeName, info))
  }

  /** The route table after writing `infos` in order: a later record for a pattern replaces an earlier one. */
  function Store(routes: map<string, RouteInfo>, infos: seq<RouteInfo>): (r: map<string, RouteInfo>)
    ensures r.Keys == routes.Keys + set i | 0 <= i < |infos| :: infos[i].route
    decreases |infos|
  {
    if infos == [] then routes
    else Store(routes, infos[..|infos| - 1])[infos[|infos| - 1].route := infos[|infos| - 1]]
  }

  /** The route table after a registration, and its panic if one ended it. */
  datatype Registration = Registration(routes: map<string, RouteInfo>, panic: Option<string>)

  /** The registration after one more method: nothing once a panic has ended it. */
  function RegisterNext(before: Registration, cfg: AppConfig.Config, s: Site, m: MethodDescriptor): (r: Registration)
    ensures before.panic.Some? ==> r == before
  {
    if before.panic.Some? then before
    else match MethodRoutes(cfg, s, m)
      case Panicked(reason) => Registration(before.routes, Some(reason))
      case Returned(infos) => Registration(Store(before.routes, infos), None)
  }

  /** The methods registered in order, until a method with an unsupported kind panics. */
  function RegisterMethods(routes: map<string, RouteInfo>, cfg: AppConfig.Config, s: Site, methods: seq<MethodDescriptor>): Registration
    decreases |methods|
  {
    if methods == [] then Registration(routes, None)
    else RegisterNext(RegisterMethods(routes, cfg, s, methods[..|methods| - 1]), cfg, s, methods[|methods| - 1])
  }

  /** One more method: its records are stored, or its panic ends the registration. */
  lemma RegisterStep(routes: map<string, RouteInfo>, cfg: AppConfig.Config, s: Site, methods: seq<MethodDescriptor>, j: nat)
    requires j < |methods| && RegisterMethods(routes, cfg, s, methods[..j]).panic.None?
    ensures var before := RegisterMethods(routes, cfg, s, methods[..j]).routes;
            var r := MethodRoutes(cfg, s, methods[j]);
            RegisterMethods(routes, cfg, s, methods[..j + 1])
              == if r.Panicked? then Registration(before, Some(r.reason)) else Registration(Store(before, r.value), None)
  {
    assert methods[..j + 1][..j] == methods[..j];
  }

  /** The last method is registered after all the others. */
  lemma RegisterMethodsLast(routes: map<string, RouteInfo>, cfg: AppConfig.Config, s: Site, methods: seq<MethodDescriptor>)
    requires |methods| > 0
    ensures RegisterMethods(routes, cfg, s, methods)
              == RegisterNext(RegisterMethods(routes, cfg, s, methods[..|methods| - 1]), cfg, s, methods[|methods| - 1])
  {
  }

  /** A method after a panic changes nothing. */
  lemma PanicStep(routes: map<string, RouteInfo>, cfg: AppConfig.Config, s: Site, methods: seq<MethodDescriptor>)
    requires |methods| > 0 && RegisterMethods(routes, cfg, s, methods[..|methods| - 1]).panic.Some?
    ensures RegisterMethods(routes, cfg, s, methods) == RegisterMethods(routes, cfg, s, methods[..|methods| - 1])
  {
    RegisterMethodsLast(routes, cfg, s, methods);
  }

  /** Once a method has panicked, the later methods change nothing. */
  lemma {:induction false} RegisterPanicStays(routes: map<string, RouteInfo>, cfg: AppConfig.Config, s: Site,
                                              methods: seq<MethodDescriptor>, j: nat)
    requires j <= |methods| && RegisterMethods(routes, cfg, s, methods[..j]).panic.Some?
    ensures RegisterMethods(routes, cfg, s, methods) == RegisterMethods(routes, cfg, s, methods[..j])
    decreases |methods|
  {
    if j < |methods| {
      var n := |methods| - 1;
      assert methods[..n][..j] == methods[..j];
      RegisterPanicStays(routes, cfg, s, methods[..n], j);
      PanicStep(routes, cfg, s, methods);
    } else {
      assert methods[..j] == methods;
    }
  }

  /** The checks made before anything is registered: the base route, then the controller's name. */
  function Precheck(cfg: AppConfig.Config, base: string, d: ControllerDescriptor): (r: Option<string>)
    ensures r.None? <==> |base| >= 2 && base[0] == '/' && Cheetah.ControllerName(cfg, d.typeName).Some?
  {
    if |base| == 0 || base[0] != '/' then
      Some("The first character of route named \"" + base + "\" must be \"/\".")
    else if |base| < 2 then
      Some("The length of route named \"" + base + "\" must greater than one.")
    else if Cheetah.ControllerName(cfg, d.typeName).None? then
      Some("The " + d.typeName + "'s name is invalid, The controller's prefix and suffix must be '"
           + cfg.controller.prefix + "' and '" + cfg.controller.suffix + "'.")
    else None
  }

  /** `RegisterWebController` as a function of the route table before it. */
  function Register(routes: map<string, RouteInfo>, cfg: AppConfig.Config, gopath: string, base: string,
                    d: ControllerDescriptor): Registration
  {
    match Precheck(cfg, base, d)
    case Some(reason) => Registration(routes, Some(reason))
    case None =>
      RegisterMethods(routes, cfg, SiteOf(cfg, gopath, base, d, Cheetah.ControllerName(cfg, d.typeName).value), d.methods)
  }

  // ---------------------------------------------------------------------
  // Properties of the derived routes

  /** The patterns are the action route and its parameter extensions, after the base for the default action. */
  lemma PatternsShape(cfg: AppConfig.Config, base: string, actionName: string, n: nat)
    ensures var ps := Patterns(cfg, base, actionName, n);
            var d := if EqualFold(actionName, cfg.action.defaultAction) then 1 else 0;
            (d == 1 ==> ps[0] == base)
            && forall j :: 0 <= j <= n ==> ps[d + j] == base + "/" + PrettyRoute(actionName) + ParamSuffix(j)
  {
  }

  /** `Index` with two `string` parameters has the patterns `/p`, `/p/index`, `/p/index/:a`, `/p/index/:a/:b`. */
  lemma PatternsExample(cfg: AppConfig.Config)
    requires cfg.action.defaultAction == "Index"
    ensures Patterns(cfg, "/p", "Index", 2) == ["/p", "/p/index", "/p/index/:a", "/p/index/:a/:b"]
  {
    assert EqualFold("Index", "Index");
    PrettyRouteIndex();
    var route := "/p/index";
    assert ParamLetter(0) == 'a' && ParamLetter(1) == 'b';
    assert ParamSuffix(1) == "/:a";
    assert ParamSuffix(2) == "/:a/:b";
    assert "/p" + "/" + PrettyRoute("Index") == route;
    var ps := ParamRoutes(route, 2);
    assert Patterns(cfg, "/p", "Index", 2) == ["/p"] + ps;
    assert ps == [route, route + "/:a", route + "/:a/:b"];
    assert route + "/:a" == "/p/index/:a" && route + "/:a/:b" == "/p/index/:a/:b";
  }

  /**
   * The records of one action: one per pattern, each keyed by its own
   * pattern, all with the same allowed methods, the action's full parameter
   * list and no handle yet.
   */
  lemma MethodRoutesShape(cfg: AppConfig.Config, s: Site, m: MethodDescriptor)
    requires MethodRoutes(cfg, s, m).Returned? && Cheetah.ActionName(cfg, m.name).Some?
    ensures var infos := MethodRoutes(cfg, s, m).value;
            var actionName := Cheetah.ActionName(cfg, m.name).value;
            |infos| == |m.paramKinds| + 1 + (if EqualFold(actionName, cfg.action.defaultAction) then 1 else 0)
            && forall i :: 0 <= i < |infos| ==>
                 infos[i].route == Patterns(cfg, s.base, actionName, |m.paramKinds|)[i]
                 && infos[i].allowMethods == AllowMethods(s.filter, actionName)
                 && infos[i].controllerInfo.params == m.paramKinds
                 && infos[i].controllerInfo.actionName == actionName
                 && infos[i].controllerInfo.actionFullName == m.name
                 && infos[i].handle == None
  {
  }

  /** A method that is not an action adds no route, whatever its parameters. */
  lemma NonActionAddsNothing(routes: map<string, RouteInfo>, cfg: AppConfig.Config, s: Site, methods: seq<MethodDescriptor>, m: MethodDescriptor)
    requires Cheetah.ActionName(cfg, m.name).None?
    ensures RegisterMethods(routes, cfg, s, methods + [m]) == RegisterMethods(routes, cfg, s, methods)
  {
    assert (methods + [m])[..|methods|] == methods;
  }

  /** The records of a method under a base path are all paths of at least two characters. */
  lemma MethodRoutesPaths(cfg: AppConfig.Config, s: Site, m: MethodDescriptor)
    requires |s.base| >= 2 && s.base[0] == '/'
    ensures MethodRoutes(cfg, s, m).Returned? ==>
              forall i :: 0 <= i < |MethodRoutes(cfg, s, m).value| ==>
                |MethodRoutes(cfg, s, m).value[i].route| >= 2 && MethodRoutes(cfg, s, m).value[i].route[0] == '/'
  {
    if Cheetah.ActionName(cfg, m.name).Some? && KindsSupported(m.paramKinds) {
      PatternsPaths(cfg, s.base, Cheetah.ActionName(cfg, m.name).value, |m.paramKinds|);
    }
  }

  /** A path of at least two characters stays one when something is appended. */
  lemma PathStart(a: string, b: string)
    requires |a| >= 2 && a[0] == '/'
    ensures |a + b| >= 2 && (a + b)[0] == '/'
  {
  }

  /** The patterns under a base path are all paths of at least two characters. */
  lemma PatternsPaths(cfg: AppConfig.Config, base: string, actionName: string, n: nat)
    requires |base| >= 2 && base[0] == '/'
    ensures forall i :: 0 <= i < |Patterns(cfg, base, actionName, n)| ==>
              |Patterns(cfg, base, actionName, n)[i]| >= 2 && Patterns(cfg, base, actionName, n)[i][0] == '/'
  {
    var ps := Patterns(cfg, base, actionName, n);
    var d := if EqualFold(actionName, cfg.action.defaultAction) then 1 else 0;
    PatternsShape(cfg, base, actionName, n);
    var route := base + "/" + PrettyRoute(actionName);
    PathStart(base, "/");
    PathStart(base + "/", PrettyRoute(actionName));
    forall i | 0 <= i < |ps|
      ensures |ps[i]| >= 2 && ps[i][0] == '/'
    {
      if i >= d {
        PathStart(route, ParamSuffix(i - d));
      }
    }
  }

  /** Every record in a table is keyed by its own pattern, a path of at least two characters. */
  ghost predicate KeyedByRoute(routes: map<string, RouteInfo>)
  {
    forall k :: k in routes ==> routes[k].route == k && |k| >= 2 && k[0] == '/'
  }

  lemma {:induction false} StoreKeyed(routes: map<string, RouteInfo>, infos: seq<RouteInfo>)
    requires KeyedByRoute(routes)
    requires forall i :: 0 <= i < |infos| ==> |infos[i].route| >= 2 && infos[i].route[0] == '/'
    ensures KeyedByRoute(Store(routes, infos))
    decreases |infos|
  {
    if infos != [] {
      StoreKeyed(routes, infos[..|infos| - 1]);
    }
  }

  /** Storing a record makes it the one found under its pattern. */
  lemma StoreLast(routes: map<string, RouteInfo>, infos: seq<RouteInfo>, i: nat)
    requires i < |infos| && forall j :: i < j < |infos| ==> infos[j].route != infos[i].route
    ensures infos[i].route in Store(routes, infos) && Store(routes, infos)[infos[i].route] == infos[i]
    decreases |infos|
  {
    if i < |infos| - 1 {
      StoreLast(routes, infos[..|infos| - 1], i);
    }
  }

  lemma {:induction false} RegisterMethodsKeyed(routes: map<string, RouteInfo>, cfg: AppConfig.Config, s: Site,
                                                methods: seq<MethodDescriptor>)
    requires KeyedByRoute(routes) && |s.base| >= 2 && s.base[0] == '/'
    ensures KeyedByRoute(RegisterMethods(routes, cfg, s, methods).routes)
    decreases |methods|
  {
    if methods != [] {
      var n := |methods| - 1;
      RegisterMethodsKeyed(routes, cfg, s, methods[..n]);
      var before := RegisterMethods(routes, cfg, s, methods[..n]);
      var r := MethodRoutes(cfg, s, methods[n]);
      if before.panic.None? && r.Returned? {
        MethodRoutesPaths(cfg, s, methods[n]);
        StoreKeyed(before.routes, r.value);
      }
    }
  }

  /** A registration keeps every record keyed by its own pattern. */
  lemma RegisterKeyed(routes: map<string, RouteInfo>, cfg: AppConfig.Config, gopath: string, base: string,
                      d: ControllerDescriptor)
    requires KeyedByRoute(routes)
    ensures KeyedByRoute(Register(routes, cfg, gopath, base, d).routes)
  {
    if Precheck(cfg, base, d).None? {
      RegisterMethodsKeyed(routes, cfg, SiteOf(cfg, gopath, base, d, Cheetah.ControllerName(cfg, d.typeName).value), d.methods);
    }
  }

  /** A failed precheck leaves the table as it was. */
  lemma PrecheckPanicsFirst(routes: map<string, RouteInfo>, cfg: AppConfig.Config, gopath: string, base: string,
                            d: ControllerDescriptor)
    requires (|base| < 2 || base[0] != '/')
    ensures Register(routes, cfg, gopath, base, d) == Registration(routes, Precheck(cfg, base, d))
    ensures Precheck(cfg, base, d).Some?
  {
  }

  // ---------------------------------------------------------------------
  // Binding

  /** The handle `generateRouteHandle` makes for a record. */
  function HandleOf(info: RouteInfo): Handle
  {
    Dispatch(info.route, info.controllerType, info.controllerInfo)
  }

  /** What `GET /` is bound to: the default route's handle when it exists, else the greeting. */
  function RootHandle(cfg: AppConfig.Config, routes: map<string, RouteInfo>): (h: Handle)
    ensures cfg.router.defaultRoute in routes ==> h == HandleOf(routes[cfg.router.defaultRoute])
    ensures cfg.router.defaultRoute !in routes ==> h == Greeting
  {
    if cfg.router.defaultRoute in routes then HandleOf(routes[cfg.router.defaultRoute]) else Greeting
  }

  /** (method, pattern) is bound by the route table. */
  predicate BoundBy(routes: map<string, RouteInfo>, verb: string, pattern: string)
  {
    pattern in routes && verb in routes[pattern].allowMethods
  }

  /** Every record carries its handle, bound for each allowed method, and `GET /` is bound. */
  ghost predicate BoundTables(cfg: AppConfig.Config, routes: map<string, RouteInfo>, router: map<(string, string), Handle>)
  {
    (forall k :: k in routes ==> routes[k].handle == Some(HandleOf(routes[k])))
    && (forall verb, pattern :: BoundBy(routes, verb, pattern) ==>
          (verb, pattern) in router && router[(verb, pattern)] == HandleOf(routes[pattern]))
    && ("GET", "/") in router && router[("GET", "/")] == RootHandle(cfg, routes)
  }

  /** Setting the handles and binding them leaves the tables bound. */
  lemma BindingBinds(cfg: AppConfig.Config, before: map<string, RouteInfo>, routes: map<string, RouteInfo>,
                     router: map<(string, string), Handle>)
    requires routes.Keys == before.Keys
    requires forall k :: k in routes ==> routes[k] == before[k].(handle := Some(HandleOf(before[k])))
    requires forall verb, pattern :: BoundBy(before, verb, pattern) ==>
               (verb, pattern) in router && router[(verb, pattern)] == HandleOf(before[pattern])
    requires ("GET", "/") in router && router[("GET", "/")] == RootHandle(cfg, before)
    ensures BoundTables(cfg, routes, router)
  {
    assert forall k :: k in routes ==> HandleOf(routes[k]) == HandleOf(before[k]);
    assert forall verb, pattern :: BoundBy(routes, verb, pattern) ==> BoundBy(before, verb, pattern);
  }

  /** Binding `GET /` to the root handle after every record keeps the records' bindings and binds the tables. */
  lemma RootBinds(cfg: AppConfig.Config, before: map<string, RouteInfo>, routes: map<string, RouteInfo>,
                  router: map<(string, string), Handle>)
    requires "/" !in before && routes.Keys == before.Keys
    requires forall k :: k in routes ==> routes[k] == before[k].(handle := Some(HandleOf(before[k])))
    requires forall verb, pattern :: BoundBy(before, verb, pattern) ==>
               (verb, pattern) in router && router[(verb, pattern)] == HandleOf(before[pattern])
    ensures var r := router[("GET", "/") := RootHandle(cfg, before)];
            && (forall verb, pattern :: BoundBy(before, verb, pattern) ==>
                  (verb, pattern) in r && r[(verb, pattern)] == HandleOf(before[pattern]))
            && BoundTables(cfg, routes, r)
  {
    var r := router[("GET", "/") := RootHandle(cfg, before)];
    BindingBinds(cfg, before, routes, r);
  }

  /** A virtual host: its httprouter table and its route table. */
  class Host {
    var router: map<(string, string), Handle>
    var routes: map<string, RouteInfo>
    var options: RouterOptions

    ghost predicate Valid()
      reads this
    {
      KeyedByRoute(routes)
    }

    /** Its tables are bound: see `BoundTables`. */
    ghost predicate Bound(cfg: AppConfig.Config)
      reads this
    {
      BoundTables(cfg, routes, router)
    }

    /** The host `newHost` makes: an empty router with the given options and no routes. */
    constructor (o: RouterOptions)
      ensures Valid() && router == map[] && routes == map[] && options == o
    {
      router, routes, options := map[], map[], o;
    }

    /**
     * `RegisterWebController`: checks the base route and the controller's
     * name, then writes the records of every action method in turn; a
     * method with an unsupported parameter kind panics, keeping what the
     * earlier ones wrote.
     */
    method RegisterWebController(cfg: AppConfig.Config, gopath: string, base: string, d: ControllerDescriptor)
      returns (panic: Option<string>)
      requires Valid()
      modifies this
      ensures Valid()
      ensures routes == Register(old(routes), cfg, gopath, base, d).routes
      ensures panic == Register(old(routes), cfg, gopath, base, d).panic
      ensures router == old(router) && options == old(options)
    {
      RegisterKeyed(routes, cfg, gopath, base, d);
      panic := Precheck(cfg, base, d);
      if panic.Some? {
        return;
      }
      var controllerName := Cheetah.ControllerName(cfg, d.typeName).value;
      var s := SiteOf(cfg, gopath, base, d, controllerName);
      panic := RegisterActions(cfg, s, d.methods);
    }

    /** The loop over the controller's methods: each action's records are written before the next method is looked at. */
    method RegisterActions(cfg: AppConfig.Config, s: Site, methods: seq<MethodDescriptor>) returns (panic: Option<string>)
        modifies this
      ensures routes == RegisterMethods(old(routes), cfg, s, methods).routes
      ensures panic == RegisterMethods(old(routes), cfg, s, methods).panic
      ensures router == old(router) && options == old(options)
    {
      var j := 0;
      while j < |methods|
        invariant 0 <= j <= |methods|
        invariant RegisterMethods(old(routes), cfg, s, methods[..j]) == Registration(routes, None)
        invariant router == old(router) && options == old(options)
      {
        RegisterStep(old(routes), cfg, s, methods, j);
        var infos := ActionRecords(cfg, s, methods[j]);
        if infos.Panicked? {
          RegisterPanicStays(old(routes), cfg, s, methods, j + 1);
          return Some(infos.reason);
        }
        StoreRecords(infos.value);
        j := j + 1;
      }
      assert methods[..j] == methods;
      return None;
    }

    /** The records of one method: its action name, allowed methods, patterns and parameter kinds. */
    static method ActionRecords(cfg: AppConfig.Config, s: Site, m: MethodDescriptor) returns (r: Outcome<seq<RouteInfo>>)
        ensures r == MethodRoutes(cfg, s, m)
    {
      var actionName := Cheetah.ActionName(cfg, m.name);
      if actionName.None? {
        return Returned([]);
      }
      var allowMethods := ["GET", "POST"];
      if |s.filter| > 0 && actionName.value in s.filter {
        allowMethods := s.filter[actionName.value];
      }
      var patterns: seq<string> := [];
      if EqualFold(actionName.value, cfg.action.defaultAction) {
        patterns := [s.base];
      }
      var actionRoute := BuildPrettyRoute(actionName.value);
      var route := s.base + "/" + actionRoute;
      var supported, params, withParams := ParamPatterns(route, m.paramKinds);
      if !supported {
        return Panicked(KindPanic(s, m.name));
      }
      patterns := patterns + withParams;
      var info := ControllerInfo(s.pkgPath, s.controllerName, s.typeName, s.viewPath, m.name, actionName.value,
                                 params, s.layout);
      r := Returned(Records(patterns, allowMethods, s.typeName, info));
    }

    /**
     * The parameter loop: checks each kind in turn and extends the route by
     * one segment per parameter, stopping at the first unsupported kind.
     */
    static method ParamPatterns(route: string, kinds: seq<string>)
      returns (supported: bool, params: seq<string>, patterns: seq<string>)
      ensures supported == KindsSupported(kinds)
      ensures supported ==> params == kinds && patterns == ParamRoutes(route, |kinds|)
    {
      patterns := [route];
      params := [];
      var routeWithParams := route;
      var k := 0;
      while k < |kinds|
        invariant 0 <= k <= |kinds|
        invariant params == kinds[..k] && KindsSupported(params)
        invariant routeWithParams == route + ParamSuffix(k)
        invariant patterns == ParamRoutes(route, k)
      {
        var paramKind := kinds[k];
        if paramKind != "string" && paramKind != "int" {
          return false, params, patterns;
        }
        assert kinds[..k + 1] == params + [paramKind];
        params := params + [paramKind];
        routeWithParams := routeWithParams + "/:" + [ParamLetter(k)];
        assert routeWithParams == route + ParamSuffix(k + 1);
        patterns := patterns + [routeWithParams];
        k := k + 1;
      }
      assert params == kinds;
      supported := true;
    }

    /** Writes the records in order into the route table. */
    method StoreRecords(infos: seq<RouteInfo>)
      modifies this
      ensures routes == Store(old(routes), infos)
      ensures router == old(router) && options == old(options)
    {
      var i := 0;
      while i < |infos|
        invariant 0 <= i <= |infos|
        invariant routes == Store(old(routes), infos[..i])
        invariant router == old(router) && options == old(options)
      {
        assert infos[..i + 1][..i] == infos[..i];
        routes := routes[infos[i].route := infos[i]];
        i := i + 1;
      }
      assert infos[..i] == infos;
    }

    /**
     * `generateRouteHandle`: every record gets the handle for its route,
     * bound for each of its allowed methods, and `GET /` is bound to the
     * default route's handle or to the greeting. Records are visited in
     * any order.
     */
    method GenerateRouteHandle(cfg: AppConfig.Config)
      requires Valid()
      modifies this
      ensures Valid() && options == old(options)
      ensures routes.Keys == old(routes).Keys
      ensures forall k :: k in routes ==> routes[k] == old(routes)[k].(handle := Some(HandleOf(old(routes)[k])))
      ensures forall verb, pattern :: BoundBy(old(routes), verb, pattern) ==>
                (verb, pattern) in router && router[(verb, pattern)] == HandleOf(old(routes)[pattern])
      ensures ("GET", "/") in router && router[("GET", "/")] == RootHandle(cfg, old(routes))
      ensures forall p :: p in router && p != ("GET", "/") && !BoundBy(old(routes), p.0, p.1) ==>
                p in old(router) && router[p] == old(router)[p]
      ensures Bound(cfg)
    {
      BindRecords();
      var root := Greeting;
      if cfg.router.defaultRoute in routes {
        root := routes[cfg.router.defaultRoute].handle.value;
      }
      assert "/" !in old(routes);
      RootBinds(cfg, old(routes), routes, router);
      router := router[("GET", "/") := root];
    }

    /** Every record gets its handle, bound for each of its allowed methods; nothing else is bound. */
    method BindRecords()
      modifies this
      ensures options == old(options) && routes.Keys == old(routes).Keys
      ensures forall k :: k in routes ==> routes[k] == old(routes)[k].(handle := Some(HandleOf(old(routes)[k])))
      ensures forall verb, pattern :: BoundBy(old(routes), verb, pattern) ==>
                (verb, pattern) in router && router[(verb, pattern)] == HandleOf(old(routes)[pattern])
      ensures forall p :: p in router && !BoundBy(old(routes), p.0, p.1) ==> p in old(router) && router[p] == old(router)[p]
    {
      var remaining := routes.Keys;
      ghost var done: set<string> := {};
      while remaining != {}
        invariant remaining + done == old(routes).Keys && remaining !! done
        invariant options == old(options) && routes.Keys == old(routes).Keys
        invariant forall k :: k in remaining ==> routes[k] == old(routes)[k]
        invariant forall k :: k in done ==> routes[k] == old(routes)[k].(handle := Some(HandleOf(old(routes)[k])))
        invariant forall verb, pattern :: pattern in done && BoundBy(old(routes), verb, pattern) ==>
                    (verb, pattern) in router && router[(verb, pattern)] == HandleOf(old(routes)[pattern])
        invariant old(router).Keys <= router.Keys
        invariant forall p :: p in router && !(p.1 in done && BoundBy(old(routes), p.0, p.1)) ==>
                    p in old(router) && router[p] == old(router)[p]
        decreases remaining
      {
        var key :| key in remaining;
        var route := routes[key];
        var handle := Dispatch(route.route, route.controllerType, route.controllerInfo);
        BindMethods(route.allowMethods, key, handle);
        routes := routes[key := route.(handle := Some(handle))];
        remaining := remaining - {key};
        done := done + {key};
      }
    }

    /** Binds the handle at `pattern` for each allowed method. */
    method BindMethods(allowMethods: seq<string>, pattern: string, handle: Handle)
      modifies this
      ensures routes == old(routes) && options == old(options)
      ensures forall verb :: verb in allowMethods ==> (verb, pattern) in router && router[(verb, pattern)] == handle
      ensures old(router).Keys <= router.Keys
      ensures forall p :: p in router && !(p.1 == pattern && p.0 in allowMethods) ==>
                p in old(router) && router[p] == old(router)[p]
    {
      var i := 0;
      while i < |allowMethods|
        invariant 0 <= i <= |allowMethods|
        invariant routes == old(routes) && options == old(options)
        invariant forall verb :: verb in allowMethods[..i] ==> (verb, pattern) in router && router[(verb, pattern)] == handle
        invariant old(router).Keys <= router.Keys
        invariant forall p :: p in router && !(p.1 == pattern && p.0 in allowMethods[..i]) ==>
                    p in old(router) && router[p] == old(router)[p]
      {
        assert allowMethods[..i + 1] == allowMethods[..i] + [allowMethods[i]];
        router := router[(allowMethods[i], pattern) := handle];
        i := i + 1;
      }
      assert allowMethods[..i] == allowMethods;
    }

    /** `RegisterResources`: serves the files under `dir` at `/<route>/` followed by the file path. */
    method RegisterResources(route: string, dir: string)
      modifies this
      ensures router == old(router)[("GET", ResourcePattern(route)) := Files(dir)]
      ensures routes == old(routes) && options == old(options)
    {
      router := router[("GET", "/" + route + "/*filepath") := Files(dir)];
    }
  }

  /** The pattern a resource directory is served at. */
  function ResourcePattern(route: string): (p: string)
    ensures |p| == |route| + 11 && p[0] == '/' && p[1..1 + |route|] == route && p[1 + |route|..] == "/*filepath"
  {
    "/" + route + "/*filepath"
  }

  // ---------------------------------------------------------------------
  // Host selection

  /** `Hosts.ServeHTTP`: the host named by the request's host up to its first `:`, else the default host. */
  function SelectHost(hosts: map<string, Host>, defaultHost: Host?, hostHeader: string): (h: Host?)
    ensures Split(hostHeader, ":")[0] in hosts ==> h == hosts[Split(hostHeader, ":")[0]]
    ensures Split(hostHeader, ":")[0] !in hosts ==> h == defaultHost
  {
    var domain := Split(hostHeader, ":")[0];
    if domain in hosts then hosts[domain] else defaultHost
  }

  /** The port in the host header does not influence the choice. */
  lemma SelectHostIgnoresPort(hosts: map<string, Host>, defaultHost: Host?, domain: string, port: string)
    requires ':' !in domain
    ensures SelectHost(hosts, defaultHost, domain + ":" + port) == SelectHost(hosts, defaultHost, domain)
    ensures SelectHost(hosts, defaultHost, domain) == if domain in hosts then hosts[domain] else defaultHost
  {
    FirstPieceBeforeColon(domain, port);
    NoColonSplit(domain);
  }

  lemma FirstPieceBeforeColon(domain: string, port: string)
    requires ':' !in domain
    ensures Split(domain + ":" + port, ":")[0] == domain
  {
    var s := domain + ":" + port;
    assert OccursAt(s, ":", |domain|) by { assert s[|domain|..|domain| + 1] == ":"; }
    forall j | 0 <= j < |domain|
      ensures !OccursAt(s, ":", j)
    {
      assert s[j..j + 1][0] == domain[j];
    }
    assert Index(s, ":") == |domain|;
    assert s[..|domain|] == domain;
  }

  lemma NoColonSplit(domain: string)
    requires ':' !in domain
    ensures Split(domain, ":")[0] == domain
  {
    forall j | 0 <= j < |domain|
      ensures !OccursAt(domain, ":", j)
    {
      assert domain[j..j + 1] == [domain[j]];
    }
  }
}
