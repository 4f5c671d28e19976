/**
 * The naming conventions and the request handler of cheetah.go.
 *
 * A controller type's name and an action method's name are stripped of the
 * configured prefix and suffix; the handler bound to a route creates a
 * controller, runs `Init`, `BeforeAction`, the action (with its positional
 * parameters converted to the declared kinds) and `ResponseClient`.
 *
 * Reflection is replaced by a description of the controller's behaviour:
 * what its `BeforeAction` returns and what its action does with its
 * arguments, as a list of calls on the controller.
 */
module Cheetah {
  import opened GoLib
  import StringUtil
  import opened Response
  import opened RequestContext
  import Router
  import AppConfig
  import opened Controller

  // ---------------------------------------------------------------------
  // Naming conventions

  /** The name without `prefix`, or `None` when the prefix is not at the start. */
  function StripPrefix(name: string, prefix: string): (r: Option<string>)
    ensures r.Some? ==> name == prefix + r.value
    ensures |prefix| > 0 && !HasPrefix(name, prefix) ==> r == None
  {
    IndexZeroIsPrefix(name, prefix);
    if |prefix| > 0 then
      if Index(name, prefix) != 0 then None
      else
        StringUtil.SubStringSuffix(name, |prefix|);
        Some(StringUtil.SubString(name, |prefix|, |name| - |prefix|))
    else Some(name)
  }

  /** The name without `suffix`, or `None` when its first occurrence is not at the end. */
  function StripSuffix(n: string, suffix: string): (r: Option<string>)
    ensures r.Some? ==> n == r.value + suffix
  {
    if |suffix| > 0 then
      var pos := |n| - |suffix|;
      if pos == -1 || pos != Index(n, suffix) then None
      else
        StringUtil.SubStringPrefix(n, pos);
        assert n == n[..pos] + n[pos..];
        Some(StringUtil.SubString(n, 0, pos))
    else Some(n)
  }

  /**
   * The name without `prefix` and `suffix`, or `None` when the prefix is not
   * at the start or the first occurrence of the suffix is not at the end.
   */
  function StripAffixes(name: string, prefix: string, suffix: string): (r: Option<string>)
    ensures r.Some? ==> name == prefix + r.value + suffix
    ensures |prefix| > 0 && !HasPrefix(name, prefix) ==> r == None
  {
    var p := StripPrefix(name, prefix);
    if p.None? then None
    else
      var r := StripSuffix(p.value, suffix);
      if r.None? then None
      else
        Concat3(prefix, r.value, suffix);
        r
  }

  /** Concatenation groups either way. */
  lemma Concat3(a: string, b: string, c: string)
    ensures a + (b + c) == a + b + c
  {
  }

  /** `getControllerName` with the configured controller prefix and suffix. */
  function ControllerName(cfg: AppConfig.Config, name: string): (r: Option<string>)
    ensures r.Some? ==> name == cfg.controller.prefix + r.value + cfg.controller.suffix
  {
    StripAffixes(name, cfg.controller.prefix, cfg.controller.suffix)
  }

  /** `getActionName`: the name must start with `A`-`Z` before anything is stripped. */
  function ActionName(cfg: AppConfig.Config, name: string): (r: Option<string>)
    requires |name| > 0
    ensures r.Some? ==> IsUpper(name[0]) && name == cfg.action.prefix + r.value + cfg.action.suffix
    ensures !IsUpper(name[0]) ==> r == None
  {
    if !IsUpper(name[0]) then None
    else StripAffixes(name, cfg.action.prefix, cfg.action.suffix)
  }

  /** A name built from the prefix, a core and the suffix, with no earlier suffix, gives the core back. */
  lemma StripComposed(prefix: string, core: string, suffix: string)
    requires suffix == "" || Index(core + suffix, suffix) == |core|
    ensures StripAffixes(prefix + core + suffix, prefix, suffix) == Some(core)
  {
    var name := prefix + core + suffix;
    var n := core + suffix;
    assert name[|prefix|..] == n;
    if |prefix| > 0 {
      assert name[..|prefix|] == prefix;
      IndexZeroIsPrefix(name, prefix);
      StringUtil.SubStringSuffix(name, |prefix|);
    } else {
      assert name == n;
    }
    if |suffix| > 0 {
      StringUtil.SubStringPrefix(n, |core|);
      assert n[..|core|] == core;
    } else {
      assert n == core;
    }
  }

  /** The suffix is located by its first occurrence: a name holding it twice is rejected. */
  lemma SuffixFoundFirst(prefix: string, core: string, suffix: string)
    requires |suffix| > 0 && Index(core + suffix, suffix) != |core|
    ensures StripAffixes(prefix + core + suffix, prefix, suffix) == None
  {
    var name := prefix + core + suffix;
    if |prefix| > 0 {
      assert name[..|prefix|] == prefix;
      IndexZeroIsPrefix(name, prefix);
      StringUtil.SubStringSuffix(name, |prefix|);
      assert name[|prefix|..] == core + suffix;
    }
  }

  /** The default conventions: `PostController` names the `Post` controller. */
  lemma ControllerNameDefault(cfg: AppConfig.Config)
    requires cfg.controller.prefix == "" && cfg.controller.suffix == "Controller"
    ensures ControllerName(cfg, "PostController") == Some("Post")
  {
    PostControllerIndex();
    StripComposed("", "Post", cfg.controller.suffix);
    PostControllerSpelling();
  }

  lemma PostControllerSpelling()
    ensures "" + "Post" + "Controller" == "PostController"
  {
  }

  lemma PostControllerIndex()
    ensures Index("Post" + "Controller", "Controller") == 4
  {
    var c := "Controller";
    var s := "Post" + c;
    assert s[0] == 'P' && s[1] == 'o' && s[2] == 's' && s[3] == 't' && c[0] == 'C';
    IndexFromSkip(s, c, 0);
    IndexFromSkip(s, c, 1);
    IndexFromSkip(s, c, 2);
    IndexFromSkip(s, c, 3);
    assert s[4..14] == c;
    IndexFromHit(s, c, 4);
  }

  /** `ControllerXController` names no controller: its first `Controller` is not at the end. */
  lemma ControllerNameEarlierSuffix(cfg: AppConfig.Config)
    requires cfg.controller.prefix == "" && cfg.controller.suffix == "Controller"
    ensures ControllerName(cfg, "ControllerXController") == None
  {
    EarlierSuffixIndex();
    SuffixFoundFirst("", "ControllerX", cfg.controller.suffix);
    EarlierSuffixSpelling();
  }

  lemma EarlierSuffixIndex()
    ensures Index("ControllerX" + "Controller", "Controller") == 0
  {
    var c := "Controller";
    var t := "ControllerX" + c;
    assert t[0..10] == c;
    IndexFromHit(t, c, 0);
  }

  lemma EarlierSuffixSpelling()
    ensures "" + "ControllerX" + "Controller" == "ControllerXController"
  {
  }

  /**
   * The default action conventions: `ActionIndex` names `Index`; a lower-case
   * method is not an action; the stripped name may be empty or lower-case.
   */
  lemma ActionNameExamples(cfg: AppConfig.Config)
    requires cfg.action.prefix == "Action" && cfg.action.suffix == ""
    ensures ActionName(cfg, "ActionIndex") == Some("Index")
    ensures ActionName(cfg, "Action") == Some("")
    ensures ActionName(cfg, "Actionindex") == Some("index")
    ensures ActionName(cfg, "actionIndex") == None
    ensures ActionName(cfg, "Index") == None
  {
    assert "ActionIndex" == "Action" + "Index" + "";
    StripComposed("Action", "Index", "");
    assert "Action" == "Action" + "" + "";
    StripComposed("Action", "", "");
    assert "Actionindex" == "Action" + "index" + "";
    StripComposed("Action", "index", "");
    assert !HasPrefix("Index", "Action");
  }

  // ---------------------------------------------------------------------
  // Parameter conversion

  /** An action argument. */
  datatype Arg = StrArg(s: string) | IntArg(i: int)

  /** One matched value as an argument of the declared kind. */
  function CoerceOne(kind: string, p: string): (r: Outcome<Arg>)
    ensures kind == "string" ==> r == Returned(StrArg(p))
    ensures kind != "string" ==> (r.Panicked? <==> Atoi(p).Err?)
    ensures kind != "string" && Atoi(p).Ok? ==> r == Returned(IntArg(Atoi(p).value))
  {
    if kind == "string" then Returned(StrArg(p))
    else match Atoi(p)
      case Err(_) => Panicked("Invalid Params")
      case Ok(v) => Returned(IntArg(v))
  }

  /** The argument for a parameter no value was matched for. */
  function DefaultArg(kind: string): (a: Arg)
    ensures kind == "string" ==> a == StrArg("")
    ensures kind != "string" ==> a == IntArg(1)
  {
    if kind == "string" then StrArg("") else IntArg(1)
  }

  /** The matched values converted in order; the first failing one panics. */
  function CoerceMatched(kinds: seq<string>, ps: seq<string>): Outcome<seq<Arg>>
    requires |ps| <= |kinds|
    decreases |ps|
  {
    if ps == [] then Returned([])
    else
      var n := |ps| - 1;
      match CoerceMatched(kinds, ps[..n])
      case Panicked(reason) => Panicked(reason)
      case Returned(args) =>
        match CoerceOne(kinds[n], ps[n])
        case Panicked(reason) => Panicked(reason)
        case Returned(a) => Returned(args + [a])
  }

  /** One argument per value, each its value converted; a panic exactly when some value fails. */
  lemma {:induction false} CoerceMatchedMeaning(kinds: seq<string>, ps: seq<string>)
    requires |ps| <= |kinds|
    ensures var r := CoerceMatched(kinds, ps);
            (r.Returned? ==> |r.value| == |ps| && forall i :: 0 <= i < |ps| ==> CoerceOne(kinds[i], ps[i]) == Returned(r.value[i]))
            && (r.Panicked? <==> exists i :: 0 <= i < |ps| && CoerceOne(kinds[i], ps[i]).Panicked?)
    decreases |ps|
  {
    if ps != [] {
      var n := |ps| - 1;
      CoerceMatchedMeaning(kinds, ps[..n]);
      assert forall i :: 0 <= i < n ==> ps[..n][i] == ps[i];
    }
  }

  /** The defaults for the parameters `kinds` describes. */
  function Defaults(kinds: seq<string>): (r: seq<Arg>)
    ensures |r| == |kinds| && forall i :: 0 <= i < |kinds| ==> r[i] == DefaultArg(kinds[i])
  {
    seq(|kinds|, i requires 0 <= i < |kinds| => DefaultArg(kinds[i]))
  }

  /**
   * The arguments of an action with parameter kinds `kinds` for the matched
   * values `ps`: none when the action has no parameters; otherwise the
   * matched values converted and the remaining parameters defaulted; more
   * values than parameters run off the end of `kinds`.
   */
  function Coerce(kinds: seq<string>, ps: seq<string>): Outcome<seq<Arg>>
  {
    if |kinds| == 0 then Returned([])
    else if |ps| > |kinds| then
      match CoerceMatched(kinds, ps[..|kinds|])
      case Panicked(reason) => Panicked(reason)
      case Returned(_) => Panicked("runtime error: index out of range")
    else
      match CoerceMatched(kinds, ps)
      case Panicked(reason) => Panicked(reason)
      case Returned(args) => Returned(args + Defaults(kinds[|ps|..]))
  }

  /** For the values a route can match, one argument per parameter, each as declared. */
  lemma CoerceArguments(kinds: seq<string>, ps: seq<string>)
    requires 0 < |kinds| && |ps| <= |kinds|
    ensures Coerce(kinds, ps).Panicked? <==> exists i :: 0 <= i < |ps| && kinds[i] != "string" && Atoi(ps[i]).Err?
    ensures Coerce(kinds, ps).Returned? ==>
              var args := Coerce(kinds, ps).value;
              |args| == |kinds|
              && (forall i :: 0 <= i < |ps| && kinds[i] == "string" ==> args[i] == StrArg(ps[i]))
              && (forall i :: 0 <= i < |ps| && kinds[i] != "string" ==> args[i] == IntArg(Atoi(ps[i]).value))
              && (forall i :: |ps| <= i < |kinds| ==> args[i] == DefaultArg(kinds[i]))
  {
    var m := CoerceMatched(kinds, ps);
    CoerceMatchedMeaning(kinds, ps);
    if m.Panicked? {
      var i :| 0 <= i < |ps| && CoerceOne(kinds[i], ps[i]).Panicked?;
      assert kinds[i] != "string" && Atoi(ps[i]).Err?;
    } else {
      forall i | 0 <= i < |ps| && kinds[i] != "string"
        ensures Atoi(ps[i]).Ok?
      {
        assert CoerceOne(kinds[i], ps[i]) == Returned(m.value[i]);
      }
      var args := m.value + Defaults(kinds[|ps|..]);
      forall i | |ps| <= i < |kinds|
        ensures args[i] == DefaultArg(kinds[i])
      {
        assert args[i] == Defaults(kinds[|ps|..])[i - |ps|];
      }
    }
  }

  /** An action without parameters gets no arguments, whatever was matched. */
  lemma CoerceNoParameters(ps: seq<string>)
    ensures Coerce([], ps) == Returned([])
  {
  }

  /** A value that fails to convert makes every longer run of matched values panic with the same reason. */
  lemma CoerceFailureStays(kinds: seq<string>, ps: seq<string>, i: nat)
    requires i < |ps| && i < |kinds| && kinds[i] != "string" && Atoi(ps[i]).Err?
    requires CoerceMatched(kinds, ps[..i]).Returned?
    ensures Coerce(kinds, ps) == Panicked("Invalid Params")
  {
    var k := if |ps| > |kinds| then |kinds| else |ps|;
    assert ps[..k][..i] == ps[..i];
    CoerceMatchedFailure(kinds, ps[..k], i);
    if |ps| <= |kinds| {
      assert ps[..k] == ps;
    }
  }

  /** The first matched value that fails to convert determines the panic. */
  lemma {:induction false} CoerceMatchedFailure(kinds: seq<string>, ps: seq<string>, i: nat)
    requires i < |ps| <= |kinds| && kinds[i] != "string" && Atoi(ps[i]).Err?
    requires CoerceMatched(kinds, ps[..i]).Returned?
    ensures CoerceMatched(kinds, ps) == Panicked("Invalid Params")
    decreases |ps|
  {
    var n := |ps| - 1;
    if n == i {
      assert ps[..n] == ps[..i];
      LastFails(kinds, ps);
    } else {
      assert ps[..n][..i] == ps[..i];
      CoerceMatchedFailure(kinds, ps[..n], i);
      PanicPropagates(kinds, ps);
    }
  }

  /** A panic among the earlier values is the result. */
  lemma PanicPropagates(kinds: seq<string>, ps: seq<string>)
    requires 0 < |ps| <= |kinds| && CoerceMatched(kinds, ps[..|ps| - 1]).Panicked?
    ensures CoerceMatched(kinds, ps) == CoerceMatched(kinds, ps[..|ps| - 1])
  {
  }

  /** A last value that fails to convert, after earlier ones that all converted, panics. */
  lemma LastFails(kinds: seq<string>, ps: seq<string>)
    requires 0 < |ps| <= |kinds| && CoerceMatched(kinds, ps[..|ps| - 1]).Returned?
    requires kinds[|ps| - 1] != "string" && Atoi(ps[|ps| - 1]).Err?
    ensures CoerceMatched(kinds, ps) == Panicked("Invalid Params")
  {
  }

  /** The conversion loops of the handler. */
  method CoerceParams(kinds: seq<string>, ps: seq<string>) returns (r: Outcome<seq<Arg>>)
    ensures r == Coerce(kinds, ps)
  {
    var params: seq<Arg> := [];
    if |kinds| > 0 {
      var i := 0;
      while i < |ps|
        invariant 0 <= i <= |ps| && i <= |kinds|
        invariant CoerceMatched(kinds, ps[..i]) == Returned(params)
      {
        if i >= |kinds| {
          assert ps[..|kinds|] == ps[..i];
          return Panicked("runtime error: index out of range");
        }
        assert ps[..i + 1][..i] == ps[..i];
        if kinds[i] == "string" {
          params := params + [StrArg(ps[i])];
        } else {
          var value := Atoi(ps[i]);
          if value.Err? {
            CoerceFailureStays(kinds, ps, i);
            return Panicked("Invalid Params");
          }
          params := params + [IntArg(value.value)];
        }
        i := i + 1;
      }
      assert ps[..i] == ps;
      ghost var matched := params;
      while i < |kinds|
        invariant |ps| <= i <= |kinds|
        invariant params == matched + Defaults(kinds[|ps|..i])
      {
        assert kinds[|ps|..i + 1] == kinds[|ps|..i] + [kinds[i]];
        if kinds[i] == "string" {
          params := params + [StrArg("")];
        } else {
          params := params + [IntArg(1)];
        }
        i := i + 1;
      }
      assert kinds[|ps|..i] == kinds[|ps|..];
    }
    r := Returned(params);
  }

  // ---------------------------------------------------------------------
  // The request handler

  /** What a controller's `BeforeAction` returns. */
  datatype BeforeResult =
    | Inherited          // the embedded `WebController.BeforeAction`
    | NoResult           // a method with no results
    | BoolResult(b: bool)
    | OtherResult        // a first result that is not a bool

  /** A call an action makes on its controller. */
  datatype Step =
    | RenderView(viewName: string, output: string)
    | RenderPartialView(viewName: string, output: string)
    | Json(v: Value)
    | Jsonp(v: Value, callback: string)
    | Xml(v: Value, xmlHeader: string)
    | Text(text: string)
    | Redirect(url: string)
    | NotFound(data: string)
    | BadRequest(data: string)
    | Forbidden(data: string)
    | InternalServerError(data: string)
    | SetHeader(key: string, value: string)

  /** A controller type's behaviour: its `BeforeAction` result and what its action does with its arguments. */
  datatype Behaviour = Behaviour(beforeAction: BeforeResult, action: seq<Arg> -> seq<Step>)

  /** The action runs unless the first result of `BeforeAction` is the bool `false`. */
  predicate CanInvoke(b: BeforeResult)
  {
    b != BoolResult(false)
  }

  /** The handler's calls on the controller, in order. */
  datatype Event = InitCalled | BeforeActionCalled | ActionCalled(name: string, args: seq<Arg>) | ResponseClientCalled

  /** A call that sends the response: a redirect, an error answer, or a value that failed to encode. */
  predicate Sends(step: Step)
  {
    match step
    case Redirect(_) => true
    case NotFound(_) => true
    case BadRequest(_) => true
    case Forbidden(_) => true
    case InternalServerError(_) => true
    case Json(v) => v.Encoded? && v.encoding.Err?
    case Jsonp(v, _) => v.Encoded? && v.encoding.Err?
    case Xml(v, _) => v.Encoded? && v.encoding.Err?
    case _ => false
  }

  /** The status a sending call answers with. */
  function SentStatus(step: Step): (code: int)
    requires Sends(step)
    ensures code in {302, 400, 403, 404, 500}
  {
    match step
    case Redirect(_) => 302
    case NotFound(_) => 404
    case BadRequest(_) => 400
    case Forbidden(_) => 403
    case _ => 500
  }

  /**
   * One call of an action on the controller. A sending call sends the
   * response with its status; any other call leaves the writes, the status
   * and the sent flag alone, and a render sets the body to what it renders;
   * once the response is sent, nothing more is written.
   */
  method RunStep(c: WebController, cfg: AppConfig.Config, step: Step)
    requires c.Valid()
    modifies c.response
    ensures c.Valid()
    ensures old(c.response.isSent) ==> c.response.writes == old(c.response.writes)
    ensures Sends(step) ==> c.response.isSent && c.response.status == SentStatus(step)
    ensures !Sends(step) ==>
              c.response.writes == old(c.response.writes) && c.response.status == old(c.response.status)
              && c.response.isSent == old(c.response.isSent)
    ensures step.RenderView? || step.RenderPartialView? ==> c.response.body == step.output
    ensures step.Text? ==> c.response.body == step.text
    ensures (step.Json? || step.Xml? || step.Jsonp?) && step.v.Text? ==> c.response.body == step.v.s
    ensures step.Json? && step.v.Encoded? && step.v.encoding.Ok? ==>
              c.response.body == old(c.response.body) + step.v.encoding.value
    ensures step.Redirect? ==> c.response.header == old(c.response.header)["Location" := step.url]
    ensures step.SetHeader? ==>
              c.response.header == old(c.response.header)[RequestContext.CanonicalKey(step.key) := step.value]
  {
    match step {
      case RenderView(n, out) => var _, _ := c.RenderFile(cfg, n, out);
      case RenderPartialView(n, out) => var _ := c.RenderPartialFile(cfg, n, out);
      case Json(v) => c.RenderJson(v);
      case Jsonp(v, callback) => c.RenderJsonp(v, callback);
      case Xml(v, h) => c.RenderXml(v, h);
      case Text(t) => c.RenderText(t);
      case Redirect(url) => c.response.Redirect(url);
      case NotFound(d) => c.response.NotFound(d);
      case BadRequest(d) => c.response.BadRequest(d);
      case Forbidden(d) => c.response.Forbidden(d);
      case InternalServerError(d) => c.response.InternalServerError(d);
      case SetHeader(k, v) => c.response.SetHeader(k, v);
    }
  }

  /**
   * An action's calls, in order: the response is sent once some call sends
   * it, and stays unsent, with nothing written, when none does.
   */
  method RunSteps(c: WebController, cfg: AppConfig.Config, steps: seq<Step>)
    requires c.Valid()
    modifies c.response
    ensures c.Valid()
    ensures old(c.response.isSent) ==> c.response.writes == old(c.response.writes)
    ensures (exists i :: 0 <= i < |steps| && Sends(steps[i])) ==> c.response.isSent
    ensures (forall i :: 0 <= i < |steps| ==> !Sends(steps[i])) ==>
              c.response.writes == old(c.response.writes) && c.response.isSent == old(c.response.isSent)
  {
    var i := 0;
    while i < |steps|
      invariant 0 <= i <= |steps|
      invariant c.Valid()
      invariant old(c.response.isSent) ==> c.response.writes == old(c.response.writes)
      invariant (exists j :: 0 <= j < i && Sends(steps[j])) ==> c.response.isSent
      invariant (forall j :: 0 <= j < i ==> !Sends(steps[j])) ==>
                  c.response.writes == old(c.response.writes) && c.response.isSent == old(c.response.isSent)
    {
      RunStep(c, cfg, steps[i]);
      i := i + 1;
    }
  }

  /**
   * The handler `generateRouteHandle` binds to a route, for one request with
   * matched values `ps`: it returns the calls made on the new controller,
   * what reached the client and the panic that ended it, if any.
   *
   * `Init` comes first and `ResponseClient` last; the action runs iff
   * `BeforeAction` did not return `false`, with its converted arguments; the
   * client gets one response, and a response sent by `Init` (a session
   * error, a failed CSRF check) is the one it gets.
   */
  method Serve(info: Router.ControllerInfo, req: Request, ps: seq<string>, cfg: AppConfig.Config,
               store: SessionStore, rand: Randomness, user: Behaviour)
    returns (trace: seq<Event>, writes: seq<Write>, panic: Option<string>)
    requires MaskFits(cfg, rand)
    ensures WrittenAtMostOnce(writes)
    ensures |trace| >= 1 && trace[0] == InitCalled
    ensures panic.Some? <==>
              CsrfCheck(req, cfg, store, rand).Panicked?
              || (CanInvoke(user.beforeAction) && Coerce(info.params, ps).Panicked?)
    ensures panic.Some? ==> writes == InitWrites(req, cfg, store, rand) && ResponseClientCalled !in trace
    ensures panic.None? ==>
              writes != [] && |trace| >= 3 && trace[1] == BeforeActionCalled && trace[|trace| - 1] == ResponseClientCalled
              && (|trace| == 4 <==> CanInvoke(user.beforeAction))
              && (|trace| == 4 ==> trace[2] == ActionCalled(info.actionFullName, Coerce(info.params, ps).value))
    ensures InitWrites(req, cfg, store, rand) != [] ==> writes == InitWrites(req, cfg, store, rand)
  {
    var c := new WebController();
    trace := [InitCalled];
    panic := c.Init(info, req, cfg, store, rand);
    if panic.Some? {
      writes := c.response.writes;
      return;
    }
    trace := trace + [BeforeActionCalled];
    var canInvokeAction := true;
    match user.beforeAction {
      case Inherited => canInvokeAction := c.BeforeAction();
      case BoolResult(b) => canInvokeAction := b;
      case NoResult =>
      case OtherResult =>
    }
    if canInvokeAction {
      var args := CoerceParams(info.params, ps);
      if args.Panicked? {
        writes := c.response.writes;
        return trace, writes, Some(args.reason);
      }
      trace := trace + [ActionCalled(info.actionFullName, args.value)];
      RunSteps(c, cfg, user.action(args.value));
    }
    trace := trace + [ResponseClientCalled];
    c.ResponseClient(cfg, store.saveError);
    writes := c.response.writes;
  }

  /** A request failing the CSRF check gets the 400 answer and nothing else, whatever the action does. */
  method RejectedRequest(info: Router.ControllerInfo, req: Request, ps: seq<string>, cfg: AppConfig.Config,
                         store: SessionStore, rand: Randomness, user: Behaviour)
    returns (writes: seq<Write>)
    requires MaskFits(cfg, rand) && cfg.session.enable && store.getError.None?
    requires CsrfCheck(req, cfg, store, rand) == Returned(false)
    ensures writes == [WriteHeader(400, map[]), WriteBody("Bad Request: " + CsrfFailureMessage)]
  {
    var _, w, _ := Serve(info, req, ps, cfg, store, rand, user);
    writes := w;
  }
}
