/**
 * The web controller of controller.go: `Init` sets up the context, the
 * response and the session, derives the CSRF tokens and checks the
 * request's token; the render methods fill the response body; and
 * `ResponseClient` saves the session and sends the response.
 *
 * The session store, the random source, the template engine and the JSON
 * and XML encoders are outside the model: what they answer is passed in.
 */
module Controller {
  import opened GoLib
  import opened Response
  import opened RequestContext
  import Csrf
  import Router
  import AppConfig

  /** A session: its values; the true CSRF token is kept under `_csrf`. */
  class Session {
    var values: map<string, seq<byte>>

    constructor (v: map<string, seq<byte>>)
      ensures values == v
    {
      values := v;
    }
  }

  /**
   * What the session store answers for one request: the values saved in the
   * request's session, the error of loading it and the error of saving it.
   */
  datatype SessionStore = SessionStore(
    stored: map<string, seq<byte>>,
    getError: Option<string>,
    saveError: Option<string>)

  /**
   * What the random source yields for one request: the 32 bytes of a new
   * true token and the CSRF mask (empty when reading the source failed).
   */
  datatype Randomness = Randomness(freshToken: seq<byte>, mask: seq<byte>)

  /** The random source yields a mask of the requested length, or none. */
  predicate MaskFits(cfg: AppConfig.Config, rand: Randomness)
  {
    cfg.csrf.maskLength >= 0 ==> |rand.mask| == cfg.csrf.maskLength || rand.mask == []
  }

  /** The session values once the true token is in place. */
  function WithTrueToken(stored: map<string, seq<byte>>, freshToken: seq<byte>): (r: map<string, seq<byte>>)
    ensures "_csrf" in r && r.Keys == stored.Keys + {"_csrf"}
    ensures "_csrf" in stored ==> r == stored
    ensures forall k :: k in stored && k != "_csrf" ==> r[k] == stored[k]
  {
    if "_csrf" in stored then stored else stored["_csrf" := freshToken]
  }

  /** The request's true token: the session's, or the fresh one when the session has none. */
  function TrueToken(stored: map<string, seq<byte>>, freshToken: seq<byte>): seq<byte>
  {
    WithTrueToken(stored, freshToken)["_csrf"]
  }

  /** Once stored, the true token is what any later request with that session gets. */
  lemma TrueTokenStable(stored: map<string, seq<byte>>, fresh1: seq<byte>, fresh2: seq<byte>)
    ensures TrueToken(WithTrueToken(stored, fresh1), fresh2) == TrueToken(stored, fresh1)
    ensures "_csrf" !in stored ==> TrueToken(stored, fresh1) == fresh1
  {
  }

  /**
   * The context `Init` leaves for a request: without a loaded session both
   * tokens stay empty; otherwise the true token and its masked form, unless
   * masking it panics.
   */
  function InitialContext(req: Request, cfg: AppConfig.Config, store: SessionStore, rand: Randomness): (r: Outcome<Context>)
    requires MaskFits(cfg, rand)
    ensures r.Returned? ==> r.value.request == req
    ensures !cfg.session.enable || store.getError.Some? ==> r == Returned(NewContext(req))
    ensures cfg.session.enable && store.getError.None? && r.Returned? ==>
              r.value.trueCsrfToken == TrueToken(store.stored, rand.freshToken)
              && Csrf.Generate(cfg.csrf.maskLength, r.value.trueCsrfToken, rand.mask) == Returned(r.value.csrfToken)
    ensures r.Panicked? <==>
              cfg.session.enable && store.getError.None?
              && Csrf.Generate(cfg.csrf.maskLength, TrueToken(store.stored, rand.freshToken), rand.mask).Panicked?
  {
    if !cfg.session.enable || store.getError.Some? then Returned(NewContext(req))
    else
      var t := TrueToken(store.stored, rand.freshToken);
      match Csrf.Generate(cfg.csrf.maskLength, t, rand.mask)
      case Panicked(reason) => Panicked(reason)
      case Returned(token) => Returned(Context(req, token, t))
  }

  /** The outcome of the CSRF check `Init` ends with (`true` when validation is off). */
  function CsrfCheck(req: Request, cfg: AppConfig.Config, store: SessionStore, rand: Randomness): Outcome<bool>
    requires MaskFits(cfg, rand)
  {
    match InitialContext(req, cfg, store, rand)
    case Panicked(reason) => Panicked(reason)
    case Returned(c) => if cfg.csrf.enableValidation then ValidateCsrfToken(c, cfg.csrf.maskLength) else Returned(true)
  }

  const CsrfFailureMessage: string := "Unable to verify your data submission."

  /** What reaches the client during `Init`: the session error, else the CSRF rejection, else nothing. */
  function InitWrites(req: Request, cfg: AppConfig.Config, store: SessionStore, rand: Randomness): (w: seq<Write>)
    requires MaskFits(cfg, rand)
    ensures WrittenAtMostOnce(w)
  {
    if cfg.session.enable && store.getError.Some? then
      [WriteHeader(500, map[]), WriteBody("Internal Server Error: " + store.getError.value)]
    else if CsrfCheck(req, cfg, store, rand) == Returned(false) then
      [WriteHeader(400, map[]), WriteBody("Bad Request: " + CsrfFailureMessage)]
    else []
  }

  /** A loaded session: a `GET` passes, and a non-exempt request without a token is answered with 400. */
  lemma CsrfOutcomes(req: Request, cfg: AppConfig.Config, store: SessionStore, rand: Randomness)
    requires MaskFits(cfg, rand) && cfg.session.enable && cfg.csrf.enableValidation && store.getError.None?
    requires InitialContext(req, cfg, store, rand).Returned?
    ensures req.verb == "GET" ==> CsrfCheck(req, cfg, store, rand) == Returned(true) && InitWrites(req, cfg, store, rand) == []
    ensures TrueToken(store.stored, rand.freshToken) == [] && !EqualFold("GET", req.verb) && !EqualFold("HEAD", req.verb) ==>
              InitWrites(req, cfg, store, rand) == [WriteHeader(400, map[]), WriteBody("Bad Request: " + CsrfFailureMessage)]
  {
    assert EqualFold("GET", "GET");
  }

  /** What a Render method is given: a Go string, or another value with what the encoder makes of it. */
  datatype Value = Text(s: string) | Encoded(encoding: Result<string>)

  /** The view file name: the pretty action name or the given name, with the view suffix. */
  function ViewName(action: string, name: string, viewSuffix: string): (r: string)
    ensures |name| > 0 ==> r == name + viewSuffix
    ensures |name| == 0 ==> r == Router.PrettyRoute(action) + viewSuffix
  {
    (if |name| == 0 then Router.PrettyRoute(action) else name) + viewSuffix
  }

  lemma ViewNameExample()
    ensures ViewName("CommentAdd", "", ".html") == "comment-add.html"
    ensures ViewName("CommentAdd", "list", ".html") == "list.html"
  {
    Router.PrettyRouteExample();
  }

  /** The XML declaration `xml.Header`. */
  const XmlHeader: string := "<?xml version=\"1.0\" encoding=\"UTF-8\"?>\n"

  /** `WebController` (the per-request logger is not modelled). */
  class WebController {
    var name: string
    var fullName: string
    var pkgPath: string
    var action: string
    var viewPath: string
    var layout: string
    var context: Context
    var response: WebResponse?
    var session: Session?

    ghost predicate Valid()
      reads this, response
    {
      response != null && response.Valid()
    }

    /** A zero controller, as `reflect.New` makes it. */
    constructor ()
      ensures name == "" && fullName == "" && pkgPath == "" && action == "" && viewPath == "" && layout == ""
      ensures response == null && session == null
    {
      name, fullName, pkgPath, action, viewPath, layout := "", "", "", "", "", "";
      context := NewContext(Request("", map[], map[]));
      response := null;
      session := null;
    }

    /**
     * `Init`: copies the route's controller data (not its full name), makes
     * the context and a fresh response, loads the session and checks the
     * CSRF token. A panic while masking or checking the token is returned.
     */
    method Init(info: Router.ControllerInfo, req: Request, cfg: AppConfig.Config, store: SessionStore, rand: Randomness)
      returns (panic: Option<string>)
      requires MaskFits(cfg, rand)
      modifies this
      ensures Valid() && fresh(response)
      ensures name == info.name && pkgPath == info.pkgPath && viewPath == info.viewPath
      ensures action == info.actionName && layout == info.layout && fullName == old(fullName)
      ensures panic.Some? <==> CsrfCheck(req, cfg, store, rand).Panicked?
      ensures panic.None? ==> context == InitialContext(req, cfg, store, rand).value
      ensures cfg.session.enable ==> session != null && fresh(session)
      ensures cfg.session.enable && store.getError.Some? ==> session.values == store.stored
      ensures cfg.session.enable && store.getError.None? ==> session.values == WithTrueToken(store.stored, rand.freshToken)
      ensures !cfg.session.enable ==> session == old(session)
      ensures response.writes == InitWrites(req, cfg, store, rand)
      ensures response.writes == [] ==> response.status == 200 && response.body == "" && response.header == map[]
    {
      name := info.name;
      pkgPath := info.pkgPath;
      viewPath := info.viewPath;
      action := info.actionName;
      layout := info.layout;
      context := NewContext(req);
      response := new WebResponse();
      panic := getSession(cfg, store, rand);
      if panic.Some? {
        return;
      }
      panic := validateCsrfToken(cfg);
    }

    /**
     * `getSession`: when sessions are on, loads the session (a load error
     * is answered with 500) and sets the true token and its masked form.
     */
    method getSession(cfg: AppConfig.Config, store: SessionStore, rand: Randomness) returns (panic: Option<string>)
      requires Valid() && MaskFits(cfg, rand)
      requires context == NewContext(context.request)
      modifies this, response
      ensures Valid() && response == old(response) && context.request == old(context.request)
      ensures name == old(name) && fullName == old(fullName) && pkgPath == old(pkgPath)
      ensures action == old(action) && viewPath == old(viewPath) && layout == old(layout)
      ensures panic.Some? <==> InitialContext(context.request, cfg, store, rand).Panicked?
      ensures panic.None? ==> context == InitialContext(context.request, cfg, store, rand).value
      ensures cfg.session.enable ==> session != null && fresh(session)
      ensures cfg.session.enable && store.getError.Some? ==> session.values == store.stored
      ensures cfg.session.enable && store.getError.None? ==> session.values == WithTrueToken(store.stored, rand.freshToken)
      ensures !cfg.session.enable ==> session == old(session)
      ensures cfg.session.enable && store.getError.Some? ==>
                response.isSent && response.status == 500 && response.header == old(response.header)
                && (old(response.isSent) ==> response.writes == old(response.writes))
                && (!old(response.isSent) ==>
                      response.writes == [WriteHeader(500, old(response.header)),
                                          WriteBody("Internal Server Error: " + store.getError.value)])
      ensures !(cfg.session.enable && store.getError.Some?) ==>
                response.isSent == old(response.isSent) && response.writes == old(response.writes)
                && response.status == old(response.status) && response.body == old(response.body)
                && response.header == old(response.header)
    {
      panic := None;
      if cfg.session.enable {
        session := new Session(store.stored);
        if store.getError.Some? {
          response.InternalServerError(store.getError.value);
          return;
        }
        var t := getTrueCsrfToken(rand.freshToken);
        context := context.(trueCsrfToken := t);
        var masked := Csrf.Generate(cfg.csrf.maskLength, t, rand.mask);
        if masked.Panicked? {
          return Some(masked.reason);
        }
        context := context.(csrfToken := masked.value);
      }
    }

    /** `getTrueCsrfToken`: the session's `_csrf` value, stored first from the fresh bytes when missing. */
    method getTrueCsrfToken(freshToken: seq<byte>) returns (token: seq<byte>)
      requires session != null
      modifies session
      ensures session.values == WithTrueToken(old(session.values), freshToken)
      ensures token == TrueToken(old(session.values), freshToken)
      ensures "_csrf" in old(session.values) ==> token == old(session.values["_csrf"])
    {
      if "_csrf" in session.values {
        token := session.values["_csrf"];
      } else {
        token := freshToken;
        session.values := session.values["_csrf" := token];
      }
    }

    /** `validateCsrfToken`: with validation on, a token that does not check is answered with 400. */
    method validateCsrfToken(cfg: AppConfig.Config) returns (panic: Option<string>)
      requires Valid()
      modifies response
      ensures Valid()
      ensures var check := if cfg.csrf.enableValidation then ValidateCsrfToken(context, cfg.csrf.maskLength) else Returned(true);
              (panic.Some? <==> check.Panicked?)
              && (check == Returned(false) ==>
                    response.isSent && response.status == 400 && response.header == old(response.header)
                    && (old(response.isSent) ==> response.writes == old(response.writes))
                    && (!old(response.isSent) ==>
                          response.writes == [WriteHeader(400, old(response.header)), WriteBody("Bad Request: " + CsrfFailureMessage)]))
              && (check != Returned(false) ==>
                    response.isSent == old(response.isSent) && response.writes == old(response.writes)
                    && response.status == old(response.status) && response.body == old(response.body)
                    && response.header == old(response.header))
    {
      panic := None;
      if cfg.csrf.enableValidation {
        var check := ValidateCsrfToken(context, cfg.csrf.maskLength);
        if check.Panicked? {
          return Some(check.reason);
        }
        if !check.value {
          response.BadRequest(CsrfFailureMessage);
        }
      }
    }

    /** `BeforeAction`: the default lets the action run. */
    method BeforeAction() returns (proceed: bool)
      ensures proceed
    {
      proceed := true;
    }

    /**
     * `ResponseClient`: saves the session when sessions are on, a save
     * error becoming a 500, and sends the response.
     */
    method ResponseClient(cfg: AppConfig.Config, saveError: Option<string>)
      requires Valid()
      modifies response
      ensures Valid() && response.isSent
      ensures old(response.isSent) ==> response.writes == old(response.writes)
      ensures !old(response.isSent) && cfg.session.enable && saveError.Some? ==>
                response.writes == [WriteHeader(500, old(response.header)),
                                    WriteBody("Internal Server Error: Error saving session: " + saveError.value)]
      ensures !old(response.isSent) && !(cfg.session.enable && saveError.Some?) ==>
                response.writes == [WriteHeader(old(response.status), old(response.header)), WriteBody(old(response.body))]
    {
      if cfg.session.enable && saveError.Some? {
        response.InternalServerError("Error saving session: " + saveError.value);
        assert "Internal Server Error: " + ("Error saving session: " + saveError.value)
            == "Internal Server Error: Error saving session: " + saveError.value;
      }
      response.Send();
    }

    /**
     * `RenderFile`: the HTML header, the view file under the controller's view
     * path, the layout file when the controller has a layout, and the body
     * the template engine renders from them (`output`).
     */
    method RenderFile(cfg: AppConfig.Config, viewName: string, output: string)
      returns (file: string, layoutFile: Option<string>)
      requires Valid()
      modifies response
      ensures Valid()
      ensures file == PathJoin([viewPath, ViewName(action, viewName, cfg.view.suffix)])
      ensures layoutFile.Some? <==> |layout| > 0
      ensures layoutFile.Some? ==> layoutFile.value == PathJoin([PathDir(viewPath), cfg.view.layoutDir, layout])
      ensures response.body == output
      ensures response.header == old(response.header)["Content-Type" := "text/html; charset=utf-8"]
      ensures response.isSent == old(response.isSent) && response.status == old(response.status)
      ensures response.writes == old(response.writes)
    {
      response.SetHtmlHeader();
      var n := if |viewName| == 0 then Router.PrettyRoute(action) + cfg.view.suffix else viewName + cfg.view.suffix;
      file := PathJoin([viewPath, n]);
      if |layout| > 0 {
        layoutFile := Some(PathJoin([PathDir(viewPath), cfg.view.layoutDir, layout]));
      } else {
        layoutFile := None;
      }
      response.body := output;
    }

    /** `RenderPartialFile`: as `RenderFile` without a layout and without touching the header. */
    method RenderPartialFile(cfg: AppConfig.Config, viewName: string, output: string) returns (file: string)
      requires Valid()
      modifies response
      ensures Valid()
      ensures file == PathJoin([viewPath, ViewName(action, viewName, cfg.view.suffix)])
      ensures response.body == output && response.header == old(response.header)
      ensures response.isSent == old(response.isSent) && response.status == old(response.status)
      ensures response.writes == old(response.writes)
    {
      var n := if |viewName| == 0 then Router.PrettyRoute(action) + cfg.view.suffix else viewName + cfg.view.suffix;
      file := PathJoin([viewPath, n]);
      response.body := output;
    }

    /** `RenderJson`: a string is the body; an encoded value is appended; an encoding error is a 500. */
    method RenderJson(v: Value)
      requires Valid()
      modifies response
      ensures Valid()
      ensures old(response.isSent) ==> response.writes == old(response.writes)
      ensures v.Text? ==> response.body == v.s
      ensures v.Encoded? && v.encoding.Ok? ==> response.body == old(response.body) + v.encoding.value
      ensures v.Encoded? && v.encoding.Err? ==> response.status == 500 && response.isSent
      ensures v.Encoded? && v.encoding.Err? && !old(response.isSent) ==>
                response.writes == [WriteHeader(500, response.header),
                                    WriteBody("Internal Server Error: " + v.encoding.msg)]
                && response.body == ""
      ensures v.Encoded? && v.encoding.Err? && old(response.isSent) ==>
                response.body == "Internal Server Error: " + v.encoding.msg
      ensures !(v.Encoded? && v.encoding.Err?) ==>
                response.writes == old(response.writes) && response.status == old(response.status)
                && response.isSent == old(response.isSent)
      ensures response.header == old(response.header)["Content-Type" := "application/json; charset=utf-8"]
    {
      response.SetJsonHeader();
      match v {
        case Text(s) =>
          response.body := s;
        case Encoded(Err(e)) =>
          response.InternalServerError(e);
        case Encoded(Ok(json)) =>
          response.body := response.body + json;
      }
    }

    /** `RenderJsonp`: as `RenderJson`, the encoded value appended wrapped in a call of `callback`. */
    method RenderJsonp(v: Value, callback: string)
      requires Valid()
      modifies response
      ensures Valid()
      ensures old(response.isSent) ==> response.writes == old(response.writes)
      ensures v.Text? ==> response.body == v.s
      ensures v.Encoded? && v.encoding.Ok? ==>
                response.body == old(response.body) + callback + "(" + v.encoding.value + ")"
      ensures v.Encoded? && v.encoding.Err? ==> response.status == 500 && response.isSent
      ensures v.Encoded? && v.encoding.Err? && !old(response.isSent) ==>
                response.writes == [WriteHeader(500, response.header),
                                    WriteBody("Internal Server Error: " + v.encoding.msg)]
                && response.body == ""
      ensures v.Encoded? && v.encoding.Err? && old(response.isSent) ==>
                response.body == "Internal Server Error: " + v.encoding.msg
      ensures !(v.Encoded? && v.encoding.Err?) ==>
                response.writes == old(response.writes) && response.status == old(response.status)
                && response.isSent == old(response.isSent)
      ensures response.header == old(response.header)["Content-Type" := "application/javascript; charset=utf-8"]
    {
      response.SetJsonpHeader();
      match v {
        case Text(s) =>
          response.body := s;
        case Encoded(Err(e)) =>
          response.InternalServerError(e);
        case Encoded(Ok(json)) =>
          response.body := response.body + callback + "(" + json + ")";
      }
    }

    /** `RenderText`: the HTML header and the text as the body. */
    method RenderText(text: string)
      requires Valid()
      modifies response
      ensures Valid()
      ensures response.body == text
      ensures response.header == old(response.header)["Content-Type" := "text/html; charset=utf-8"]
      ensures response.writes == old(response.writes) && response.status == old(response.status)
      ensures response.isSent == old(response.isSent)
    {
      response.SetHtmlHeader();
      response.body := text;
    }

    /** `RenderXml`: a string is the body; an encoded value follows the given or the standard XML declaration. */
    method RenderXml(v: Value, xmlHeader: string)
      requires Valid()
      modifies response
      ensures Valid()
      ensures old(response.isSent) ==> response.writes == old(response.writes)
      ensures v.Text? ==> response.body == v.s
      ensures v.Encoded? && v.encoding.Ok? ==>
                response.body == (if |xmlHeader| == 0 then XmlHeader else xmlHeader) + v.encoding.value
      ensures v.Encoded? && v.encoding.Err? ==> response.status == 500 && response.isSent
      ensures v.Encoded? && v.encoding.Err? && !old(response.isSent) ==>
                response.writes == [WriteHeader(500, response.header),
                                    WriteBody("Internal Server Error: " + v.encoding.msg)]
                && response.body == ""
      ensures v.Encoded? && v.encoding.Err? && old(response.isSent) ==>
                response.body == "Internal Server Error: " + v.encoding.msg
      ensures !(v.Encoded? && v.encoding.Err?) ==>
                response.writes == old(response.writes) && response.status == old(response.status)
                && response.isSent == old(response.isSent)
      ensures response.header == old(response.header)["Content-Type" := "application/xml; charset=utf-8"]
    {
      response.SetXmlHeader();
      match v {
        case Text(s) =>
          response.body := s;
        case Encoded(Err(e)) =>
          response.InternalServerError(e);
        case Encoded(Ok(xml)) =>
          var h := if |xmlHeader| == 0 then XmlHeader else xmlHeader;
          response.body := h + xml;
      }
    }

    /** `GetLayout`: `"0"`, which asks for the application's layout. */
    method GetLayout() returns (l: string)
      ensures l == "0"
    {
      l := "0";
    }
  }
}
