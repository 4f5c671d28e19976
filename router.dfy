/**
 * Route records and the pretty-path transform of router.go.
 *
 * The httprouter table itself is a map from (HTTP method, pattern) to the
 * handle bound there; matching a request path against patterns is the
 * library's business and is not part of this model.
 */
module Router {
  import opened GoLib

  /** The options `NewRouter` passes to httprouter. */
  datatype RouterOptions = RouterOptions(
    redirectTrailingSlash: bool,
    redirectFixedPath: bool,
    handleMethodNotAllowed: bool,
    handleOptions: bool)

  /**
   * What a controller's routes know about it (`ControllerInfo` of
   * controller.go); the per-request logger is not modelled.
   */
  datatype ControllerInfo = ControllerInfo(
    pkgPath: string,
    name: string,
    fullName: string,
    viewPath: string,
    actionFullName: string,
    actionName: string,
    params: seq<string>,
    layout: string)

  /**
   * A route handle. A dispatch handle is the closure built by
   * `generateRouteHandle`, identified by the values it captures; the
   * greeting handle answers "Hello Cheetah." at `/`; a file handle serves
   * the files under a directory.
   */
  datatype Handle =
    | Dispatch(route: string, controllerType: string, info: ControllerInfo)
    | Greeting
    | Files(dir: string)

  /** A route: its pattern, the methods allowed on it, its controller, and its handle once bound. */
  datatype RouteInfo = RouteInfo(
    route: string,
    allowMethods: seq<string>,
    controllerType: string,
    controllerInfo: ControllerInfo,
    handle: Option<Handle>)

  // ---------------------------------------------------------------------
  // The pretty-path transform

  /** What one character after the first becomes: `-` and its lower case for `A`-`Z`, else itself. */
  function PrettyChar(c: char): (r: string)
    ensures IsUpper(c) ==> r == ['-', ToLower(c)]
    ensures !IsUpper(c) ==> r == [c]
  {
    if IsUpper(c) then ['-', ToLower(c)] else [c]
  }

  /** The transform of the characters after the first, character by character. */
  function PrettyTail(s: string): string
  {
    if s == "" then "" else PrettyTail(s[..|s| - 1]) + PrettyChar(s[|s| - 1])
  }

  /** The route segment `BuildPrettyRoute` produces for the identifier `s`. */
  function PrettyRoute(s: string): string
  {
    if s == "" then "" else [ToLower(s[0])] + PrettyTail(s[1..])
  }

  /** `BuildPrettyRoute`: the loop that builds the segment character by character. */
  method BuildPrettyRoute(route: string) returns (prettyRoute: string)
    ensures prettyRoute == PrettyRoute(route)
  {
    if |route| == 0 {
      return "";
    }
    prettyRoute := [ToLower(route[0])];
    var i := 1;
    while i < |route|
      invariant 1 <= i <= |route|
      invariant prettyRoute == [ToLower(route[0])] + PrettyTail(route[1..i])
    {
      var c := route[i];
      assert route[1..i + 1][..i - 1] == route[1..i];
      if 'A' <= c <= 'Z' {
        prettyRoute := prettyRoute + "-" + [(c as int + 32) as char];
      } else {
        prettyRoute := prettyRoute + [c];
      }
      i := i + 1;
    }
    assert route[1..i] == route[1..];
  }

  /** The number of `A`-`Z` characters in `s`. */
  function CountUpper(s: string): nat
  {
    if s == "" then 0 else CountUpper(s[..|s| - 1]) + (if IsUpper(s[|s| - 1]) then 1 else 0)
  }

  predicate NoUpper(s: string)
  {
    forall i :: 0 <= i < |s| ==> !IsUpper(s[i])
  }

  lemma {:induction false} PrettyTailLength(s: string)
    ensures |PrettyTail(s)| == |s| + CountUpper(s)
  {
    if s != "" {
      PrettyTailLength(s[..|s| - 1]);
    }
  }

  /** One extra character per upper-case letter after the first. */
  lemma PrettyRouteLength(s: string)
    requires s != ""
    ensures |PrettyRoute(s)| == |s| + CountUpper(s[1..])
  {
    PrettyTailLength(s[1..]);
  }

  lemma {:induction false} PrettyTailNoUpper(s: string)
    ensures NoUpper(PrettyTail(s))
  {
    if s != "" {
      PrettyTailNoUpper(s[..|s| - 1]);
    }
  }

  /** The segment contains no upper-case letter. */
  lemma PrettyRouteNoUpper(s: string)
    ensures NoUpper(PrettyRoute(s))
  {
    if s != "" {
      PrettyTailNoUpper(s[1..]);
    }
  }

  lemma {:induction false} PrettyTailFixes(s: string)
    requires NoUpper(s)
    ensures PrettyTail(s) == s
  {
    if s != "" {
      PrettyTailFixes(s[..|s| - 1]);
      assert s == s[..|s| - 1] + [s[|s| - 1]];
    }
  }

  /** A segment without upper-case letters is its own transform. */
  lemma PrettyRouteFixes(s: string)
    requires NoUpper(s)
    ensures PrettyRoute(s) == s
  {
    if s != "" {
      PrettyTailFixes(s[1..]);
      assert s == [s[0]] + s[1..];
    }
  }

  /** The transform is idempotent. */
  lemma PrettyRouteIdempotent(s: string)
    ensures PrettyRoute(PrettyRoute(s)) == PrettyRoute(s)
  {
    PrettyRouteNoUpper(s);
    PrettyRouteFixes(PrettyRoute(s));
  }

  /** The transform works piecewise over a concatenation. */
  lemma {:induction false} PrettyTailAppend(a: string, b: string)
    ensures PrettyTail(a + b) == PrettyTail(a) + PrettyTail(b)
  {
    if b != "" {
      PrettyTailAppend(a, b[..|b| - 1]);
      assert (a + b)[..|a + b| - 1] == a + b[..|b| - 1];
    } else {
      assert a + b == a;
    }
  }

  /** The tail of the doc comment's example: one hyphen before the one capital. */
  lemma PrettyTailExample()
    ensures PrettyTail("ommentAdd") == "omment-add"
  {
    PrettyTailFixes("omment");
    assert PrettyTail("ommentA") == "omment-a" by {
      assert "ommentA"[..6] == "omment";
    }
    PrettyTailFixes("dd");
    PrettyTailAppend("ommentA", "dd");
    assert "ommentA" + "dd" == "ommentAdd";
  }

  /** The example of the doc comment. */
  lemma PrettyRouteExample()
    ensures PrettyRoute("CommentAdd") == "comment-add"
  {
    var s := "CommentAdd";
    assert s[1..] == "ommentAdd";
    PrettyTailExample();
  }

  /** The default action's segment. */
  lemma PrettyRouteIndex()
    ensures PrettyRoute("Index") == "index"
  {
    var t := "Index";
    assert t[1..] == "ndex";
    PrettyTailFixes("ndex");
  }
}
