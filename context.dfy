/**
 * The request context of context.go: the request's method predicates and
 * the CSRF check that looks for a token in the posted form and in a header.
 *
 * A request is reduced to what the context reads: its method (`verb`), its header
 * (keys in canonical form, as the server stores them) and the form values
 * parsed from its body.
 */
module RequestContext {
  import opened GoLib
  import Csrf

  datatype Request = Request(
    verb: string,
    header: map<string, seq<string>>,
    bodyForm: map<string, seq<string>>)

  /** `Context`: the request, the masked token handed to views and the session's true token. */
  datatype Context = Context(request: Request, csrfToken: string, trueCsrfToken: seq<byte>)

  /** `NewContext`: both tokens start empty. */
  function NewContext(r: Request): (c: Context)
    ensures c.request == r && c.csrfToken == "" && c.trueCsrfToken == []
  {
    Context(r, "", [])
  }

  // ---------------------------------------------------------------------
  // Header keys and form values (net/http and net/textproto)

  /** A byte that may appear in a header field name. */
  predicate IsTokenChar(c: char)
  {
    IsUpper(c) || IsLower(c) || IsDigit(c)
    || c in {'!', '#', '$', '%', '&', '\'', '*', '+', '-', '.', '^', '_', '`', '|', '~'}
  }

  /** Case of every letter after the first: upper at the start and after `-`, lower elsewhere. */
  function CanonicalFrom(s: string, upper: bool): (r: string)
    ensures |r| == |s|
  {
    if s == "" then ""
    else
      var c := if upper then ToUpper(s[0]) else ToLower(s[0]);
      [c] + CanonicalFrom(s[1..], s[0] == '-')
  }

  /**
   * `CanonicalMIMEHeaderKey`: the first letter and every letter after a
   * hyphen upper case, the rest lower case; a key with a byte that is not a
   * token character is returned unchanged.
   */
  function CanonicalKey(s: string): (r: string)
    ensures |r| == |s|
  {
    if forall i :: 0 <= i < |s| ==> IsTokenChar(s[i]) then CanonicalFrom(s, true) else s
  }

  lemma {:induction false} CanonicalFromIdempotent(s: string, upper: bool)
    ensures CanonicalFrom(CanonicalFrom(s, upper), upper) == CanonicalFrom(s, upper)
  {
    if s != "" {
      var t := CanonicalFrom(s, upper);
      assert t[0] == (if upper then ToUpper(s[0]) else ToLower(s[0]));
      assert t[0] == '-' <==> s[0] == '-';
      assert t[1..] == CanonicalFrom(s[1..], s[0] == '-');
      CanonicalFromIdempotent(s[1..], s[0] == '-');
    }
  }

  lemma {:induction false} CanonicalFromTokenChars(s: string, upper: bool)
    requires forall i :: 0 <= i < |s| ==> IsTokenChar(s[i])
    ensures forall i :: 0 <= i < |s| ==> IsTokenChar(CanonicalFrom(s, upper)[i])
  {
    if s != "" {
      CanonicalFromTokenChars(s[1..], s[0] == '-');
      assert forall i :: 1 <= i < |s| ==> CanonicalFrom(s, upper)[i] == CanonicalFrom(s[1..], s[0] == '-')[i - 1];
    }
  }

  /** Position by position: upper case at the start and after a hyphen, lower case elsewhere. */
  lemma {:induction false} CanonicalFromAt(s: string, upper: bool, i: nat)
    requires i < |s|
    ensures CanonicalFrom(s, upper)[i]
         == if (if i == 0 then upper else s[i - 1] == '-') then ToUpper(s[i]) else ToLower(s[i])
  {
    if i > 0 {
      CanonicalFromAt(s[1..], s[0] == '-', i - 1);
    }
  }

  /** The character `CanonicalFrom` puts at position `i` of `s`. */
  function CaseAt(s: string, upper: bool, i: nat): char
    requires i < |s|
  {
    if (if i == 0 then upper else s[i - 1] == '-') then ToUpper(s[i]) else ToLower(s[i])
  }

  /** Every letter is already in the case `CanonicalFrom` gives it. */
  predicate InCanonicalCase(s: string, upper: bool)
  {
    forall i :: 0 <= i < |s| ==> s[i] == CaseAt(s, upper, i)
  }

  /** A key already in canonical case is left as it is. */
  lemma {:induction false} CanonicalFromFixed(s: string, upper: bool)
    requires InCanonicalCase(s, upper)
    ensures CanonicalFrom(s, upper) == s
  {
    if s != "" {
      var t := s[1..];
      assert s[0] == CaseAt(s, upper, 0);
      forall i | 0 <= i < |t| ensures t[i] == CaseAt(t, s[0] == '-', i) {
        assert t[i] == s[i + 1] && CaseAt(t, s[0] == '-', i) == CaseAt(s, upper, i + 1);
      }
      CanonicalFromFixed(t, s[0] == '-');
      assert s == [s[0]] + t;
    }
  }

  /** Canonicalising a canonical key changes nothing. */
  lemma CanonicalKeyIdempotent(s: string)
    ensures CanonicalKey(CanonicalKey(s)) == CanonicalKey(s)
  {
    if forall i :: 0 <= i < |s| ==> IsTokenChar(s[i]) {
      CanonicalFromTokenChars(s, true);
      CanonicalFromIdempotent(s, true);
    }
  }

  /** Two keys that differ at most in the case of their letters. */
  predicate SameUpToCase(s: string, t: string)
  {
    |s| == |t| && forall i :: 0 <= i < |s| ==> ToLower(s[i]) == ToLower(t[i])
  }

  /** Characters equal up to case: the same upper case, both hyphens or neither, both token characters or neither. */
  lemma SameCaseChar(a: char, b: char)
    requires ToLower(a) == ToLower(b)
    ensures ToUpper(a) == ToUpper(b) && (a == '-' <==> b == '-') && (IsTokenChar(a) <==> IsTokenChar(b))
  {
    if IsUpper(a) || IsUpper(b) {
      assert IsLower(ToLower(a));
    }
  }

  lemma {:induction false} CanonicalFromIgnoresCase(s: string, t: string, upper: bool)
    requires SameUpToCase(s, t)
    ensures CanonicalFrom(s, upper) == CanonicalFrom(t, upper)
  {
    if s != "" {
      SameCaseChar(s[0], t[0]);
      assert SameUpToCase(s[1..], t[1..]) by {
        forall i | 0 <= i < |s| - 1 ensures ToLower(s[1..][i]) == ToLower(t[1..][i]) {
          assert s[1..][i] == s[i + 1] && t[1..][i] == t[i + 1];
        }
      }
      CanonicalFromIgnoresCase(s[1..], t[1..], s[0] == '-');
    }
  }

  /**
   * Keys of token characters that differ only in case have one canonical
   * form, so the context's `X-CSRF-Token` finds a header sent as
   * `X-Csrf-Token` or `x-csrf-token`.
   */
  lemma CanonicalKeyIgnoresCase(s: string, t: string)
    requires SameUpToCase(s, t) && forall i :: 0 <= i < |s| ==> IsTokenChar(s[i])
    ensures CanonicalKey(s) == CanonicalKey(t)
  {
    forall i | 0 <= i < |t| ensures IsTokenChar(t[i]) {
      SameCaseChar(s[i], t[i]);
    }
    CanonicalFromIgnoresCase(s, t, true);
  }

  /** The first value stored under `key`, or `""`. */
  function FirstValue(m: map<string, seq<string>>, key: string): (r: string)
    ensures key !in m ==> r == ""
  {
    if key in m && |m[key]| > 0 then m[key][0] else ""
  }

  /** `Header.Get`: the first value under the canonical form of the key. */
  function HeaderGet(r: Request, key: string): string
  {
    FirstValue(r.header, CanonicalKey(key))
  }

  /** `PostForm` after `ParseForm`: the body is parsed only for POST, PUT and PATCH (compared exactly). */
  function PostForm(r: Request): (f: map<string, seq<string>>)
    ensures r.verb != "POST" && r.verb != "PUT" && r.verb != "PATCH" ==> f == map[]
  {
    if r.verb == "POST" || r.verb == "PUT" || r.verb == "PATCH" then r.bodyForm else map[]
  }

  // ---------------------------------------------------------------------
  // The CSRF check

  /** `getCsrfTokenFromForm`: the `_csrf` form field. */
  function FormToken(c: Context): string
  {
    FirstValue(PostForm(c.request), "_csrf")
  }

  /** `getCsrfTokenFromHeader`: the `X-CSRF-Token` header. */
  function HeaderToken(c: Context): string
  {
    HeaderGet(c.request, "X-CSRF-Token")
  }

  /** GET and HEAD, in any case, are exempt from the check. */
  predicate IsSafeMethod(c: Context)
  {
    EqualFold("GET", c.request.verb) || EqualFold("HEAD", c.request.verb)
  }

  /**
   * `Context.ValidateCsrfToken` with the configured mask length: exempt
   * methods pass, a missing true token fails, otherwise the form token is
   * tried and then the header token.
   */
  function ValidateCsrfToken(c: Context, maskLen: int): (r: Outcome<bool>)
    ensures IsSafeMethod(c) ==> r == Returned(true)
    ensures !IsSafeMethod(c) && c.trueCsrfToken == [] ==> r == Returned(false)
  {
    if IsSafeMethod(c) then Returned(true)
    else if |c.trueCsrfToken| == 0 then Returned(false)
    else
      match Csrf.Validate(maskLen, FormToken(c), c.trueCsrfToken)
      case Panicked(reason) => Panicked(reason)
      case Returned(true) => Returned(true)
      case Returned(false) => Csrf.Validate(maskLen, HeaderToken(c), c.trueCsrfToken)
  }

  /** The check succeeds iff the form token or, failing it, the header token validates. */
  lemma ValidIffFormOrHeader(c: Context, maskLen: int)
    requires !IsSafeMethod(c) && c.trueCsrfToken != []
    ensures ValidateCsrfToken(c, maskLen) == Returned(true) <==>
              Csrf.Validate(maskLen, FormToken(c), c.trueCsrfToken) == Returned(true)
              || (Csrf.Validate(maskLen, FormToken(c), c.trueCsrfToken) == Returned(false)
                  && Csrf.Validate(maskLen, HeaderToken(c), c.trueCsrfToken) == Returned(true))
  {
  }

  /** A malformed form token panics whatever the header holds. */
  lemma MalformedFormTokenPanics(c: Context, maskLen: int)
    requires !IsSafeMethod(c) && c.trueCsrfToken != [] && maskLen >= 0
    requires Csrf.Validate(maskLen, FormToken(c), c.trueCsrfToken).Panicked?
    ensures ValidateCsrfToken(c, maskLen).Panicked?
    ensures forall h :: ValidateCsrfToken(c.(request := c.request.(header := h)), maskLen).Panicked?
  {
  }

  /** A form carrying a token generated from the session's true token passes. */
  lemma GeneratedFormTokenAccepted(c: Context, mask: seq<byte>)
    requires 1 <= |mask| <= |c.trueCsrfToken|
    requires FormToken(c) == Csrf.Generate(|mask|, c.trueCsrfToken, mask).value
    ensures ValidateCsrfToken(c, |mask|) == Returned(true)
  {
    Csrf.ValidateGenerated(mask, c.trueCsrfToken);
  }

  /** With no form field, a generated token in the header passes (the empty form token decodes to nothing). */
  lemma GeneratedHeaderTokenAccepted(c: Context, mask: seq<byte>)
    requires 1 <= |mask| <= |c.trueCsrfToken|
    requires FormToken(c) == ""
    requires HeaderToken(c) == Csrf.Generate(|mask|, c.trueCsrfToken, mask).value
    ensures ValidateCsrfToken(c, |mask|) == Returned(true)
  {
    Csrf.ValidateGenerated(mask, c.trueCsrfToken);
    assert ReplaceChar("", '.', '+') == "";
  }

  /** A lower-case `post` request has no parsed form, so its token must come from the header. */
  lemma LowerCasePostHasNoFormToken(c: Context)
    requires c.request.verb == "post"
    ensures FormToken(c) == "" && !IsSafeMethod(c)
  {
    assert LowerString("post") == "post";
    assert LowerString("GET") == "get" && LowerString("HEAD") == "head";
  }

  // ---------------------------------------------------------------------
  // Method predicates

  predicate IsGet(c: Context) { EqualFold("GET", c.request.verb) }
  predicate IsPost(c: Context) { EqualFold("POST", c.request.verb) }
  predicate IsPut(c: Context) { EqualFold("PUT", c.request.verb) }
  predicate IsHead(c: Context) { EqualFold("HEAD", c.request.verb) }
  predicate IsDelete(c: Context) { EqualFold("DELETE", c.request.verb) }
  predicate IsPatch(c: Context) { EqualFold("PATCH", c.request.verb) }
  predicate IsOptions(c: Context) { EqualFold("OPTIONS", c.request.verb) }

  /** `IsAjax`: the `X-Requested-With` header is exactly `XMLHttpRequest`. */
  predicate IsAjax(c: Context)
  {
    HeaderGet(c.request, "X-Requested-With") == "XMLHttpRequest"
  }

  /** The method predicates ignore case, and at most one of them holds. */
  lemma MethodPredicates(c: Context)
    ensures IsGet(c) <==> LowerString(c.request.verb) == "get"
    ensures IsPost(c) <==> LowerString(c.request.verb) == "post"
    ensures IsGet(c) ==> !IsPost(c) && !IsPut(c) && !IsHead(c) && !IsDelete(c) && !IsPatch(c) && !IsOptions(c)
    ensures IsPost(c) ==> !IsPut(c) && !IsHead(c) && !IsDelete(c) && !IsPatch(c) && !IsOptions(c)
    ensures IsPut(c) ==> !IsHead(c) && !IsDelete(c) && !IsPatch(c) && !IsOptions(c)
    ensures IsHead(c) ==> !IsDelete(c) && !IsPatch(c) && !IsOptions(c)
    ensures IsDelete(c) ==> !IsPatch(c) && !IsOptions(c)
    ensures IsPatch(c) ==> !IsOptions(c)
  {
    assert LowerString("GET") == "get" && LowerString("POST") == "post" && LowerString("PUT") == "put";
    assert LowerString("HEAD") == "head" && LowerString("DELETE") == "delete";
    assert LowerString("PATCH") == "patch" && LowerString("OPTIONS") == "options";
  }

  /** The AJAX header is compared exactly: a lower-case value does not count. */
  lemma IsAjaxExact(c: Context)
    requires HeaderGet(c.request, "X-Requested-With") == "xmlhttprequest"
    ensures !IsAjax(c)
  {
    assert "xmlhttprequest"[0] != "XMLHttpRequest"[0];
  }
}
