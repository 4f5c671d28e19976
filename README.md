# cheetah in Dafny

A model of the core of cheetah, a small convention-driven Go web framework.
Controllers are registered on virtual hosts. Their exported action methods
become routes derived from naming conventions. Each request runs a fresh
controller through `Init`, `BeforeAction`, the action and
`ResponseClient`, and a CSRF token protocol protects unsafe requests. The
application reads its configuration from an INI file, checks it and starts
serving.

One Dafny module stands for each Go file of the core:

- `StringUtil`: `SubString`, `UpperFirst` and `LowerFirst` of utils/string/string.go.
- `Router`: the route record and `BuildPrettyRoute` of router.go.
- `Cheetah`: the controller and action naming rules and the request handler of cheetah.go.
- `HostRouting`: route derivation, handle binding and host dispatch of host.go.
- `Base64` and `Csrf`: the token protocol of csrf.go over Go's standard base64 (section 4 of RFC 4648).
- `RequestContext`: the method predicates and the CSRF check of context.go.
- `Response`: the send-at-most-once response of response.go, with the writes to the client as a log.
- `Controller`: the web controller of controller.go.
- `Ini`: the INI reader of utils/ini/ini.go.
- `App` and `AppConfig`: `loadConfig`, `validateConfig`, `newHost` and `run` of application.go, over the `Config` record of config.go.
- `Asset`: the stylesheet and script tags of asset.go.
- `GoLib`: models of the Go library routines the framework calls (`strings`, `strconv`, `path`, `fmt`'s `%s`).

Code that changes state step by step is modelled as classes and methods with
loops. Each method is proved against a specification function, and the
properties of those functions are proved as lemmas. Pure code is modelled as
functions. A Go panic is modelled as an explicit outcome (`Outcome`, `Flow`,
`Option<Fault>`), so every error path keeps its message and can be reasoned
about. The model follows the code as written where the two differ from a
reading of the documentation. For example, `config.go` declares
`serverAddr`, but the application reads and writes `serverPort`, so the
configuration record carries the port.

## Model

| member | source | states |
|---|---|---|
| GoLib.ToLower | router.go:49 | an ASCII upper-case letter moves up by 32 to its lower case; any other character is kept; the result is never upper case |
| GoLib.ToUpper | utils/string/string.go:48 | an ASCII lower-case letter moves down by 32 to its upper case; any other character is kept; the result is never lower case |
| GoLib.LowerString | router.go:45 | `strings.ToLower` keeps the length and lowers every character |
| GoLib.EqualFoldExamples | application.go:180 | case-insensitive comparison as the mode, protocol and method checks use it: `get`/`GET` agree, `GET`/`POST` and `""`/`DEV` do not |
| GoLib.IndexFrom | cheetah.go:116 | the search from a position returns -1 exactly when no occurrence follows, and otherwise the first occurrence at or after it |
| GoLib.Index | cheetah.go:105 | `strings.Index` is -1 exactly when the text never occurs, and otherwise an occurrence with none before it |
| GoLib.IndexZeroIsPrefix | cheetah.go:105 | `Index(s, p) == 0` holds exactly when `s` starts with `p` |
| GoLib.TrimLeft | utils/ini/ini.go:91 | the result is a suffix of the input, everything dropped is whitespace, and it does not start with whitespace |
| GoLib.TrimRight | utils/ini/ini.go:91 | the result is a prefix of the input, everything dropped is whitespace, and it does not end with whitespace |
| GoLib.TrimSpace | utils/ini/ini.go:91 | a trimmed line is no longer than the input and neither starts nor ends with whitespace |
| GoLib.TrimSpaceKeeps | utils/ini/ini.go:91 | a line with no whitespace at either end is left as is |
| GoLib.ReplaceChar | csrf.go:25 | `strings.Replace` of one character by another, everywhere: same length, each occurrence replaced, everything else kept |
| GoLib.ReplaceCharRoundTrip | csrf.go:25-34 | replacing `a` by `b` and then `b` by `a` restores a text without `b`, and the intermediate text has no `a` left |
| GoLib.Split | utils/ini/ini.go:183 | a split by a non-empty separator has at least one piece |
| GoLib.SplitJoin | utils/ini/ini.go:177-183 | joining the pieces of a split with the same separator gives the text back |
| GoLib.SplitEmptyJoin | utils/ini/ini.go:183 | a split by the empty separator, one piece per character, joins back to the text |
| GoLib.SplitStep | host.go:181 | a split is the text before the first separator followed by the split of the text after it |
| GoLib.FirstPieceAvoidsSep | host.go:181 | the first piece of a split never contains the separator |
| GoLib.SplitPiecesAvoidSep | utils/ini/ini.go:183 | no piece of a split by a non-empty separator contains it |
| GoLib.BeforeFirstOccurrence | host.go:181 | the text before the first occurrence of a separator does not contain it |
| GoLib.LastIndexOf | application.go:191 | the index of the last occurrence of a character, with none after it, or -1 when it does not occur |
| GoLib.PathDir | application.go:191 | `path.Dir` is never empty and is `.` for a path without a slash |
| GoLib.LastIndexOfSplit | application.go:191 | the last slash of `a + "/" + b` is the one at `len(a)` when `b` has none |
| GoLib.PathDirExamples | application.go:191 | the directory of the directory of `/app/conf/app.ini` is `/app`; a root entry gives `/` and a bare name `.` |
| GoLib.PathJoinExample | application.go:454 | `path.Join` skips empty elements; for elements that need no cleaning it puts one slash between the others |
| GoLib.Atoi | utils/ini/ini.go:145 | `strconv.Atoi` fails on the empty text; a result lies in the 64-bit range, and an unsigned one is the value of its decimal digits |
| GoLib.AtoiExamples | cheetah.go:73 | `1`, `42` and `-7` convert; `""`, `x`, `-` and `1a` are errors |
| StringUtil.Clamp | utils/string/string.go:26-37 | a bound is clamped into `[0, n]` and left alone when already inside it |
| StringUtil.SubStringRange | utils/string/string.go:13-37 | the slice bounds are ordered and within the string; a negative start is rebased to `rl - 1 + start` and a negative length selects the runes before the start |
| StringUtil.SubString | utils/string/string.go:12-39 | the result never exceeds the input and is exactly the slice the clamped, swapped bounds select |
| StringUtil.SubStringExample | utils/string/string_test.go:8-16 | `SubString("ABCDEFG", 1, 5)` is `"BCDEF"` |
| StringUtil.SubStringForward | utils/string/string.go:20-38 | with non-negative start and length the result is the slice `[start, start+length)` cut at the end of the string |
| StringUtil.SubStringSuffix | utils/string/string.go:48 | `SubString(s, k, len(s)-k)` drops exactly the first `k` runes |
| StringUtil.SubStringPrefix | utils/string/string.go:20-38 | `SubString(s, 0, k)` keeps exactly the first `k` runes |
| StringUtil.SubStringNegativeStart | utils/string/string.go:17-19 | a negative start counts from one rune before the end |
| StringUtil.SubStringNegativeLength | utils/string/string.go:22-24 | a negative length selects the `-length` runes before the start |
| StringUtil.UpperFirst | utils/string/string.go:42-51 | the length is kept, the first character becomes its upper case, the rest is unchanged, and a string not starting with `a`-`z` is returned as is |
| StringUtil.LowerFirst | utils/string/string.go:54-63 | the length is kept, the first character becomes its lower case, the rest is unchanged, and a string not starting with `A`-`Z` is returned as is |
| StringUtil.FirstLetterExamples | utils/string/string_test.go:18-36 | `UpperFirst("abcdefg") == "Abcdefg"`, `LowerFirst("ABCDEFG") == "aBCDEFG"`, and both map `""` to `""` |
| StringUtil.FirstLetterRoundTrip | utils/string/string.go:42-63 | lowering the first letter undoes raising it, and raising undoes lowering |
| Router.PrettyChar | router.go:47-52 | an upper-case letter after the first becomes `-` and its lower case; any other character is kept |
| Router.BuildPrettyRoute | router.go:41-55 | the loop builds exactly `PrettyRoute(route)`: the lower-cased first character followed by the transformed tail, and `""` for `""` |
| Router.PrettyTailLength | router.go:46-53 | the tail grows by exactly one `-` per upper-case letter |
| Router.PrettyRouteLength | router.go:41-55 | a pretty route is as long as its input plus the upper-case letters after the first |
| Router.PrettyTailNoUpper | router.go:46-53 | the transformed tail holds no upper-case letter |
| Router.PrettyRouteNoUpper | router.go:41-55 | a pretty route holds no upper-case letter |
| Router.PrettyTailFixes | router.go:46-53 | a tail without upper-case letters is left unchanged |
| Router.PrettyRouteFixes | router.go:41-55 | a route without upper-case letters is its own pretty route |
| Router.PrettyRouteIdempotent | router.go:41-55 | prettifying twice is the same as prettifying once |
| Router.PrettyTailAppend | router.go:46-53 | the tail transform works character by character: it distributes over concatenation |
| Router.PrettyTailExample | router.go:40 | the tail of `CommentAdd` becomes `omment-add` |
| Router.PrettyRouteExample | router.go:40 | `CommentAdd` becomes `comment-add`, the route the comment promises |
| Router.PrettyRouteIndex | router.go:41-55 | `Index` becomes `index` |
| Base64.EncodeChar | csrf.go:23 | a 6-bit value becomes a character of the standard alphabet, never `=`, `.` or a line break |
| Base64.CharRoundTrip | csrf.go:37 | the value of the character for a 6-bit value is that value |
| Base64.GroupRoundTrip | csrf.go:37 | regrouping the four 6-bit values of three bytes gives the three bytes back |
| Base64.Encode | csrf.go:23 | `EncodeToString` emits four characters for every started group of three bytes and never a `.` or a line break |
| Base64.RemoveNewlines | csrf.go:37 | text without line breaks is passed to the decoder unchanged |
| Base64.DecodeQuanta | csrf.go:37 | decoding succeeds only on text whose length is a multiple of four |
| Base64.EncodeGroup | csrf.go:23 | a full group of three bytes takes four characters |
| Base64.DecodeQuantum | csrf.go:37 | four alphabet characters decode to three bytes in front of whatever the rest decodes to |
| Base64.DecodeFullGroup | csrf.go:23-37 | the encoding of a full group decodes to its three bytes in front of the rest |
| Base64.DecodeLastOne | csrf.go:23-37 | a final group of one byte, padded with `==`, decodes to that byte |
| Base64.DecodePadTwo | csrf.go:37 | a quantum ending in `==` decodes to one byte |
| Base64.DecodePadOne | csrf.go:37 | a quantum ending in one `=` decodes |
| Base64.DecodeLastTwo | csrf.go:23-37 | a final group of two bytes, padded with `=`, decodes to those bytes |
| Base64.DecodeQuantaEncode | csrf.go:23-37 | decoding the encoding of any bytes gives them back |
| Base64.DecodeEncodeOne | csrf.go:23-37 | the round trip for a single byte |
| Base64.DecodeEncodeTwo | csrf.go:23-37 | the round trip for two bytes |
| Base64.DecodeEncodeGroup | csrf.go:23-37 | the round trip extends from the rest of the input to a full group in front of it |
| Base64.EncodeStep | csrf.go:23 | at least three bytes encode as their first group followed by the encoding of the rest |
| Base64.DecodeEncode | csrf.go:23-37 | `DecodeString(EncodeToString(b)) == b` for all bytes `b` |
| Base64.DecodeRejectsLength | csrf.go:37-40 | text whose length, line breaks aside, is not a multiple of four is corrupt, so validation panics on it |
| Csrf.XorBits | csrf.go:83 | the XOR of the low `k` bits of two numbers stays below `2^k` |
| Csrf.XorBitsCommutes | csrf.go:83 | bitwise XOR does not depend on the order of its operands |
| Csrf.XorBitsCancels | csrf.go:83 | XOR-ing twice with the same value gives the first value back |
| Csrf.BitXorCancels | csrf.go:83 | for bytes, `(t ^ m) ^ m == t` and `m ^ (t ^ m) == t` |
| Csrf.BitXorExamples | csrf.go:83 | `32 ^ 65 == 97`, `0xF0 ^ 0x0F == 0xFF`, `0xFF ^ 0xFF == 0` |
| Csrf.Xor | csrf.go:65-86 | XOR of two tokens panics exactly when the second is empty and the first is not; otherwise the result is as long as the longer operand |
| Csrf.ExtendSecond | csrf.go:68-71 | the first loop extends the second token to `n` bytes by repeating it cyclically |
| Csrf.ExtendFirst | csrf.go:72-80 | the second loop extends the first token to `n` bytes by repeating it cyclically, or with spaces when it is empty |
| Csrf.XorAt | csrf.go:81-84 | each byte of the XOR is the extended first token's byte XOR the extended second token's byte |
| Csrf.XorTokens | csrf.go:65-86 | `xorCsrfTokens`, run loop by loop, computes `Xor(token1, token2)`, including the panic when the second token is empty |
| Csrf.XorEqualLength | csrf.go:81-85 | the last loop XORs two equally long tokens position by position |
| Csrf.XorUnmasks | csrf.go:49-53 | unmasking a token masked with a mask no longer than it gives the token back |
| Csrf.XorShortToken | csrf.go:44-53 | masking a token shorter than the mask, then unmasking, gives a value as long as the mask |
| Csrf.Generate | csrf.go:15-26 | a generated token contains no `+`; undoing the `.` replacement and the base64 gives the mask followed by the masked token; a positive mask length of the right size never panics |
| Csrf.Validate | csrf.go:32-62 | validation panics exactly when the token, with `.` turned back into `+`, is not base64; it accepts only decoded input longer than the mask whose unmasked part has the true token's length |
| Csrf.ValidateGenerated | csrf.go:15-62 | a token generated from a mask no longer than the true token validates against that true token |
| Csrf.ValidateOtherToken | csrf.go:15-62 | a generated token is rejected, without a panic, against any other true token |
| Csrf.ValidateShortToken | csrf.go:44-56 | a true token shorter than the mask never validates, because the unmasked value has the mask's length |
| Csrf.ValidateTooShort | csrf.go:44-46 | decoded input no longer than the mask is rejected without a panic |
| Csrf.ValidateCorruptPanics | csrf.go:37-40 | text that is not base64 panics instead of returning false |
| Csrf.GenerateWithoutMask | csrf.go:17-20 | with mask length 0 a non-empty token cannot be masked: the extension loop divides by zero |
| RequestContext.NewContext | context.go:17-22 | a new context holds the request and both tokens start empty |
| RequestContext.CanonicalFrom | context.go:48 | canonicalising the letters of a header key keeps its length |
| RequestContext.CanonicalKey | context.go:48 | the canonical form of a header key has the key's length |
| RequestContext.CanonicalFromIdempotent | context.go:48 | canonicalising a canonical tail changes nothing |
| RequestContext.CanonicalFromTokenChars | context.go:48 | canonicalising keeps every character a header-name character |
| RequestContext.CanonicalFromAt | context.go:48 | position by position the key is upper case at the start and after a hyphen and lower case elsewhere |
| RequestContext.CanonicalKeyIdempotent | context.go:48 | the canonical form of a canonical key is itself |
| RequestContext.SameCaseChar | context.go:48 | characters equal up to case have the same upper case and agree on being a hyphen and a header-name character |
| RequestContext.CanonicalFromIgnoresCase | context.go:48 | keys that differ only in case canonicalise alike |
| RequestContext.CanonicalKeyIgnoresCase | context.go:47-49 | `X-CSRF-Token`, `X-Csrf-Token` and `x-csrf-token` name the same header |
| RequestContext.FirstValue | context.go:48 | a missing key reads as `""` |
| RequestContext.PostForm | context.go:18 | only POST, PUT and PATCH, spelled exactly, have their body parsed into the post form |
| RequestContext.ValidateCsrfToken | context.go:31-44 | GET and HEAD in any case pass; otherwise a missing true token fails |
| RequestContext.ValidIffFormOrHeader | context.go:35-43 | with a true token, an unsafe request passes exactly when the form token validates or, that failing without a panic, the header token does |
| RequestContext.MalformedFormTokenPanics | context.go:39 | a malformed form token panics whatever the header holds |
| RequestContext.GeneratedFormTokenAccepted | context.go:39 | a form carrying a token generated from the session's true token passes |
| RequestContext.GeneratedHeaderTokenAccepted | context.go:39-40 | with no `_csrf` field, a generated token in the `X-CSRF-Token` header passes |
| RequestContext.LowerCasePostHasNoFormToken | context.go:18-53 | a request whose method is spelled `post` has no parsed form, so its form token is empty, yet it is not exempt from the check |
| RequestContext.MethodPredicates | context.go:56-89 | the method predicates ignore case, and at most one of them holds |
| RequestContext.IsAjaxExact | context.go:92-95 | the `X-Requested-With` value is compared exactly: `xmlhttprequest` is not AJAX |
| Response.StatusText | response.go:75 | the model's table holds only the six codes the framework sends (200, 302, 400, 403, 404 and 500), each with Go's text; any other code gives `""` |
| Response.WebResponse.constructor | response.go:18-22 | a new response is unsent, with status 200, an empty body and no header values |
| Response.WebResponse.SetHeader | response.go:24-26 | one header value is set, under the canonical form of the key as `Header().Set` stores it, and nothing already written changes |
| Response.ContentTypeCanonical | response.go:28-42 | `Content-Type`, the key the content-type setters use, is already in canonical form |
| Response.LocationCanonical | response.go:98-102 | `Location`, the key a redirect uses, is already in canonical form |
| Response.ContentTypeAnySpelling | response.go:24-30 | setting `Content-Type` under any spelling of the key and then by a content-type setter leaves one value, the setter's |
| Response.WebResponse.SetHtmlHeader | response.go:28-30 | `Content-Type` becomes `text/html; charset=utf-8` |
| Response.WebResponse.SetJsonHeader | response.go:32-34 | `Content-Type` becomes `application/json; charset=utf-8` |
| Response.WebResponse.SetJsonpHeader | response.go:36-38 | `Content-Type` becomes `application/javascript; charset=utf-8` |
| Response.WebResponse.SetXmlHeader | response.go:40-42 | `Content-Type` becomes `application/xml; charset=utf-8` |
| Response.WebResponse.Send | response.go:54-71 | the first send writes the status with the header values, then the body, and empties the body; a later send writes and changes nothing; the response is written at most once |
| Response.WebResponse.SendError | response.go:73-96 | an error sets the status and the body `StatusText(code) + ": " + data`, then sends; an already sent response writes nothing more |
| Response.WebResponse.NotFound | response.go:73-78 | status 404 with body `Not Found: ` and the data, sent once |
| Response.WebResponse.InternalServerError | response.go:80-84 | status 500 with body `Internal Server Error: ` and the data, sent once |
| Response.WebResponse.BadRequest | response.go:86-90 | status 400 with body `Bad Request: ` and the data, sent once |
| Response.WebResponse.Forbidden | response.go:92-96 | status 403 with body `Forbidden: ` and the data, sent once |
| Response.WebResponse.Redirect | response.go:98-102 | status 302 and the `Location` header, then sent |
| Response.ErrorThenSend | response.go:55-61 | a fresh response answered with an error, then sent again and answered with another error, reaches the client only with the first error |
| Controller.Session.constructor | controller.go:95 | a loaded session holds the values the store answers with |
| Controller.WithTrueToken | controller.go:106-114 | afterwards the session has a `_csrf` value; an existing one is kept, and every other value is left alone |
| Controller.TrueTokenStable | controller.go:106-114 | once stored, the true token is what any later request with that session gets; a session without one gets the fresh token |
| Controller.InitialContext | controller.go:60-103 | without sessions, or when loading the session fails, both tokens stay empty; otherwise the true token is the session's and the masked token is its CSRF masking, and masking panics exactly when generation panics |
| Controller.InitWrites | controller.go:86-99 | `Init` writes at most one response: the session error as 500, else a failed CSRF check as 400, else nothing |
| Controller.CsrfOutcomes | controller.go:86-90 | with sessions and validation on, a `GET` passes untouched, and an unsafe request whose session has an empty true token is answered with 400 |
| Controller.ViewName | controller.go:137-141 | an empty view name becomes the pretty action name; either way the view suffix is appended |
| Controller.ViewNameExample | controller.go:137-141 | action `CommentAdd` gives view `comment-add.html`, and name `list` gives `list.html` |
| Controller.WebController.constructor | controller.go:39-50 | a zero controller: empty names and paths, no response and no session |
| Controller.WebController.Init | controller.go:52-67 | the route's data is copied (the full name is not), the response is fresh, the session holds the true token, the context is `InitialContext`, what reaches the client is `InitWrites`, and a panic occurs exactly when the CSRF check panics |
| Controller.WebController.getSession | controller.go:92-104 | with sessions on the session is loaded; a load error is answered with 500 and leaves the tokens empty; otherwise the tokens are set as `InitialContext` says; with sessions off nothing changes |
| Controller.WebController.getTrueCsrfToken | controller.go:106-114 | the session's `_csrf` value is returned, first stored from the fresh bytes when missing |
| Controller.WebController.validateCsrfToken | controller.go:86-90 | with validation on, a failed check is answered with 400 and a passed check changes nothing; a panic of the check is passed on |
| Controller.WebController.BeforeAction | controller.go:72-74 | the default lets the action run |
| Controller.WebController.ResponseClient | controller.go:81-84 | the response is sent; a session save error replaces it with a 500 whose body names the error; an already sent response writes nothing more |
| Controller.WebController.RenderFile | controller.go:134-149 | the view file is the view name under the view path; a layout file exists exactly when the controller has a layout and lies in the layout directory beside the view path; the body is the rendered output with the HTML header |
| Controller.WebController.RenderPartialFile | controller.go:155-164 | as `RenderFile` without a layout and without setting the header |
| Controller.WebController.RenderJson | controller.go:171-184 | a string is the body; an encoded value is appended to the body; an encoding error is a 500 whose body is `Internal Server Error: ` and the error, with the status and that body written when nothing was sent before; the JSON header is set |
| Controller.WebController.RenderJsonp | controller.go:187-201 | as `RenderJson`, the encoded value appended as `callback(value)`; an encoding error is the same 500 with the error in its body; the JavaScript header is set |
| Controller.WebController.RenderText | controller.go:203-206 | the text is the body and the HTML header is set |
| Controller.WebController.RenderXml | controller.go:209-227 | a string is the body; an encoded value follows the given XML declaration, or the standard one when none is given; an encoding error is a 500 whose body is `Internal Server Error: ` and the error, with the status and that body written when nothing was sent before |
| Controller.WebController.GetLayout | controller.go:237-239 | the default layout is `"0"`, the application's layout |
| HostRouting.LayoutNeverConfigured | host.go:68-83 | as written: the layout is the `GetLayout` string unless that is `0` in any case; the fallback to the configured layout never applies, so the inherited `"0"` gives no layout |
| HostRouting.IntendedLayoutUsesGlobal | controller.go:233-239 | corrected: `"0"` in any case, the inherited default, means the configured layout, as `GetLayout`'s comment says; every other result gives the layout as written |
| HostRouting.AllowMethods | host.go:95-101 | an action's allowed methods are its `MethodFilter` entry, and GET and POST without one |
| HostRouting.ParamSuffix | host.go:128 | `k` parameters add `k` segments `/:a`, `/:b`, ... of three characters each |
| HostRouting.ParamRoutes | host.go:116-132 | the action route followed by one extension per parameter count, the `j`-th with `j` parameter segments |
| HostRouting.Patterns | host.go:103-132 | an action with `n` parameters has `n + 1` patterns, plus the base route for the default action |
| HostRouting.Records | host.go:134-150 | one record per pattern, each keyed by its pattern, all sharing the allowed methods and the controller information, without a handle |
| HostRouting.MethodRoutes | host.go:85-150 | a method that is not an action adds nothing, and one panics exactly when it is an action with a parameter kind other than `string` or `int` |
| HostRouting.Store | host.go:134-150 | writing records adds exactly their patterns to the table's keys |
| HostRouting.RegisterNext | host.go:85-151 | after a panic a further method changes nothing |
| HostRouting.RegisterStep | host.go:85-151 | the next method's records are stored, or its panic ends the registration |
| HostRouting.RegisterMethodsLast | host.go:85-151 | the last method is registered after all the others |
| HostRouting.PanicStep | host.go:123-125 | a method after a panic changes nothing |
| HostRouting.RegisterPanicStays | host.go:123-125 | once a method has panicked the later methods change nothing, and the records written before stay |
| HostRouting.Precheck | host.go:31-47 | registration goes ahead exactly when the base route starts with `/`, has at least two characters and the controller's name carries the configured prefix and suffix |
| HostRouting.PatternsShape | host.go:103-132 | the patterns are the base for the default action, then the action route and its parameter extensions in order |
| HostRouting.PatternsExample | host.go:103-132 | the default action `Index` with two parameters under `/p` has the patterns `/p`, `/p/index`, `/p/index/:a`, `/p/index/:a/:b` |
| HostRouting.MethodRoutesShape | host.go:85-150 | an action's records are one per pattern, in order, with the same allowed methods, the full parameter list, the action's names and no handle |
| HostRouting.NonActionAddsNothing | host.go:90-93 | a method that is not an action adds no route, whatever its parameters |
| HostRouting.MethodRoutesPaths | host.go:105-130 | under a valid base route every record of a method is a path of at least two characters |
| HostRouting.PatternsPaths | host.go:105-130 | under a valid base route every pattern is a path of at least two characters |
| HostRouting.StoreKeyed | host.go:134-150 | storing records of valid paths keeps every record keyed by its own pattern |
| HostRouting.StoreLast | host.go:134-150 | a record not followed by another for its pattern is the one found there |
| HostRouting.RegisterMethodsKeyed | host.go:85-151 | registering the methods keeps every record keyed by its own pattern |
| HostRouting.RegisterKeyed | host.go:30-152 | a registration keeps every record keyed by its own pattern |
| HostRouting.PrecheckPanicsFirst | host.go:31-37 | a base route that does not start with `/` or is shorter than two characters panics before anything is written |
| HostRouting.RootHandle | host.go:163-170 | `GET /` gets the default route's handle when that route exists, else the greeting |
| HostRouting.BindingBinds | host.go:154-171 | records that carry their handles, bound for every allowed method, with `GET /` bound to the root handle, make the tables bound |
| HostRouting.RootBinds | host.go:163-170 | binding `GET /` after the records keeps every record's bindings, because no record has the pattern `/` |
| HostRouting.Host.constructor | application.go:485-496 | a new host has the given router options, an empty router and no routes |
| HostRouting.Host.RegisterWebController | host.go:30-152 | the route table afterwards, and the panic, are those of `Register`; the router is untouched |
| HostRouting.Host.RegisterActions | host.go:85-151 | the method loop computes `RegisterMethods`: each action's records are written before the next method, and a panic stops it |
| HostRouting.Host.ActionRecords | host.go:90-150 | the records one method writes are `MethodRoutes` |
| HostRouting.Host.ParamPatterns | host.go:116-132 | the parameter loop accepts exactly the kinds `string` and `int`, and then gives the kinds and the routes with `/:a`, `/:b`, ... |
| HostRouting.Host.StoreRecords | host.go:134-150 | the records are written in order, a later one for a pattern replacing an earlier one |
| HostRouting.Host.GenerateRouteHandle | host.go:154-171 | every record gets the handle for its route, bound for each allowed method, `GET /` is bound to the root handle, and no other binding changes |
| HostRouting.Host.BindRecords | host.go:155-161 | each record, visited in any order, gets its handle and is bound for each allowed method; nothing else is bound |
| HostRouting.Host.BindMethods | host.go:157-159 | the handle is bound at the pattern for each allowed method, and nothing else changes |
| HostRouting.Host.RegisterResources | host.go:173-175 | the files under the directory are served by `GET` at `/<route>/*filepath` |
| HostRouting.ResourcePattern | host.go:174 | the resource pattern is `/`, the route and `/*filepath` |
| HostRouting.SelectHost | host.go:179-187 | a request goes to the host named by its host header up to the first `:`, else to the default host |
| HostRouting.SelectHostIgnoresPort | host.go:181-182 | the port in the host header does not influence the choice |
| HostRouting.FirstPieceBeforeColon | host.go:181 | the first piece of `domain:port` split at `:` is the domain |
| HostRouting.NoColonSplit | host.go:181 | a host header without `:` is its own first piece |
| Ini.ParamSpan | utils/ini/ini.go:28-30 | the longest run of key/value characters from a position: all inside qualify and the next character does not |
| Ini.BlankSpan | utils/ini/ini.go:30 | the longest run of `\s` characters from a position |
| Ini.ParamSpanAt | utils/ini/ini.go:28-30 | a run that ends where the characters stop qualifying is the one `ParamSpan` finds |
| Ini.BlankSpanAt | utils/ini/ini.go:30 | a blank run that ends where the blanks stop is the one `BlankSpan` finds |
| Ini.MatchSection | utils/ini/ini.go:23 | a recognised header is `[`, a non-empty name of `[a-z0-9-]`, `]` |
| Ini.MatchSectionComplete | utils/ini/ini.go:23 | every well-formed header is recognised, with its name |
| Ini.MatchParam | utils/ini/ini.go:28-30 | a recognised parameter has a non-empty key and a value, both of `[0-9a-zA-Z-_,:;|./]` |
| Ini.MatchParamSound | utils/ini/ini.go:30 | what is recognised really is key, blanks, `=`, blanks, value |
| Ini.MatchParamComplete | utils/ini/ini.go:30 | every well-formed parameter line is recognised, with its key and its value |
| Ini.ParseLine | utils/ini/ini.go:89-108 | a trimmed line is blank, else a header, else a parameter when it is no header, else ignored, each in exactly its case |
| Ini.HeaderLineParsed | utils/ini/ini.go:96-101 | a well-formed header line starts the named section |
| Ini.ParamLineParsed | utils/ini/ini.go:102-106 | a well-formed parameter line sets its key to its value |
| Ini.BadValueRejected | utils/ini/ini.go:28-30 | a value with a character outside the class, such as a blank inside it or `@`, makes the line no parameter line, so it is ignored |
| Ini.Start | utils/ini/ini.go:37-45 | before the first line there is only the unnamed section, empty and current |
| Ini.Step | utils/ini/ini.go:89-108 | one line keeps the current and the unnamed sections in existence |
| Ini.Apply | utils/ini/ini.go:89-108 | reading one line keeps the reader consistent |
| Ini.ReadAll | utils/ini/ini.go:58-73 | the state after reading every line keeps the reader consistent |
| Ini.HeaderStartsSection | utils/ini/ini.go:96-101 | a header makes a fresh, empty section current and discards one read earlier under that name |
| Ini.AssignmentSetsKey | utils/ini/ini.go:102-106 | a parameter line sets one key of the current section and changes nothing else |
| Ini.LastWriteWins | utils/ini/ini.go:106 | of two assignments to one key, the later one wins |
| Ini.StepTwice | utils/ini/ini.go:106 | two classified assignments to one key have the effect of the second |
| Ini.OtherLinesIgnored | utils/ini/ini.go:92-107 | blank lines and lines of neither form change nothing |
| Ini.NoHeadersPrefix | utils/ini/ini.go:66-72 | a prefix of header-free lines is header-free |
| Ini.BeforeAnyHeader | utils/ini/ini.go:41-45 | parameters before any header go into the unnamed section, which stays current and the only one |
| Ini.ReadAllLast | utils/ini/ini.go:66-72 | reading a file is reading all lines but the last, then the last |
| Ini.StepKeepsSections | utils/ini/ini.go:89-108 | only a header adds a section or changes the current one |
| Ini.IniConfig.constructor | utils/ini/ini.go:37-49 | `NewConfig` starts from the unnamed section and reads every line in turn: its state is `ReadAll(lines)` |
| Ini.IniConfig.ReadLine | utils/ini/ini.go:89-108 | `readLine` changes the state exactly as `Apply` says |
| Ini.IniConfig.GetSection | utils/ini/ini.go:76-86 | a section is found exactly when it exists; otherwise the error names it |
| Ini.GetString | utils/ini/ini.go:127-136 | a present, non-empty value is returned; otherwise the default when given; an error exactly when neither |
| Ini.GetInt | utils/ini/ini.go:142-155 | a present value is converted, and its conversion error returned even when a default is given; otherwise the default, or an error |
| Ini.GetBool | utils/ini/ini.go:162-174 | a present value is true exactly when it is `on` or `true` in any case; otherwise the default; an error exactly when neither |
| Ini.GetSlice | utils/ini/ini.go:180-189 | a present value is split at the separator; otherwise the default; an error exactly when neither |
| Ini.GetSliceJoin | utils/ini/ini.go:177-183 | the pieces of a slice join back into the stored value |
| Ini.GetIntIgnoresDefault | utils/ini/ini.go:144-148 | a present value that is not an integer is an error whatever the default |
| Ini.GetBoolExamples | utils/ini/ini.go:158-159 | `ON` and `True` read as true and `yes` as false |
| Ini.ReadThenGet | utils/ini/ini.go:89-136 | a file that ends in `key = value` makes `GetString` on the current section return that value, or the default when it is empty |
| Ini.ParamLineTrimmed | utils/ini/ini.go:91-102 | a parameter line has no blank at either end and is no header |
| Ini.ParamCharNotSpace | utils/ini/ini.go:28 | no key/value character is whitespace or `[` |
| Cheetah.StripPrefix | cheetah.go:103-111 | a name without the prefix at its start is rejected; otherwise the result is the name with the prefix removed |
| Cheetah.StripSuffix | cheetah.go:112-121 | an accepted name is the result followed by the suffix |
| Cheetah.StripAffixes | cheetah.go:102-123 | an accepted name is the prefix, the result and the suffix, and a name not starting with a non-empty prefix is rejected |
| Cheetah.ControllerName | cheetah.go:102-123 | an accepted controller type name is the configured prefix, the controller name and the configured suffix |
| Cheetah.ActionName | cheetah.go:127-153 | an action name starts with `A`-`Z` and is the configured prefix, the action name and the configured suffix; any other first character is rejected |
| Cheetah.StripComposed | cheetah.go:102-123 | prefix, core and suffix, with no earlier occurrence of the suffix, give the core back |
| Cheetah.SuffixFoundFirst | cheetah.go:116 | the suffix is located by its first occurrence, so a name holding it earlier as well is rejected |
| Cheetah.ControllerNameDefault | cheetah.go:100-123 | with prefix `""` and suffix `Controller`, `PostController` names the `Post` controller |
| Cheetah.ControllerNameEarlierSuffix | cheetah.go:114-118 | with suffix `Controller`, `ControllerXController` names no controller |
| Cheetah.ActionNameExamples | cheetah.go:127-153 | with prefix `Action`, `ActionIndex` names `Index`, `Action` names the empty action, `Actionindex` names `index`, and `actionIndex` and `Index` are no actions |
| Cheetah.CoerceOne | cheetah.go:70-78 | a `string` parameter takes the matched value; another kind takes its integer value, and panics exactly when the value is no integer |
| Cheetah.DefaultArg | cheetah.go:80-86 | a parameter no value was matched for gets `""` if it is a `string` and `1` otherwise |
| Cheetah.CoerceMatchedMeaning | cheetah.go:69-79 | the matched values become one argument each, each its own conversion, and the loop panics exactly when some value fails to convert |
| Cheetah.Defaults | cheetah.go:80-86 | one default per remaining parameter, each as its kind says |
| Cheetah.CoerceArguments | cheetah.go:66-87 | for the values a route can match, the conversion panics exactly when some `int` value is no integer; otherwise every parameter gets one argument: the matched ones converted, the rest defaulted |
| Cheetah.CoerceNoParameters | cheetah.go:67 | an action without parameters gets no arguments, whatever was matched |
| Cheetah.CoerceFailureStays | cheetah.go:73-76 | after values that all converted, one that does not makes the conversion panic with `Invalid Params` |
| Cheetah.CoerceMatchedFailure | cheetah.go:73-76 | the first failing value determines the panic of the matched-value loop |
| Cheetah.PanicPropagates | cheetah.go:69-79 | a panic among the earlier values is the loop's result |
| Cheetah.LastFails | cheetah.go:73-76 | a last value that fails to convert, after values that all converted, panics with `Invalid Params` |
| Cheetah.CoerceParams | cheetah.go:66-87 | the two conversion loops compute `Coerce`, including the index panic when more values are matched than the action has parameters |
| Cheetah.RunStep | controller.go:124-231 | one call of an action on its controller keeps it valid, and once the response is sent nothing more reaches the client; a redirect, an error or an encoding failure sends with its status (302, 404, 400, 403 or 500), a redirect setting `Location`; every other call writes nothing and leaves the status and the sent flag; a view, a partial view or a text sets the body to that output, JSON appends the encoded value, and a header is set under its canonical key |
| Cheetah.RunSteps | cheetah.go:89-91 | an action's calls, in order, write nothing once the response is sent; the response is sent when any call sends, and nothing is written when none does |
| Cheetah.Serve | cheetah.go:36-98 | `Init` comes first and `ResponseClient` last; the action runs exactly when `BeforeAction` did not return `false`, with its converted arguments; a panic occurs exactly when the CSRF check or the conversion panics; the client gets one response, and one sent by `Init` is the one it gets; on a panic only what `Init` wrote has been written and `ResponseClient` is not called, so the session is not saved (the router's panic handler, which answers instead, is outside the model) |
| Cheetah.RejectedRequest | cheetah.go:52-96 | a request failing the CSRF check gets the 400 answer and nothing else, whatever the action does |
| App.ModeOf | application.go:179-184 | the mode is development exactly when `mode` is `DEV` in any case, and production otherwise, including when the key is missing |
| App.BasePathOf | application.go:185-192 | a non-empty `base_path` wins, else the current base path, else the parent of the configuration file's directory; the result is never empty |
| App.OverlayPanics | application.go:199-205 | the section's only panic is a `server.protocol` that is present and neither HTTP nor HTTPS in any case, with that protocol in the message; otherwise the protocol is the value read |
| App.OverlayUnreadFields | application.go:275-299 | no key switches the cache, and `log.file_level` never sets the file target's level |
| App.FileLevelSetsLogLevel | application.go:356-359 | as written: a valid `log.file_level` overwrites the logger's level, after `log.level` |
| App.IntendedFileLevel | application.go:356-359 | corrected: a valid `log.file_level` sets the file target's level, which the file target is created with, and the logger's level comes from `log.level` alone; every other log field is as written |
| App.OnlyPositiveOverrides | application.go:266-283 | the session's maximum age and Redis's idle timeout change only for a valid, positive integer |
| App.EmptyOverlay | application.go:194-413 | an empty unnamed section leaves the whole configuration as it was |
| App.WithLogPath | application.go:451-456 | with logging on and no log path, the path becomes the log directory joined to the base path; otherwise nothing changes |
| App.ValidationIff | application.go:428-483 | validation panics with no message exactly when the base path is set, an HTTPS server's certificate and key files exist, the action prefix and suffix are not both empty, an enabled session has a name, and CSRF validation has the session on and all three parameter names |
| App.ShortMaskAccepted | application.go:470-472 | as written: a mask length below the recommended one neither panics nor is corrected, whatever the notice says |
| App.IntendedMaskRaised | application.go:470-472 | corrected: with CSRF validation on, the mask is at least the recommended 8 after validation, a long enough mask is kept, and nothing else differs from validation as written |
| App.DefaultsAccepted | application.go:78-162 | the default configuration passes validation once a base path is known, and its log path becomes the base path joined with `logs` (without Go's lexical cleaning) |
| App.LoadPanics | application.go:195-205 | when the protocol panics, the name, mode, base path and port are read and nothing after them |
| App.LoadCompletes | application.go:164-422 | otherwise the whole section is read, `resources` replaces the resources when present, and the configuration is then validated |
| App.LoadedBasePath | application.go:185-192 | after loading the base path is never empty, so its check never panics |
| App.LoadKeepsCache | application.go:164-419 | loading never changes whether the cache is on |
| App.HostError | application.go:582-597 | the host checks pass exactly when there is one host, or several and a default host |
| App.LoadedSessionHasCache | application.go:562-565 | starting from the defaults, an initialized application never fails the session's cache check |
| App.HostsStayValid | application.go:485-496 | hosts whose tables are unchanged stay well formed |
| App.HostsStayBound | application.go:617-622 | hosts whose tables are unchanged stay well formed and bound |
| App.Application.constructor | application.go:78-162 | a new application is uninitialized, in production mode, named `Cheetah Application`, with language `en`, no base path, no hosts, no default host and the default configuration |
| App.Application.LoadConfig | application.go:164-426 | the settings and the panic are those of `Load` on the parsed file, the state becomes initialized exactly when nothing panicked, and the hosts are untouched |
| App.Application.ParseSections | application.go:167-172 | the unnamed section and the `resources` lookup are those of the parsed file; the lookup fails exactly when there is no such section |
| App.Application.LoadSections | application.go:174-426 | the sections lead to the settings and panic of `Load`, and to the initialized state exactly when nothing panicked |
| App.Application.Install | application.go:424-425 | the loaded settings replace the old ones, and a completed load makes the application initialized |
| App.Application.LoadValues | application.go:174-422 | the settings read step by step are those of `Load` |
| App.Application.LoadBase | application.go:174-192 | the name, the mode and the base path are those of `BaseSettings` |
| App.Application.ReadConfig | application.go:194-413 | the configuration read is the overlay's, or, when the protocol panics, the configuration with only the port read, together with that panic |
| App.Application.LoadServer | application.go:194-213 | an unsupported protocol panics once the port is read; otherwise the port, protocol, certificate and key files are read |
| App.Application.ReadString | application.go:175-178 | a string key changes its setting exactly when it is present and non-empty |
| App.Application.ReadInt | application.go:276-279 | an integer key changes its setting exactly when it is a valid integer |
| App.Application.ReadPositiveInt | application.go:266-269 | an integer key that only a positive value may change |
| App.Application.ReadBool | application.go:258-261 | a boolean key, when present, sets its setting to whether it is `on` or `true` in any case |
| App.Application.LoadController | application.go:215-223 | the controller's prefix and suffix are read |
| App.Application.LoadAction | application.go:225-237 | the action's prefix, suffix and default are read |
| App.Application.LoadView | application.go:239-255 | the view's directory, suffix, layout and layout directory are read |
| App.Application.LoadSession | application.go:257-273 | the session's switch, name, positive maximum age and store are read |
| App.Application.LoadCache | application.go:275-299 | Redis's maximum idle count, positive idle timeout, network, address, password and database are read |
| App.Application.LoadCsrf | application.go:301-321 | CSRF's switch, mask length and parameter names are read |
| App.Application.LoadLog | application.go:323-359 | the log's switch, level, flag and file target are read, `log.file_level` last setting the logger's level |
| App.Application.LoadLogFile | application.go:336-355 | the file target's directory, name, path, maximum size and interval are read |
| App.Application.LoadLogMail | application.go:360-391 | the mail target's level, host, port, user, password, sender, recipient and subject are read |
| App.Application.LoadRouter | application.go:393-413 | the default route and the four router switches are read |
| App.Application.ValidateConfig | application.go:428-483 | the panic is `ValidationError` and the configuration `Validated` |
| App.Application.CheckServerAction | application.go:434-449 | an HTTPS server needs its certificate and then its key file, and the action prefix and suffix may not both be empty |
| App.Application.CheckSessionCsrf | application.go:458-482 | an enabled session needs a name; CSRF validation needs the session and then each of its three parameter names |
| App.Application.NewHost | application.go:485-496 | a fresh host with the configured router options and no routes is stored under the domain, and nothing else changes |
| App.Application.SetDefaultHost | cheetah.go:163-165 | the default host is replaced and nothing else changes |
| App.Application.RegisterRouteHandler | application.go:617-622 | every host generates its route handles, becoming bound and keeping its routes |
| App.Application.BindHost | application.go:619-621 | one host generates its route handles: it stays well formed, becomes bound and keeps its routes |
| App.Application.Run | application.go:498-615 | every host is bound, the state becomes running exactly when the start-up checks pass, the panic is `RunError`, and otherwise the server listens on `:<port>`, with TLS exactly under HTTPS, and serves the single host alone |
| App.Application.Start | application.go:503-610 | the start-up checks, the running state and the handler, once the route handles exist |
| App.Application.SetRunning | application.go:578 | the application becomes running and nothing else changes |
| App.Application.StartupCheck | application.go:503-565 | an uninitialized application, a log file that cannot be opened while logging, or a session without the cache panics, in that order |
| App.Application.Dispatch | application.go:582-610 | no host panics, one host serves alone, several need a default host and are dispatched by domain, on `:<port>` and with TLS exactly under HTTPS |
| Asset.Extra | asset.go:46 | the note about unused arguments is empty exactly when every argument was used |
| Asset.SprintfText | asset.go:46 | `Sprintf` copies text without `%` unchanged |
| Asset.SprintfVerb | asset.go:46 | a `%s` prints the next argument |
| Asset.SprintfVerbMissing | asset.go:111 | a `%s` with no argument left prints `%!s(MISSING)` |
| Asset.SprintfDone | asset.go:46 | text without `%` and no arguments is printed as it is |
| Asset.Attributes | asset.go:40-42 | one attribute per option key, in the given order, each `key="value"` for that key's value |
| Asset.AttributesCover | asset.go:40-42 | for a `range` order, every option appears as an attribute and every attribute is an option |
| Asset.Wrap | asset.go:48-50 | a non-empty condition wraps the tag in the Internet Explorer conditional comment; an empty one leaves the tag alone |
| Asset.WrapInjective | asset.go:113-115 | two tags wrapped under the same condition are equal only when the tags are |
| Asset.Fill2 | asset.go:91 | a format with two `%s` between `%`-free pieces, given two arguments, is the pieces with the arguments between them |
| Asset.Fill3 | asset.go:89 | the same with three verbs and three arguments |
| Asset.Fill4 | asset.go:39 | the same with four verbs and four arguments |
| Asset.Fill4Short | asset.go:104 | four verbs and only three arguments print `%!s(MISSING)` for the last verb |
| Asset.LinkFormatFilled | asset.go:34 | the link format gives `<link rel="R" type="T" href="H"/>` |
| Asset.LinkOptionsFormatFilled | asset.go:39 | the link format with options gives `<link rel="R" type="T" href="H" OPTIONS/>` |
| Asset.LinkOptionsFormatShort | asset.go:104 | the link format with options, filled with three arguments, ends in `%!s(MISSING)/>` |
| Asset.ScriptSrcFormatFilled | asset.go:91 | the source format gives `<script type="T" src="S"></script>` |
| Asset.ScriptBodyFormatFilled | asset.go:98 | the inline format gives `<script type="T">SCRIPT</script>` |
| Asset.CssAsset.constructor | asset.go:22-30 | a stylesheet link of type `text/css` for the address, without condition or options |
| Asset.CssAsset.Output | asset.go:32-52 | the link tag, with the options joined in `range` order as its last attribute when there are any, wrapped when there is a condition |
| Asset.CssAsset.Option | asset.go:54-57 | the option is set, the same asset is returned, and nothing else changes |
| Asset.CssAsset.Condition | asset.go:59-62 | the condition is replaced, the same asset is returned, and nothing else changes |
| Asset.CollectAttributes | asset.go:40-42 | the loop builds exactly `Attributes` for the `range` order |
| Asset.IntendedJsTagAgrees | asset.go:86-100 | without options the tag as written is the intended script element, linked by its source or holding its text |
| Asset.IntendedJsTagWithSource | asset.go:89 | with a source and options, the intended tag is the script format with options filled with the type, the source and the options, and is a script element |
| Asset.JsTagWithOptionsIsLink | asset.go:103-111 | with options, the tag as written is a `<link` element and differs from the intended script element |
| Asset.JsAsset.constructor | asset.go:72-80 | a script of type `text/javascript` with the source and text given, without condition or options |
| Asset.JsAsset.Output | asset.go:82-117 | without options, the source or inline script tag; with options, the link format filled with the type, the source or text and the options, its last verb missing; wrapped when there is a condition |
| Asset.JsAsset.Option | asset.go:119-122 | the option is set, the same asset is returned, and nothing else changes |
| Asset.JsAsset.Condition | asset.go:124-127 | the condition is replaced, the same asset is returned, and nothing else changes |

## Left out

- Server I/O: `http.ListenAndServe` and `ListenAndServeTLS` and their errors, the logger with its file and mail targets, SMTP authentication, the Redis pool and cache, and the session store backend are external services. `run` stops at the `Serving` value that names the address, TLS, certificate files and handler; whether the log file opens is a parameter.
- File access: the INI reader is given the file's lines instead of reading the file (utils/ini/ini.go:58-73). The existence checks of `fileutil.IsFile` are a parameter `files`, the set of paths that are files.
- httprouter: matching paths against patterns, trailing-slash and fixed-path redirects, 404/405 dispatch and `ServeFiles` belong to the library. The router table is a map from (method, pattern) to the bound handle, and its options are recorded as given (router.go:16-28). httprouter's `Handle` panics when a (method, pattern) pair is registered twice or conflicts with a registered pattern, for example a `MethodFilter` that lists `GET` twice; the model's map keeps the last handle instead.
- Reflection: a controller is a descriptor with its type name, package path, methods with their parameter kinds, and what `MethodFilter` and `GetLayout` return. An action body is a list of calls on the controller. The package path under `GOPATH` is an input.
- Randomness: the CSRF mask and the fresh 32-byte true token are parameters. `GenerateRandomByte` and `GenerateRandomString` (utils/string/string.go:67-79) are not modelled.
- Template rendering and encoders: mustache, `json.Marshal` and `xml.MarshalIndent` are outside the model, and their results are parameters. `Render`, `RenderData`, `RenderPartial` and `BeforeResponse` (controller.go:76-78, 124-131, 151-153) only call the template engine, so they are not modelled; view-file resolution (`RenderFile`, `RenderPartialFile`) is.
- `fmt`: `Sprintf` models only the `%s` verb with string arguments, including `%!s(MISSING)` and `%!(EXTRA ...)`. The body `sendBody` writes with `fmt.Fprintf` is written literally; the expansion of `%` inside it is not modelled.
- Map iteration order: the order in which Go's `range` visits a map (asset options, hosts when binding routes) is a parameter, constrained only to list every key once.
- Concurrency: one goroutine per request, the shared `info.Log` write in the handler (cheetah.go:38-43) and the log file's `Crontab` goroutine are not modelled. The log line itself is left out with the logger.
- Characters: strings are sequences of characters and the case mappings act on ASCII letters only, so bytes and runes coincide.
- The `Asset` interface (asset.go:8-12) is not declared; `CssAsset` and `JsAsset` are two classes with the same three methods.
- Setters and getters that only store or return a field are not modelled: the handler setters of host.go:18-28, `SetErrorHandler` and `SetSessionStore` and the getters of cheetah.go:155-181, the getters of config.go, and view.go's constructor. `Init`, `Run` and `NewHost` of cheetah.go:24-34 forward to `loadConfig`, `run` and `newHost`, which are modelled.
- Response.StatusText: Go's `http.StatusText` names every registered status code; the model's table holds only 200, 302, 400, 403, 404 and 500, the statuses the framework itself sends, and gives `""` for every other code.
- GoLib.PathJoin / GoLib.PathDir: `path.Clean` is not applied, so `.` elements, `..` elements, doubled and trailing slashes are kept. The members built on them inherit this: HostRouting.PackagePath, HostRouting.ViewPath, App.WithLogPath, App.Validated, App.DefaultsAccepted and Controller.WebController.RenderFile / RenderPartialFile. Their strings can differ from Go's (for a base path of `.` the log path is `./logs` where Go gives `logs`), but they name the same files.
- Cheetah.Serve: after a panic, net/http and httprouter hand control to the router's panic handler, which writes the error page; that handler is not modelled, so the model states only that nothing after `Init` was written and that `ResponseClient` (and with it the session save) did not run.
- handler.go: the error page uses `runtime.Caller`, `debug.Stack` and mustache; it is not part of this model.
- App.Application.Dispatch: the handler for several hosts is described only as dispatch by domain (`HostRouting.SelectHost` states that choice); the `http.Handler` value itself is not built.
- The logger's flag and level constants come from the logging library. Their values are a parameter of the default configuration.

## Findings

| source | as written | input that shows it | evidently intended | confidence | as-written member | corrected member |
|---|---|---|---|---|---|---|
| asset.go:103-109 | with options, the script formats chosen at lines 86-100 are overridden by the stylesheet link format, which has four `%s` verbs for three arguments | `NewJsAsset("a.js", "")` with one option `defer="defer"` gives `<link rel="text/javascript" type="a.js" href="defer="defer"" %!s(MISSING)/>` | `<script type="text/javascript" src="a.js" defer="defer"></script>`, the script element with the options as attributes | not executed | Asset.JsTagWithOptionsIsLink | Asset.IntendedJsTagWithSource |
| host.go:68-83 | a `GetLayout` result of `0` (in any case) is skipped, so `viewLayout` stays `""` and the later comparison with `"0"` can never succeed: the fallback to the configured layout is dead code | a controller that keeps the inherited `GetLayout` (controller.go:233-239, returning `"0"`) with `view.layout = main.html` gets the layout `""` | `"0"` means the configured layout, as `GetLayout`'s comment says, so the controller gets `main.html` | not executed | HostRouting.LayoutNeverConfigured | HostRouting.IntendedLayoutUsesGlobal |
| application.go:356-359 | the value of `log.file_level` is stored in the logger's level, overwriting `log.level`, while the file target is created with `logFileLevel` (application.go:522), which no key sets | `log.level = 1` and `log.file_level = 4` give the logger level 4 and leave the file target's level at its default | `log.file_level` sets the file target's level and `log.level` stays 1 | not executed | App.FileLevelSetsLogLevel | App.IntendedFileLevel |
| application.go:470-472 | a CSRF mask shorter than 8 prints that it will be set to 8, but the length is left as it is | CSRF validation on with `csrf.mask_length = 4` keeps a mask length of 4 | the mask length becomes 8, as the notice says | not executed | App.ShortMaskAccepted | App.IntendedMaskRaised |
