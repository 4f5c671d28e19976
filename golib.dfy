/**
 * Models of the Go standard-library routines the framework calls
 * (package strings, strconv and the result conventions of Go code).
 *
 * Strings are sequences of characters and only the ASCII behaviour of the
 * case-sensitive routines is modelled: upper and lower case are `A`-`Z` and
 * `a`-`z`, so bytes and characters coincide.
 */
module GoLib {

  /** An optional value, for Go's "comma ok" results and variadic defaults. */
  datatype Option<T> = None | Some(value: T)

  /** A Go `(value, error)` pair: the value, or the error's message. */
  datatype Result<T> = Ok(value: T) | Err(msg: string)

  /** The outcome of Go code that may panic: the value returned, or the panic's reason. */
  datatype Outcome<T> = Returned(value: T) | Panicked(reason: string)

  /** A Go `byte`. */
  type byte = x: int | 0 <= x < 256

  // ---------------------------------------------------------------------
  // Characters

  predicate IsUpper(c: char) { 'A' <= c <= 'Z' }

  predicate IsLower(c: char) { 'a' <= c <= 'z' }

  predicate IsDigit(c: char) { '0' <= c <= '9' }

  /** `unicode.ToLower` restricted to ASCII letters. */
  function ToLower(c: char): (r: char)
    ensures IsUpper(c) ==> IsLower(r) && r as int == c as int + 32
    ensures !IsUpper(c) ==> r == c
    ensures !IsUpper(r)
  {
    if IsUpper(c) then (c as int + 32) as char else c
  }

  /** `unicode.ToUpper` restricted to ASCII letters. */
  function ToUpper(c: char): (r: char)
    ensures IsLower(c) ==> IsUpper(r) && r as int == c as int - 32
    ensures !IsLower(c) ==> r == c
    ensures !IsLower(r)
  {
    if IsLower(c) then (c as int - 32) as char else c
  }

  /** `strings.ToLower`, ASCII letters only. */
  function LowerString(s: string): (r: string)
    ensures |r| == |s|
    ensures forall i :: 0 <= i < |s| ==> r[i] == ToLower(s[i])
  {
    seq(|s|, i requires 0 <= i < |s| => ToLower(s[i]))
  }

  /** `strings.EqualFold`: equality under (ASCII) case folding. */
  predicate EqualFold(a: string, b: string)
  {
    LowerString(a) == LowerString(b)
  }

  lemma EqualFoldExamples()
    ensures EqualFold("get", "GET") && EqualFold("Head", "HEAD")
    ensures !EqualFold("GET", "POST") && !EqualFold("", "DEV")
  {
    assert LowerString("get") == "get";
    assert LowerString("GET") == "get";
    assert LowerString("Head") == "head";
    assert LowerString("HEAD") == "head";
    assert LowerString("GET")[0] != LowerString("POST")[0];
  }

  /** Whitespace as `unicode.IsSpace` defines it. */
  predicate IsSpace(c: char)
  {
    c == '\t' || c == '\n' || c == '\U{000B}' || c == '\U{000C}' || c == '\r' || c == ' '
    || c == '\U{0085}' || c == '\U{00A0}' || c == '\U{1680}' || ('\U{2000}' <= c <= '\U{200A}')
    || c == '\U{2028}' || c == '\U{2029}' || c == '\U{202F}' || c == '\U{205F}' || c == '\U{3000}'
  }

  predicate AllSpace(s: string)
  {
    forall i :: 0 <= i < |s| ==> IsSpace(s[i])
  }

  // ---------------------------------------------------------------------
  // Searching

  /** `sub` occurs in `s` starting at index `i`. */
  predicate OccursAt(s: string, sub: string, i: int)
  {
    0 <= i && i + |sub| <= |s| && s[i..i + |sub|] == sub
  }

  /** The first occurrence of `sub` in `s` at or after `from`, or -1. */
  function IndexFrom(s: string, sub: string, from: nat): (r: int)
    ensures r == -1 || (from <= r && OccursAt(s, sub, r))
    ensures r == -1 ==> forall j :: from <= j ==> !OccursAt(s, sub, j)
    ensures r != -1 ==> forall j :: from <= j < r ==> !OccursAt(s, sub, j)
    decreases |s| - from
  {
    if from + |sub| > |s| then -1
    else if s[from..from + |sub|] == sub then from
    else IndexFrom(s, sub, from + 1)
  }

  /** `strings.Index`: the index of the first occurrence of `sub` in `s`, or -1. */
  function Index(s: string, sub: string): (r: int)
    ensures r == -1 <==> forall j :: !OccursAt(s, sub, j)
    ensures r != -1 ==> OccursAt(s, sub, r) && forall j :: 0 <= j < r ==> !OccursAt(s, sub, j)
  {
    IndexFrom(s, sub, 0)
  }

  /** A position where the first character differs is skipped. */
  lemma IndexFromSkip(s: string, sub: string, from: nat)
    requires |sub| > 0 && from + |sub| <= |s| && s[from] != sub[0]
    ensures IndexFrom(s, sub, from) == IndexFrom(s, sub, from + 1)
  {
    assert s[from..from + |sub|][0] != sub[0];
  }

  /** A search starting where `sub` occurs finds it there. */
  lemma IndexFromHit(s: string, sub: string, from: nat)
    requires OccursAt(s, sub, from)
    ensures IndexFrom(s, sub, from) == from
  {
  }

  /** `strings.HasPrefix`. */
  predicate HasPrefix(s: string, prefix: string)
  {
    |prefix| <= |s| && s[..|prefix|] == prefix
  }

  lemma IndexZeroIsPrefix(s: string, sub: string)
    ensures Index(s, sub) == 0 <==> HasPrefix(s, sub)
  {
    if HasPrefix(s, sub) {
      assert OccursAt(s, sub, 0);
    }
  }

  // ---------------------------------------------------------------------
  // Trimming, replacing, splitting

  /** Drops the leading whitespace of `s`. */
  function TrimLeft(s: string): (r: string)
    ensures |r| <= |s| && r == s[|s| - |r|..]
    ensures AllSpace(s[..|s| - |r|])
    ensures r == [] || !IsSpace(r[0])
  {
    if s != [] && IsSpace(s[0]) then
      var t := TrimLeft(s[1..]);
      assert s[1..][..|s[1..]| - |t|] == s[1..|s| - |t|];
      t
    else s
  }

  /** Drops the trailing whitespace of `s`. */
  function TrimRight(s: string): (r: string)
    ensures |r| <= |s| && r == s[..|r|]
    ensures AllSpace(s[|r|..])
    ensures r == [] || !IsSpace(r[|r| - 1])
  {
    if s != [] && IsSpace(s[|s| - 1]) then
      var t := TrimRight(s[..|s| - 1]);
      assert s[..|s| - 1][..|t|] == s[..|t|];
      assert s[|t|..] == s[..|s| - 1][|t|..] + [s[|s| - 1]];
      t
    else s
  }

  /** `strings.TrimSpace`. */
  function TrimSpace(s: string): (r: string)
    ensures r == [] || (!IsSpace(r[0]) && !IsSpace(r[|r| - 1]))
    ensures |r| <= |s|
  {
    TrimRight(TrimLeft(s))
  }

  /** A text with no whitespace at either end is its own trim. */
  lemma TrimSpaceKeeps(s: string)
    requires s == [] || (!IsSpace(s[0]) && !IsSpace(s[|s| - 1]))
    ensures TrimSpace(s) == s
  {
    assert TrimLeft(s) == s;
  }

  /** A text cut at `a`, around the character at `b`, and at `c`. */
  lemma CutAt(s: string, a: int, b: int, c: int)
    requires 0 <= a <= b < c <= |s|
    ensures s == s[..a] + s[a..b] + [s[b]] + s[b + 1..c] + s[c..]
  {
    assert s[a..] == s[a..b] + [s[b]] + s[b + 1..c] + s[c..];
  }

  /** `strings.Replace(s, oldC, newC, -1)` for one-character `oldC` and `newC`. */
  function ReplaceChar(s: string, oldC: char, newC: char): (r: string)
    ensures |r| == |s|
    ensures forall i :: 0 <= i < |s| ==> r[i] == (if s[i] == oldC then newC else s[i])
  {
    seq(|s|, i requires 0 <= i < |s| => if s[i] == oldC then newC else s[i])
  }

  lemma {:induction false} ReplaceCharRoundTrip(s: string, a: char, b: char)
    requires b !in s
    ensures ReplaceChar(ReplaceChar(s, a, b), b, a) == s
    ensures a != b ==> a !in ReplaceChar(s, a, b)
  {
    var t := ReplaceChar(s, a, b);
    forall i | 0 <= i < |s| ensures ReplaceChar(t, b, a)[i] == s[i] {
      assert s[i] != b;
    }
  }

  /** `strings.Join`. */
  function Join(parts: seq<string>, sep: string): string
  {
    if |parts| == 0 then ""
    else if |parts| == 1 then parts[0]
    else parts[0] + sep + Join(parts[1..], sep)
  }

  /** `strings.Split`; an empty separator splits after every character. */
  function Split(s: string, sep: string): (r: seq<string>)
    ensures sep != "" ==> |r| >= 1
    decreases |s|
  {
    if sep == "" then seq(|s|, i requires 0 <= i < |s| => [s[i]])
    else
      var i := Index(s, sep);
      if i < 0 then [s] else [s[..i]] + Split(s[i + |sep|..], sep)
  }

  /** Joining the pieces of a split with the same separator gives the string back. */
  lemma {:induction false} SplitJoin(s: string, sep: string)
    ensures Join(Split(s, sep), sep) == s
    decreases |s|
  {
    if sep == "" {
      SplitEmptyJoin(s);
    } else {
      var i := Index(s, sep);
      if i >= 0 {
        SplitStep(s, sep);
        var rest := s[i + |sep|..];
        SplitJoin(rest, sep);
        JoinCons(s[..i], Split(rest, sep), sep);
        CutAround(s, sep, i);
      }
    }
  }

  /** Joining a piece in front of at least one more. */
  lemma JoinCons(p: string, parts: seq<string>, sep: string)
    requires |parts| >= 1
    ensures Join([p] + parts, sep) == p + sep + Join(parts, sep)
  {
    assert ([p] + parts)[1..] == parts;
  }

  /** A text is the part before an occurrence, the occurrence and the part after. */
  lemma CutAround(s: string, sub: string, i: int)
    requires OccursAt(s, sub, i)
    ensures s == s[..i] + sub + s[i + |sub|..]
  {
    assert s == s[..i] + s[i..i + |sub|] + s[i + |sub|..];
  }

  lemma {:induction false} SplitEmptyJoin(s: string)
    ensures Join(Split(s, ""), "") == s
  {
    if |s| > 1 {
      SplitEmptyJoin(s[1..]);
      assert Split(s, "")[1..] == Split(s[1..], "");
      assert s == [s[0]] + s[1..];
    }
  }

  /** One step of a split by a non-empty separator that occurs in the text. */
  lemma SplitStep(s: string, sep: string)
    requires sep != "" && Index(s, sep) >= 0
    ensures Index(s, sep) + |sep| <= |s|
    ensures Split(s, sep) == [s[..Index(s, sep)]] + Split(s[Index(s, sep) + |sep|..], sep)
  {
  }

  /** The pieces after the first of a split are the pieces of the text after the first separator. */
  lemma SplitLater(s: string, sep: string, k: nat)
    requires sep != "" && 0 < k < |Split(s, sep)|
    ensures Index(s, sep) >= 0 && Index(s, sep) + |sep| <= |s|
    ensures k - 1 < |Split(s[Index(s, sep) + |sep|..], sep)|
    ensures Split(s, sep)[k] == Split(s[Index(s, sep) + |sep|..], sep)[k - 1]
  {
    SplitStep(s, sep);
  }

  /** The first piece of a split by a non-empty separator is free of it. */
  lemma FirstPieceAvoidsSep(s: string, sep: string)
    requires sep != ""
    ensures Index(Split(s, sep)[0], sep) == -1
  {
    if Index(s, sep) >= 0 {
      SplitStep(s, sep);
      BeforeFirstOccurrence(s, sep);
    }
  }

  /** Every piece of a split by a non-empty separator is free of it. */
  lemma {:induction false} SplitPiecesAvoidSep(s: string, sep: string, k: nat)
    requires sep != "" && k < |Split(s, sep)|
    ensures Index(Split(s, sep)[k], sep) == -1
    decreases |s|
  {
    if k == 0 {
      FirstPieceAvoidsSep(s, sep);
    } else {
      SplitLater(s, sep, k);
      SplitPiecesAvoidSep(s[Index(s, sep) + |sep|..], sep, k - 1);
    }
  }

  /** The text before the first occurrence of `sep` does not contain `sep`. */
  lemma BeforeFirstOccurrence(s: string, sep: string)
    requires sep != "" && Index(s, sep) >= 0
    ensures Index(s[..Index(s, sep)], sep) == -1
  {
    var i := Index(s, sep);
    var p := s[..i];
    forall j | OccursAt(p, sep, j) ensures false {
      assert s[j..j + |sep|] == p[j..j + |sep|];
      assert OccursAt(s, sep, j) && j < i;
    }
  }

  // ---------------------------------------------------------------------
  // Slash-separated paths (package path), without lexical cleaning

  /** The index of the last `c` in `s`, or -1. */
  function LastIndexOf(s: string, c: char): (r: int)
    ensures -1 <= r < |s|
    ensures r >= 0 ==> s[r] == c && forall j :: r < j < |s| ==> s[j] != c
    ensures r == -1 ==> c !in s
  {
    if s == "" then -1
    else if s[|s| - 1] == c then |s| - 1
    else LastIndexOf(s[..|s| - 1], c)
  }

  function NonEmpty(elems: seq<string>): (r: seq<string>)
    ensures forall i :: 0 <= i < |r| ==> r[i] != ""
  {
    if elems == [] then []
    else (if elems[0] == "" then [] else [elems[0]]) + NonEmpty(elems[1..])
  }

  /** `path.Join`: the non-empty elements separated by slashes. */
  function PathJoin(elems: seq<string>): string
  {
    Join(NonEmpty(elems), "/")
  }

  /** `path.Dir`: everything before the last slash; `/` for a root entry, `.` without a slash. */
  function PathDir(p: string): (r: string)
    ensures r != ""
    ensures '/' !in p ==> r == "."
  {
    var i := LastIndexOf(p, '/');
    if i < 0 then "." else if i == 0 then "/" else p[..i]
  }

  /** The last `c` is the one after which no `c` follows. */
  lemma {:induction false} LastIndexOfSplit(a: string, c: char, b: string)
    requires c !in b
    ensures LastIndexOf(a + [c] + b, c) == |a|
    decreases |b|
  {
    var s := a + [c] + b;
    if b != [] {
      assert s[..|s| - 1] == a + [c] + b[..|b| - 1];
      assert s[|s| - 1] == b[|b| - 1];
      LastIndexOfSplit(a, c, b[..|b| - 1]);
    }
  }

  lemma PathDirExamples()
    ensures PathDir("/app/conf/app.ini") == "/app/conf"
    ensures PathDir("/app/conf") == "/app"
    ensures PathDir("/app") == "/" && PathDir("app.ini") == "."
  {
    assert "/app/conf/app.ini" == "/app/conf" + ['/'] + "app.ini";
    LastIndexOfSplit("/app/conf", '/', "app.ini");
    assert "/app/conf" == "/app" + ['/'] + "conf";
    LastIndexOfSplit("/app", '/', "conf");
    assert "/app" == "" + ['/'] + "app";
    LastIndexOfSplit("", '/', "app");
  }

  lemma PathJoinExample()
    ensures PathJoin(["/app", "", "logs"]) == "/app/logs"
  {
    var e := ["/app", "", "logs"];
    assert e[1..] == ["", "logs"] && e[1..][1..] == ["logs"] && e[1..][1..][1..] == [];
    assert NonEmpty(e) == ["/app", "logs"];
  }

  // ---------------------------------------------------------------------
  // Integers

  const MinInt: int := -0x8000_0000_0000_0000
  const MaxInt: int := 0x7FFF_FFFF_FFFF_FFFF

  predicate AllDigits(s: string)
  {
    forall i :: 0 <= i < |s| ==> IsDigit(s[i])
  }

  /** The value of a string of decimal digits. */
  function DigitsValue(d: string): (v: nat)
    requires AllDigits(d)
  {
    if d == "" then 0
    else DigitsValue(d[..|d| - 1]) * 10 + (d[|d| - 1] as int - '0' as int)
  }

  /**
   * `strconv.Atoi` on a 64-bit platform: an optional sign followed by at
   * least one decimal digit, whose value lies in the range of `int`.
   */
  function Atoi(s: string): (r: Result<int>)
    ensures r.Ok? ==> MinInt <= r.value <= MaxInt
    ensures s == "" ==> r.Err?
    ensures r.Ok? && s[0] != '-' && s[0] != '+' ==> AllDigits(s) && r.value == DigitsValue(s)
  {
    var neg := |s| > 0 && s[0] == '-';
    var digits := if |s| > 0 && (s[0] == '-' || s[0] == '+') then s[1..] else s;
    if digits == "" || !AllDigits(digits) then Err("invalid syntax")
    else
      var v: int := if neg then 0 - DigitsValue(digits) as int else DigitsValue(digits);
      if MinInt <= v <= MaxInt then Ok(v) else Err("value out of range")
  }

  lemma AtoiExamples()
    ensures Atoi("1") == Ok(1) && Atoi("42") == Ok(42) && Atoi("-7") == Ok(-7)
    ensures Atoi("").Err? && Atoi("x").Err? && Atoi("-").Err? && Atoi("1a").Err?
  {
    assert DigitsValue("4") == 4;
    assert "42"[..1] == "4";
    assert "1a"[1] == 'a';
  }

  // ---------------------------------------------------------------------
  // Arithmetic facts about Euclidean division

  lemma {:induction false} MulAtLeast(n: int, k: nat)
    requires n > 0 && k >= 1
    ensures n * k >= n
  {
    if k > 1 {
      MulAtLeast(n, k - 1);
      assert n * k == n * (k - 1) + n;
    }
  }

  /** Quotient and remainder are determined by `x == n * q + r` with `0 <= r < n`. */
  lemma ModUnique(x: int, n: int, q: int, r: int)
    requires n > 0 && 0 <= r < n && x == n * q + r
    ensures x % n == r && x / n == q
  {
    var q0, r0 := x / n, x % n;
    assert x == n * q0 + r0;
    assert n * (q0 - q) == r - r0;
    if q0 > q {
      MulAtLeast(n, q0 - q);
    } else if q0 < q {
      MulAtLeast(n, q - q0);
    }
  }

  lemma ModShift(i: nat, n: nat)
    requires n > 0
    ensures (n + i) % n == i % n
  {
    ModUnique(n + i, n, i / n + 1, i % n);
  }

  lemma ModSmall(i: nat, n: nat)
    requires i < n
    ensures i % n == i
  {
    ModUnique(i, n, 0, i);
  }
}
