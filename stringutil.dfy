/**
 * The string helpers of package `stringutil`: rune-based substrings and
 * first-letter case changes. Characters stand for runes; the case changes look
 * at ASCII letters only, as the Go code does.
 */
module StringUtil {
  import opened GoLib

  function Min(a: int, b: int): int { if a <= b then a else b }

  function Max(a: int, b: int): int { if a <= b then b else a }

  /** `x` clamped into `[0, n]`. */
  function Clamp(x: int, n: nat): (r: nat)
    ensures r <= n
    ensures 0 <= x <= n ==> r == x
  {
    if x < 0 then 0 else if x > n then n else x
  }

  /**
   * The slice bounds `SubString` uses for a string of `rl` runes: a negative
   * start is rebased to `rl - 1 + start`, the end is `start + length`, the two
   * are swapped when the length is negative and both are clamped into `[0, rl]`.
   */
  function SubStringRange(rl: nat, start: int, length: int): (r: (nat, nat))
    ensures r.0 <= r.1 <= rl
    ensures var st := if start < 0 then rl - 1 + start else start;
            r == (Clamp(Min(st, st + length), rl), Clamp(Max(st, st + length), rl))
  {
    var st := if start < 0 then rl - 1 + start else start;
    var end := st + length;
    var (lo, hi) := if st > end then (end, st) else (st, end);
    var lo' := if lo < 0 then 0 else lo;
    var lo'' := if lo' > rl then rl else lo';
    var hi' := if hi < 0 then 0 else hi;
    var hi'' := if hi' > rl then rl else hi';
    (lo'', hi'')
  }

  /** `SubString(s, start, length)`: never out of range, the slice `SubStringRange` selects. */
  function SubString(s: string, start: int, length: int): (r: string)
    ensures |r| <= |s|
    ensures var b := SubStringRange(|s|, start, length); r == s[b.0..b.1]
  {
    var b := SubStringRange(|s|, start, length);
    s[b.0..b.1]
  }

  /** The test case of string_test.go. */
  lemma SubStringExample()
    ensures SubString("ABCDEFG", 1, 5) == "BCDEF"
  {
  }

  /** With a non-negative start and length the result is the clamped slice `[start, start+length)`. */
  lemma SubStringForward(s: string, start: nat, length: nat)
    ensures SubString(s, start, length) == s[Min(start, |s|)..Min(start + length, |s|)]
  {
  }

  /** Dropping the first `k` runes, as the name-stripping code does. */
  lemma SubStringSuffix(s: string, k: nat)
    requires k <= |s|
    ensures SubString(s, k, |s| - k) == s[k..]
  {
  }

  /** Keeping the first `k` runes, as the suffix-stripping code does. */
  lemma SubStringPrefix(s: string, k: nat)
    requires k <= |s|
    ensures SubString(s, 0, k) == s[..k]
  {
  }

  /** A negative start counts from one before the end: -1 starts at the second-to-last rune. */
  lemma SubStringNegativeStart(s: string, start: int, length: nat)
    requires start < 0 && 0 <= |s| - 1 + start
    ensures SubString(s, start, length) == s[|s| - 1 + start..Min(|s| - 1 + start + length, |s|)]
  {
  }

  /** A negative length selects the runes before `start`. */
  lemma SubStringNegativeLength(s: string, start: nat, length: int)
    requires length < 0 && start <= |s| && 0 <= start + length
    ensures SubString(s, start, length) == s[start + length..start]
  {
  }

  /** `UpperFirst`: only the first character changes, and only when it is `a`-`z`. */
  function UpperFirst(s: string): (r: string)
    ensures |r| == |s|
    ensures s != "" ==> r[0] == ToUpper(s[0]) && r[1..] == s[1..]
    ensures s != "" && !IsLower(s[0]) ==> r == s
  {
    if |s| == 0 then ""
    else
      var c := s[0];
      if 'a' <= c <= 'z' then
        SubStringSuffix(s, 1);
        [(c as int - 32) as char] + SubString(s, 1, |s| - 1)
      else s
  }

  /** `LowerFirst`: only the first character changes, and only when it is `A`-`Z`. */
  function LowerFirst(s: string): (r: string)
    ensures |r| == |s|
    ensures s != "" ==> r[0] == ToLower(s[0]) && r[1..] == s[1..]
    ensures s != "" && !IsUpper(s[0]) ==> r == s
  {
    if |s| == 0 then ""
    else
      var c := s[0];
      if 'A' <= c <= 'Z' then
        SubStringSuffix(s, 1);
        [(c as int + 32) as char] + SubString(s, 1, |s| - 1)
      else s
  }

  /** The test cases of string_test.go, and the empty string. */
  lemma FirstLetterExamples()
    ensures UpperFirst("abcdefg") == "Abcdefg"
    ensures LowerFirst("ABCDEFG") == "aBCDEFG"
    ensures UpperFirst("") == "" && LowerFirst("") == ""
  {
    var u := UpperFirst("abcdefg");
    assert u[0] == 'A' && u[1..] == "bcdefg";
    assert u == [u[0]] + u[1..];
    var l := LowerFirst("ABCDEFG");
    assert l[0] == 'a' && l[1..] == "BCDEFG";
    assert l == [l[0]] + l[1..];
  }

  /** Lowering the first letter undoes raising it, and vice versa. */
  lemma FirstLetterRoundTrip(s: string)
    ensures s != "" && IsLower(s[0]) ==> LowerFirst(UpperFirst(s)) == s
    ensures s != "" && IsUpper(s[0]) ==> UpperFirst(LowerFirst(s)) == s
  {
    if s != "" && IsLower(s[0]) {
      var t := LowerFirst(UpperFirst(s));
      assert t[0] == s[0] && t[1..] == s[1..];
      assert t == [t[0]] + t[1..] && s == [s[0]] + s[1..];
    }
    if s != "" && IsUpper(s[0]) {
      var t := UpperFirst(LowerFirst(s));
      assert t[0] == s[0] && t[1..] == s[1..];
      assert t == [t[0]] + t[1..] && s == [s[0]] + s[1..];
    }
  }
}
