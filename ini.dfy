/**
 * The INI reader of utils/ini/ini.go: a line-oriented parser built on two
 * regular expressions, and the typed getters of a section.
 *
 * The file itself is not read: the reader is given its lines. The regular
 * expressions are modelled by the languages they accept, `\s` being the
 * ASCII whitespace class of RE2.
 */
module Ini {
  import opened GoLib

  // ---------------------------------------------------------------------
  // The two line forms

  /** A character of a section name: `[a-z0-9-]`. */
  predicate IsSectionChar(c: char)
  {
    IsLower(c) || IsDigit(c) || c == '-'
  }

  /** A character of a key or a value: `[0-9a-zA-Z-_,:;|./]`. */
  predicate IsParamChar(c: char)
  {
    IsDigit(c) || IsLower(c) || IsUpper(c) || c == '-' || c == '_' || c == ',' || c == ':' || c == ';'
    || c == '|' || c == '.' || c == '/'
  }

  /** RE2's `\s`: `[\t\n\f\r ]`. */
  predicate IsRegexSpace(c: char)
  {
    c == '\t' || c == '\n' || c == '\U{000C}' || c == '\r' || c == ' '
  }

  predicate AllSectionChars(s: string)
  {
    forall i :: 0 <= i < |s| ==> IsSectionChar(s[i])
  }

  predicate AllParamChars(s: string)
  {
    forall i :: 0 <= i < |s| ==> IsParamChar(s[i])
  }

  predicate AllBlank(s: string)
  {
    forall i :: 0 <= i < |s| ==> IsRegexSpace(s[i])
  }

  /** The end of the run of key/value characters of `s` that starts at `i`. */
  function ParamSpan(s: string, i: nat): (n: nat)
    requires i <= |s|
    ensures i <= n <= |s| && forall j :: i <= j < n ==> IsParamChar(s[j])
    ensures n < |s| ==> !IsParamChar(s[n])
    decreases |s| - i
  {
    if i == |s| || !IsParamChar(s[i]) then i else ParamSpan(s, i + 1)
  }

  /** The end of the run of `\s` characters of `s` that starts at `i`. */
  function BlankSpan(s: string, i: nat): (n: nat)
    requires i <= |s|
    ensures i <= n <= |s| && forall j :: i <= j < n ==> IsRegexSpace(s[j])
    ensures n < |s| ==> !IsRegexSpace(s[n])
    decreases |s| - i
  {
    if i == |s| || !IsRegexSpace(s[i]) then i else BlankSpan(s, i + 1)
  }

  /** A run that ends where the characters stop qualifying. */
  lemma {:induction false} ParamSpanAt(s: string, i: nat, n: nat)
    requires i <= n <= |s| && (forall j :: i <= j < n ==> IsParamChar(s[j])) && (n < |s| ==> !IsParamChar(s[n]))
    ensures ParamSpan(s, i) == n
    decreases n - i
  {
    if i < n {
      ParamSpanAt(s, i + 1, n);
    }
  }

  lemma {:induction false} BlankSpanAt(s: string, i: nat, n: nat)
    requires i <= n <= |s| && (forall j :: i <= j < n ==> IsRegexSpace(s[j])) && (n < |s| ==> !IsRegexSpace(s[n]))
    ensures BlankSpan(s, i) == n
    decreases n - i
  {
    if i < n {
      BlankSpanAt(s, i + 1, n);
    }
  }

  /** `^\[([a-z0-9-]+)\]$`: the section name of a header line. */
  function MatchSection(s: string): (r: Option<string>)
    ensures r.Some? ==> s == "[" + r.value + "]" && |r.value| > 0 && AllSectionChars(r.value)
  {
    if |s| >= 3 && s[0] == '[' && s[|s| - 1] == ']' && AllSectionChars(s[1..|s| - 1]) then
      assert s == "[" + s[1..|s| - 1] + "]";
      Some(s[1..|s| - 1])
    else None
  }

  /** Every well-formed header is recognised, with its name. */
  lemma MatchSectionComplete(name: string)
    requires |name| > 0 && AllSectionChars(name)
    ensures MatchSection("[" + name + "]") == Some(name)
  {
    var s := "[" + name + "]";
    assert s[1..|s| - 1] == name;
  }

  /** The text of a parameter line: key, blanks, `=`, blanks, value. */
  function ParamLine(key: string, blank1: string, blank2: string, value: string): string
  {
    key + blank1 + "=" + blank2 + value
  }

  /** Well-formed parts of a parameter line. */
  predicate ParamParts(key: string, blank1: string, blank2: string, value: string)
  {
    |key| > 0 && AllParamChars(key) && AllBlank(blank1) && AllBlank(blank2) && AllParamChars(value)
  }

  /** `^(P+)(\s)*=(\s)*(P*)$`: the key and the value of a parameter line. */
  function MatchParam(s: string): (r: Option<(string, string)>)
    ensures r.Some? ==> |r.value.0| > 0 && AllParamChars(r.value.0) && AllParamChars(r.value.1)
  {
    var n := ParamSpan(s, 0);
    var w1 := BlankSpan(s, n);
    if n == 0 || w1 == |s| || s[w1] != '=' then None
    else
      var w2 := BlankSpan(s, w1 + 1);
      if AllParamChars(s[w2..]) then Some((s[..n], s[w2..])) else None
  }

  /** What is recognised is a parameter line: the key and value with blanks and `=` between them. */
  lemma MatchParamSound(s: string)
    requires MatchParam(s).Some?
    ensures exists b1, b2 :: ParamParts(MatchParam(s).value.0, b1, b2, MatchParam(s).value.1)
                             && s == ParamLine(MatchParam(s).value.0, b1, b2, MatchParam(s).value.1)
  {
    var n := ParamSpan(s, 0);
    var w1 := BlankSpan(s, n);
    var w2 := BlankSpan(s, w1 + 1);
    var b1, b2 := s[n..w1], s[w1 + 1..w2];
    CutAt(s, n, w1, w2);
    assert [s[w1]] == "=";
    assert ParamParts(s[..n], b1, b2, s[w2..]);
  }

  /** Every parameter line is recognised, with its key and value. */
  lemma MatchParamComplete(key: string, blank1: string, blank2: string, value: string)
    requires ParamParts(key, blank1, blank2, value)
    ensures MatchParam(ParamLine(key, blank1, blank2, value)) == Some((key, value))
  {
    var s := ParamLine(key, blank1, blank2, value);
    var e := |key| + |blank1|;
    var v := e + 1 + |blank2|;
    assert |s| == v + |value|;
    assert forall j :: 0 <= j < |key| ==> s[j] == key[j];
    assert forall j :: |key| <= j < e ==> s[j] == blank1[j - |key|];
    assert s[e] == '=';
    assert forall j :: e < j < v ==> s[j] == blank2[j - e - 1];
    assert forall j :: v <= j < |s| ==> s[j] == value[j - v];
    ParamSpanAt(s, 0, |key|);
    BlankSpanAt(s, |key|, e);
    if v < |s| {
      assert IsParamChar(s[v]);
    }
    BlankSpanAt(s, e + 1, v);
    assert s[..|key|] == key;
    assert s[v..] == value;
  }

  /** What a line is, after trimming. */
  datatype Line = Blank | Header(name: string) | Assignment(key: string, value: string) | Ignored

  /** The classification `readLine` makes: blank, else a header, else a parameter, else nothing. */
  function ParseLine(line: string): (r: Line)
    ensures r == Blank <==> TrimSpace(line) == ""
    ensures r.Header? ==> TrimSpace(line) == "[" + r.name + "]"
    ensures r.Assignment? ==> MatchSection(TrimSpace(line)).None? && MatchParam(TrimSpace(line)) == Some((r.key, r.value))
    ensures r == Ignored <==> TrimSpace(line) != "" && MatchSection(TrimSpace(line)).None? && MatchParam(TrimSpace(line)).None?
  {
    var t := TrimSpace(line);
    if t == "" then Blank
    else match MatchSection(t)
      case Some(name) => Header(name)
      case None =>
        match MatchParam(t)
        case Some(kv) => Assignment(kv.0, kv.1)
        case None => Ignored
  }

  /** A well-formed header line starts the named section. */
  lemma HeaderLineParsed(name: string)
    requires |name| > 0 && AllSectionChars(name)
    ensures ParseLine("[" + name + "]") == Header(name)
  {
    var header := "[" + name + "]";
    TrimSpaceKeeps(header);
    MatchSectionComplete(name);
  }

  /**
   * A well-formed parameter line sets its key to its value (a line ending
   * in blanks after `=` is trimmed first, and is the same parameter).
   */
  lemma ParamLineParsed(key: string, blank1: string, blank2: string, value: string)
    requires ParamParts(key, blank1, blank2, value) && (value != "" || blank2 == "")
    ensures ParseLine(ParamLine(key, blank1, blank2, value)) == Assignment(key, value)
  {
    MatchParamComplete(key, blank1, blank2, value);
    ParamLineTrimmed(key, blank1, blank2, value);
  }

  /**
   * A value with a character outside the class (a blank inside it, `@`, ...)
   * makes the line no parameter line: `name = a b` and `mail = a@b` are ignored.
   */
  lemma BadValueRejected(key: string, blank1: string, blank2: string, value: string, c: char, rest: string)
    requires ParamParts(key, blank1, blank2, value) && !IsParamChar(c) && (value != "" || !IsRegexSpace(c))
    ensures MatchParam(ParamLine(key, blank1, blank2, value + [c] + rest)).None?
  {
    var tail := value + [c] + rest;
    var s := ParamLine(key, blank1, blank2, tail);
    var e := |key| + |blank1|;
    var v := e + 1 + |blank2|;
    assert |s| == v + |tail|;
    assert forall j :: 0 <= j < |key| ==> s[j] == key[j];
    assert forall j :: |key| <= j < e ==> s[j] == blank1[j - |key|];
    assert s[e] == '=';
    assert forall j :: e < j < v ==> s[j] == blank2[j - e - 1];
    assert s[v] == tail[0] == if value == "" then c else value[0];
    if value != "" {
      assert IsParamChar(value[0]);
    }
    ParamSpanAt(s, 0, |key|);
    BlankSpanAt(s, |key|, e);
    BlankSpanAt(s, e + 1, v);
    assert s[v..][|value|] == c;
  }

  // ---------------------------------------------------------------------
  // The reader's state

  /** A section's parameters. */
  type Params = map<string, string>

  /** The sections read so far and the key of the current one. */
  datatype Reading = Reading(sections: map<string, Params>, currentKey: string)

  /** The current section and the unnamed one exist. */
  predicate Consistent(st: Reading)
  {
    "" in st.sections && st.currentKey in st.sections
  }

  /** Before the first line: only the unnamed section, which is current. */
  function Start(): (st: Reading)
    ensures Consistent(st) && st.sections[""] == map[]
  {
    Reading(map["" := map[]], "")
  }

  /** The effect of one classified line on the reader's state. */
  function Step(st: Reading, l: Line): (r: Reading)
    requires Consistent(st)
    ensures Consistent(r)
  {
    match l
    case Header(name) => Reading(st.sections[name := map[]], name)
    case Assignment(key, value) =>
      Reading(st.sections[st.currentKey := st.sections[st.currentKey][key := value]], st.currentKey)
    case _ => st
  }

  /** The effect of one line on the reader's state. */
  function Apply(st: Reading, line: string): (r: Reading)
    requires Consistent(st)
    ensures Consistent(r)
  {
    Step(st, ParseLine(line))
  }

  /** The state after reading `lines` from the start. */
  function ReadAll(lines: seq<string>): (st: Reading)
    ensures Consistent(st)
    decreases |lines|
  {
    if lines == [] then Start() else Apply(ReadAll(lines[..|lines| - 1]), lines[|lines| - 1])
  }

  /** A header makes a fresh, empty section current, discarding one read earlier under that name. */
  lemma HeaderStartsSection(st: Reading, line: string)
    requires Consistent(st) && ParseLine(line).Header?
    ensures var name := ParseLine(line).name;
            Apply(st, line).currentKey == name && Apply(st, line).sections[name] == map[]
            && forall k :: k in st.sections && k != name ==> k in Apply(st, line).sections && Apply(st, line).sections[k] == st.sections[k]
  {
  }

  /** A parameter line sets one key of the current section and nothing else. */
  lemma AssignmentSetsKey(st: Reading, line: string)
    requires Consistent(st) && ParseLine(line).Assignment?
    ensures var r := Apply(st, line);
            var a := ParseLine(line);
            r.currentKey == st.currentKey && r.sections.Keys == st.sections.Keys
            && r.sections[st.currentKey] == st.sections[st.currentKey][a.key := a.value]
            && forall k :: k in st.sections && k != st.currentKey ==> r.sections[k] == st.sections[k]
  {
  }

  /** The last write to a key wins. */
  lemma LastWriteWins(st: Reading, first: string, second: string)
    requires Consistent(st)
    requires ParseLine(first).Assignment? && ParseLine(second).Assignment? && ParseLine(first).key == ParseLine(second).key
    ensures Apply(Apply(st, first), second) == Apply(st, second)
  {
    StepTwice(st, ParseLine(first), ParseLine(second));
  }

  lemma StepTwice(st: Reading, a: Line, b: Line)
    requires Consistent(st) && a.Assignment? && b.Assignment? && a.key == b.key
    ensures Step(Step(st, a), b) == Step(st, b)
  {
    var k := st.currentKey;
    assert st.sections[k][a.key := a.value][b.key := b.value] == st.sections[k][b.key := b.value];
  }

  /** Blank lines and lines of neither form change nothing. */
  lemma OtherLinesIgnored(st: Reading, line: string)
    requires Consistent(st) && (ParseLine(line) == Blank || ParseLine(line) == Ignored)
    ensures Apply(st, line) == st
  {
  }

  /** No line of `lines` is a header. */
  predicate NoHeaders(lines: seq<string>)
  {
    forall i :: 0 <= i < |lines| ==> !ParseLine(lines[i]).Header?
  }

  lemma NoHeadersPrefix(lines: seq<string>, n: nat)
    requires NoHeaders(lines) && n <= |lines|
    ensures NoHeaders(lines[..n])
  {
    assert forall i :: 0 <= i < n ==> lines[..n][i] == lines[i];
  }

  /** Parameters before the first header go into the unnamed section. */
  lemma {:induction false} BeforeAnyHeader(lines: seq<string>)
    requires NoHeaders(lines)
    ensures ReadAll(lines).currentKey == "" && ReadAll(lines).sections.Keys == {""}
    decreases |lines|
  {
    if lines != [] {
      var n := |lines| - 1;
      NoHeadersPrefix(lines, n);
      var st := ReadAll(lines[..n]);
      ReadAllLast(lines);
      BeforeAnyHeader(lines[..n]);
      var l := ParseLine(lines[n]);
      assert !l.Header?;
      StepKeepsSections(st, l);
      assert Apply(st, lines[n]) == Step(st, l);
    }
  }

  /** Reading a non-empty file is reading all but its last line, then the last line. */
  lemma ReadAllLast(lines: seq<string>)
    requires lines != []
    ensures ReadAll(lines) == Apply(ReadAll(lines[..|lines| - 1]), lines[|lines| - 1])
  {
  }

  /** Only a header adds a section or changes the current one. */
  lemma StepKeepsSections(st: Reading, l: Line)
    requires Consistent(st) && !l.Header?
    ensures Step(st, l).currentKey == st.currentKey && Step(st, l).sections.Keys == st.sections.Keys
  {
  }

  // ---------------------------------------------------------------------
  // The parsed file

  /** A parsed INI file: its sections and the current section's key. */
  class IniConfig {
    var filename: string
    var sections: map<string, Params>
    var currentKey: string

    function State(): Reading
      reads this
    {
      Reading(sections, currentKey)
    }

    ghost predicate Valid()
      reads this
    {
      Consistent(State())
    }

    /** `NewConfig`: the unnamed section, then every line in turn. */
    constructor (filename: string, lines: seq<string>)
      ensures Valid() && this.filename == filename && State() == ReadAll(lines)
    {
      this.filename := filename;
      sections := map["" := map[]];
      currentKey := "";
      new;
      var i := 0;
      while i < |lines|
        invariant 0 <= i <= |lines|
        invariant this.filename == filename
        invariant State() == ReadAll(lines[..i])
        modifies this
      {
        assert lines[..i + 1][..i] == lines[..i];
        ReadLine(lines[i]);
        i := i + 1;
      }
      assert lines[..i] == lines;
    }

    /** `readLine`: trims the line; a header starts a section, a parameter sets a key of the current one. */
    method ReadLine(line: string)
      requires Valid()
      modifies this
      ensures Valid() && State() == Apply(old(State()), line) && filename == old(filename)
    {
      var lineStr := TrimSpace(line);
      if |lineStr| == 0 {
        return;
      }
      var header := MatchSection(lineStr);
      if header.Some? {
        sections := sections[header.value := map[]];
        currentKey := header.value;
      } else {
        var param := MatchParam(lineStr);
        if param.Some? {
          sections := sections[currentKey := sections[currentKey][param.value.0 := param.value.1]];
        }
      }
    }

    /** `GetSection` (the key defaults to the unnamed section). */
    function GetSection(key: string): (r: Result<Params>)
      reads this
      ensures key in sections <==> r.Ok?
      ensures r.Ok? ==> r.value == sections[key]
      ensures r.Err? ==> r.msg == "The section named " + key + " does not exist."
    {
      if key in sections then Ok(sections[key]) else Err("The section named " + key + " does not exist.")
    }
  }

  // ---------------------------------------------------------------------
  // Typed getters of a section

  function Missing(key: string): string
  {
    "The param named " + key + " does not exist."
  }

  /** `GetString`: a present, non-empty value; else the default when one is given. */
  function GetString(params: Params, key: string, default: Option<string>): (r: Result<string>)
    ensures key in params && params[key] != "" ==> r == Ok(params[key])
    ensures (key !in params || params[key] == "") && default.Some? ==> r == Ok(default.value)
    ensures r.Err? <==> (key !in params || params[key] == "") && default.None?
  {
    if key in params && |params[key]| > 0 then Ok(params[key])
    else if default.Some? then Ok(default.value)
    else Err(Missing(key))
  }

  /** `GetInt`: a present value is converted, and its conversion error is returned even when a default is given. */
  function GetInt(params: Params, key: string, default: Option<int>): (r: Result<int>)
    ensures key in params ==> r == Atoi(params[key])
    ensures key !in params && default.Some? ==> r == Ok(default.value)
    ensures key !in params && default.None? ==> r.Err?
  {
    if key in params then
      match Atoi(params[key])
      case Ok(v) => Ok(v)
      case Err(e) => Err(e)
    else if default.Some? then Ok(default.value)
    else Err(Missing(key))
  }

  /** `GetBool`: a present value is true iff it is `on` or `true` in any case. */
  function GetBool(params: Params, key: string, default: Option<bool>): (r: Result<bool>)
    ensures key in params ==> r.Ok? && (r.value <==> EqualFold("on", params[key]) || EqualFold("true", params[key]))
    ensures key !in params && default.Some? ==> r == Ok(default.value)
    ensures r.Err? <==> key !in params && default.None?
  {
    if key in params then Ok(EqualFold("on", params[key]) || EqualFold("true", params[key]))
    else if default.Some? then Ok(default.value)
    else Err(Missing(key))
  }

  /** `GetSlice`: a present value split at the separator. */
  function GetSlice(params: Params, key: string, sep: string, default: Option<seq<string>>): (r: Result<seq<string>>)
    ensures key in params ==> r == Ok(Split(params[key], sep))
    ensures key !in params && default.Some? ==> r == Ok(default.value)
    ensures r.Err? <==> key !in params && default.None?
  {
    if key in params then Ok(Split(params[key], sep))
    else if default.Some? then Ok(default.value)
    else Err(Missing(key))
  }

  /** The pieces of a slice join back into the stored value. */
  lemma GetSliceJoin(params: Params, key: string, sep: string, default: Option<seq<string>>)
    requires key in params
    ensures Join(GetSlice(params, key, sep, default).value, sep) == params[key]
  {
    SplitJoin(params[key], sep);
  }

  /** A value that is not an integer is an error, whatever the default. */
  lemma GetIntIgnoresDefault(params: Params, key: string, d: int)
    requires key in params && !AllDigits(params[key]) && !(|params[key]| > 0 && (params[key][0] == '-' || params[key][0] == '+'))
    ensures GetInt(params, key, Some(d)).Err?
  {
  }

  /** The spellings `GetBool` accepts. */
  lemma GetBoolExamples(d: Option<bool>)
    ensures GetBool(map["k" := "ON"], "k", d) == Ok(true)
    ensures GetBool(map["k" := "True"], "k", d) == Ok(true)
    ensures GetBool(map["k" := "yes"], "k", d) == Ok(false)
  {
    assert LowerString("ON") == "on" && LowerString("on") == "on";
    assert LowerString("True") == "true" && LowerString("true") == "true";
    assert LowerString("yes")[0] == 'y';
    assert |LowerString("yes")| == 3;
  }

  /**
   * Reading a file that ends in `key = value` makes the value the one the
   * current section returns: the value itself, or the default when it is empty.
   */
  lemma ReadThenGet(lines: seq<string>, key: string, blank1: string, blank2: string, value: string, default: string)
    requires ParamParts(key, blank1, blank2, value) && (value != "" || blank2 == "")
    ensures var st := ReadAll(lines + [ParamLine(key, blank1, blank2, value)]);
            GetString(st.sections[st.currentKey], key, Some(default)) == Ok(if value == "" then default else value)
  {
    var line := ParamLine(key, blank1, blank2, value);
    var all := lines + [line];
    assert all[..|all| - 1] == lines;
    var st := ReadAll(lines);
    ReadAllLast(all);
    ParamLineParsed(key, blank1, blank2, value);
    AssignmentSetsKey(st, line);
    var r := Apply(st, line);
    assert ReadAll(all) == r;
    var p := r.sections[r.currentKey];
    assert p == st.sections[st.currentKey][key := value];
    assert key in p && p[key] == value;
  }

  /** A parameter line has no blank at either end, and is no header. */
  lemma ParamLineTrimmed(key: string, blank1: string, blank2: string, value: string)
    requires ParamParts(key, blank1, blank2, value) && (value != "" || blank2 == "")
    ensures TrimSpace(ParamLine(key, blank1, blank2, value)) == ParamLine(key, blank1, blank2, value)
    ensures MatchSection(ParamLine(key, blank1, blank2, value)).None?
  {
    var s := ParamLine(key, blank1, blank2, value);
    assert s[0] == key[0];
    ParamCharNotSpace(key[0]);
    if value == [] {
      assert s[|s| - 1] == '=';
    } else {
      assert s[|s| - 1] == value[|value| - 1];
      ParamCharNotSpace(value[|value| - 1]);
    }
    TrimSpaceKeeps(s);
  }

  lemma ParamCharNotSpace(c: char)
    requires IsParamChar(c)
    ensures !IsSpace(c) && c != '['
  {
  }
}
