/**
 * Stylesheet and script tags for a page (asset.go).
 *
 * The Go builders format their tags with `fmt.Sprintf`, whose `%s` verbs
 * are modelled by `Sprintf` below, and join the `key="value"` option pairs
 * in the order in which Go's `range` visits the option map; that order is a
 * parameter of `Output`.
 */
module Asset {
  import opened GoLib

  // ---------------------------------------------------------------------
  // fmt.Sprintf with `%s` verbs

  /**
   * `fmt.Sprintf(format, args...)` for string arguments and formats whose
   * only verb is `%s`: each `%s` takes the next argument, a `%s` with no
   * argument left prints `%!s(MISSING)`, and arguments left over are listed
   * after the text as `%!(EXTRA string=..., string=...)`.
   */
  function Sprintf(format: string, args: seq<string>): (r: string)
    decreases |format|
  {
    if format == "" then Extra(args)
    else if |format| >= 2 && format[0] == '%' && format[1] == 's' then
      if args == [] then Missing + Sprintf(format[2..], [])
      else args[0] + Sprintf(format[2..], args[1..])
    else [format[0]] + Sprintf(format[1..], args)
  }

  const Missing: string := "%!s(MISSING)"

  /** The note about arguments no verb used. */
  function Extra(args: seq<string>): (r: string)
    ensures args == [] <==> r == ""
  {
    if args == [] then ""
    else "%!(EXTRA " + Join(seq(|args|, i requires 0 <= i < |args| => "string=" + args[i]), ", ") + ")"
  }

  /** Text without `%` is copied as it is. */
  lemma {:induction false} SprintfText(a: string, f: string, args: seq<string>)
    requires '%' !in a
    ensures Sprintf(a + f, args) == a + Sprintf(f, args)
    decreases |a|
  {
    if a == "" {
      assert a + f == f;
    } else {
      var t := a[1..];
      assert a == [a[0]] + t;
      assert a + f == [a[0]] + (t + f);
      assert (a + f)[1..] == t + f;
      SprintfText(t, f, args);
      assert Sprintf(a + f, args) == [a[0]] + (t + Sprintf(f, args));
    }
  }

  /** A `%s` after plain text takes the next argument. */
  lemma SprintfVerb(a: string, f: string, x: string, args: seq<string>)
    requires '%' !in a
    ensures Sprintf(a + ("%s" + f), [x] + args) == a + (x + Sprintf(f, args))
  {
    SprintfText(a, "%s" + f, [x] + args);
    assert ("%s" + f)[2..] == f;
    assert ([x] + args)[1..] == args;
  }

  /** A `%s` after plain text with no argument left. */
  lemma SprintfVerbMissing(a: string, f: string)
    requires '%' !in a
    ensures Sprintf(a + ("%s" + f), []) == a + (Missing + Sprintf(f, []))
  {
    SprintfText(a, "%s" + f, []);
    assert ("%s" + f)[2..] == f;
  }

  /** Text without `%` and with every argument used. */
  lemma SprintfDone(a: string)
    requires '%' !in a
    ensures Sprintf(a, []) == a
  {
    SprintfText(a, "", []);
    assert a + "" == a;
  }

  // ---------------------------------------------------------------------
  // Options and conditions

  /** One option as an attribute: `key="value"`. */
  function Attribute(key: string, value: string): string
  {
    key + "=\"" + value + "\""
  }

  /** `order` lists every option key exactly once (Go's `range` order). */
  predicate IsOrder(options: map<string, string>, order: seq<string>)
  {
    (forall i :: 0 <= i < |order| ==> order[i] in options)
    && (forall k :: k in options ==> k in order)
    && (forall i, j :: 0 <= i < j < |order| ==> order[i] != order[j])
  }

  /** The attributes of the options, in the order given. */
  function Attributes(options: map<string, string>, order: seq<string>): (r: seq<string>)
    requires forall i :: 0 <= i < |order| ==> order[i] in options
    ensures |r| == |order|
    ensures forall i :: 0 <= i < |order| ==> r[i] == Attribute(order[i], options[order[i]])
  {
    seq(|order|, i requires 0 <= i < |order| => Attribute(order[i], options[order[i]]))
  }

  /** Every option appears as an attribute, and every attribute is an option. */
  lemma AttributesCover(options: map<string, string>, order: seq<string>)
    requires IsOrder(options, order)
    ensures forall k :: k in options ==> Attribute(k, options[k]) in Attributes(options, order)
    ensures forall a :: a in Attributes(options, order) ==> exists k :: k in options && a == Attribute(k, options[k])
  {
    var r := Attributes(options, order);
    forall k | k in options
      ensures Attribute(k, options[k]) in r
    {
      var i :| 0 <= i < |order| && order[i] == k;
      assert r[i] == Attribute(k, options[k]);
    }
  }

  /** The attributes joined by single spaces. */
  function OptionText(options: map<string, string>, order: seq<string>): string
    requires forall i :: 0 <= i < |order| ==> order[i] in options
  {
    Join(Attributes(options, order), " ")
  }

  /** A non-empty condition wraps the tag in an Internet Explorer conditional comment. */
  function Wrap(condition: string, tag: string): (r: string)
    ensures |condition| > 0 ==> r == "<!--[if " + condition + "]> -->" + tag + "<!-- <![endif]-->"
    ensures condition == "" ==> r == tag
  {
    if |condition| > 0 then "<!--[if " + condition + "]> -->" + tag + "<!-- <![endif]-->" else tag
  }

  /** The wrapper ends the tag's text with the closing comment, so the tag is recoverable. */
  lemma WrapInjective(condition: string, tag1: string, tag2: string)
    requires Wrap(condition, tag1) == Wrap(condition, tag2)
    ensures tag1 == tag2
  {
    if |condition| > 0 {
      var open := "<!--[if " + condition + "]> -->";
      var w1, w2 := Wrap(condition, tag1), Wrap(condition, tag2);
      assert tag1 == w1[|open|..|w1| - 17];
      assert tag2 == w2[|open|..|w2| - 17];
    }
  }

  // ---------------------------------------------------------------------
  // The tags

  // The formats and tags are written as right-nested concatenations, one
  // piece per verb, so that filling a format is a chain of `SprintfVerb` steps.

  /** `<link rel="R" type="T" href="H"/>`, or `<link rel="R" type="T" href="H" OPTIONS/>`. */
  function LinkTag(rel: string, contentType: string, href: string, options: Option<string>): string
  {
    "<link rel=\"" + (rel + ("\" type=\"" + (contentType + ("\" href=\"" + (href + LinkEnd(options))))))
  }

  function LinkEnd(options: Option<string>): string
  {
    if options.Some? then "\" " + (options.value + "/>") else "\"/>"
  }

  /** `<script type="T" src="S"></script>`. */
  function ScriptSrcTag(contentType: string, src: string): string
  {
    "<script type=\"" + (contentType + ("\" src=\"" + (src + "\"></script>")))
  }

  /** `<script type="T">SCRIPT</script>`. */
  function ScriptBodyTag(contentType: string, script: string): string
  {
    "<script type=\"" + (contentType + ("\">" + (script + "</script>")))
  }

  /** `<link rel="%s" type="%s" href="%s"/>` */
  const LinkFormat: string := "<link rel=\"" + ("%s" + ("\" type=\"" + ("%s" + ("\" href=\"" + ("%s" + "\"/>")))))
  /** `<link rel="%s" type="%s" href="%s" %s/>` */
  const LinkOptionsFormat: string :=
    "<link rel=\"" + ("%s" + ("\" type=\"" + ("%s" + ("\" href=\"" + ("%s" + ("\" " + ("%s" + "/>")))))))
  /** `<script type="%s" src="%s"></script>` */
  const ScriptSrcFormat: string := "<script type=\"" + ("%s" + ("\" src=\"" + ("%s" + "\"></script>")))
  /** `<script type="%s" src="%s" %s></script>` */
  const ScriptSrcOptionsFormat: string := "<script type=\"" + ("%s" + ("\" src=\"" + ("%s" + ("\" " + ("%s" + "></script>")))))
  /** `<script type="%s">%s</script>` */
  const ScriptBodyFormat: string := "<script type=\"" + ("%s" + ("\">" + ("%s" + "</script>")))
  /** `<script type="%s" %s></script>` */
  const ScriptOptionsFormat: string := "<script type=\"" + ("%s" + ("\" " + ("%s" + "></script>")))

  /** Two verbs between plain pieces, filled with two arguments. */
  lemma Fill2(p0: string, p1: string, p2: string, x: string, y: string)
    requires '%' !in p0 && '%' !in p1 && '%' !in p2
    ensures Sprintf(p0 + ("%s" + (p1 + ("%s" + p2))), [x, y]) == p0 + (x + (p1 + (y + p2)))
  {
    assert [x, y] == [x] + [y];
    assert [y] == [y] + [];
    SprintfVerb(p0, p1 + ("%s" + p2), x, [y]);
    SprintfVerb(p1, p2, y, []);
    SprintfDone(p2);
  }

  /** Three verbs between plain pieces, filled with three arguments. */
  lemma Fill3(p0: string, p1: string, p2: string, p3: string, x: string, y: string, z: string)
    requires '%' !in p0 && '%' !in p1 && '%' !in p2 && '%' !in p3
    ensures Sprintf(p0 + ("%s" + (p1 + ("%s" + (p2 + ("%s" + p3))))), [x, y, z])
         == p0 + (x + (p1 + (y + (p2 + (z + p3)))))
  {
    assert [x, y, z] == [x] + [y, z];
    SprintfVerb(p0, p1 + ("%s" + (p2 + ("%s" + p3))), x, [y, z]);
    Fill2(p1, p2, p3, y, z);
  }

  /** Four verbs between plain pieces, filled with four arguments. */
  lemma Fill4(p0: string, p1: string, p2: string, p3: string, p4: string, x: string, y: string, z: string, w: string)
    requires '%' !in p0 && '%' !in p1 && '%' !in p2 && '%' !in p3 && '%' !in p4
    ensures Sprintf(p0 + ("%s" + (p1 + ("%s" + (p2 + ("%s" + (p3 + ("%s" + p4))))))), [x, y, z, w])
         == p0 + (x + (p1 + (y + (p2 + (z + (p3 + (w + p4)))))))
  {
    assert [x, y, z, w] == [x] + [y, z, w];
    SprintfVerb(p0, p1 + ("%s" + (p2 + ("%s" + (p3 + ("%s" + p4))))), x, [y, z, w]);
    Fill3(p1, p2, p3, p4, y, z, w);
  }

  /** Four verbs between plain pieces, given only three arguments: the last verb is missing. */
  lemma Fill4Short(p0: string, p1: string, p2: string, p3: string, p4: string, x: string, y: string, z: string)
    requires '%' !in p0 && '%' !in p1 && '%' !in p2 && '%' !in p3 && '%' !in p4
    ensures Sprintf(p0 + ("%s" + (p1 + ("%s" + (p2 + ("%s" + (p3 + ("%s" + p4))))))), [x, y, z])
         == p0 + (x + (p1 + (y + (p2 + (z + (p3 + (Missing + p4)))))))
  {
    assert [x, y, z] == [x] + [y, z];
    assert [y, z] == [y] + [z];
    assert [z] == [z] + [];
    SprintfVerb(p0, p1 + ("%s" + (p2 + ("%s" + (p3 + ("%s" + p4))))), x, [y, z]);
    SprintfVerb(p1, p2 + ("%s" + (p3 + ("%s" + p4))), y, [z]);
    SprintfVerb(p2, p3 + ("%s" + p4), z, []);
    SprintfVerbMissing(p3, p4);
    SprintfDone(p4);
  }

  /** The link format filled with its three arguments. */
  lemma LinkFormatFilled(rel: string, contentType: string, href: string)
    ensures Sprintf(LinkFormat, [rel, contentType, href]) == LinkTag(rel, contentType, href, None)
  {
    Fill3("<link rel=\"", "\" type=\"", "\" href=\"", "\"/>", rel, contentType, href);
  }

  /** The link format with options, filled with its four arguments. */
  lemma LinkOptionsFormatFilled(rel: string, contentType: string, href: string, options: string)
    ensures Sprintf(LinkOptionsFormat, [rel, contentType, href, options]) == LinkTag(rel, contentType, href, Some(options))
  {
    Fill4("<link rel=\"", "\" type=\"", "\" href=\"", "\" ", "/>", rel, contentType, href, options);
  }

  /** The link format with options, given only three arguments: the last verb is missing. */
  lemma LinkOptionsFormatShort(a: string, b: string, c: string)
    ensures Sprintf(LinkOptionsFormat, [a, b, c]) == LinkTag(a, b, c, Some(Missing))
  {
    Fill4Short("<link rel=\"", "\" type=\"", "\" href=\"", "\" ", "/>", a, b, c);
  }

  lemma ScriptSrcFormatFilled(contentType: string, src: string)
    ensures Sprintf(ScriptSrcFormat, [contentType, src]) == ScriptSrcTag(contentType, src)
  {
    Fill2("<script type=\"", "\" src=\"", "\"></script>", contentType, src);
  }

  lemma ScriptBodyFormatFilled(contentType: string, script: string)
    ensures Sprintf(ScriptBodyFormat, [contentType, script]) == ScriptBodyTag(contentType, script)
  {
    Fill2("<script type=\"", "\">", "</script>", contentType, script);
  }

  // ---------------------------------------------------------------------
  // The builders

  /** A stylesheet link. */
  class CssAsset {
    var href: string
    var rel: string
    var contentType: string
    var condition: string
    var options: map<string, string>

    /** `NewCssAsset`: a stylesheet of type `text/css`, no condition and no options. */
    constructor (href: string)
      ensures this.href == href && rel == "stylesheet" && contentType == "text/css"
      ensures condition == "" && options == map[]
    {
      this.href := href;
      rel := "stylesheet";
      contentType := "text/css";
      condition := "";
      options := map[];
    }

    /** `Output`: the link tag, with the options as attributes, wrapped when there is a condition. */
    method Output(order: seq<string>) returns (r: string)
      requires IsOrder(options, order)
      ensures |options| == 0 ==> r == Wrap(condition, LinkTag(rel, contentType, href, None))
      ensures |options| > 0 ==> r == Wrap(condition, LinkTag(rel, contentType, href, Some(OptionText(options, order))))
    {
      var args := [rel, contentType, href];
      var format := LinkFormat;
      var attributes: seq<string> := [];
      if |options| > 0 {
        format := LinkOptionsFormat;
        attributes := CollectAttributes(options, order);
        args := args + [Join(attributes, " ")];
        assert args == [rel, contentType, href, OptionText(options, order)];
        LinkOptionsFormatFilled(rel, contentType, href, OptionText(options, order));
      } else {
        LinkFormatFilled(rel, contentType, href);
      }
      r := Sprintf(format, args);
      if |condition| > 0 {
        r := "<!--[if " + condition + "]> -->" + r + "<!-- <![endif]-->";
      }
    }

    /** `Option`: sets one option and returns the same asset. */
    method Option(key: string, value: string) returns (r: CssAsset)
      modifies this
      ensures r == this && options == old(options)[key := value]
      ensures href == old(href) && rel == old(rel) && contentType == old(contentType) && condition == old(condition)
    {
      options := options[key := value];
      r := this;
    }

    /** `Condition`: sets the condition and returns the same asset. */
    method Condition(condition: string) returns (r: CssAsset)
      modifies this
      ensures r == this && this.condition == condition
      ensures href == old(href) && rel == old(rel) && contentType == old(contentType) && options == old(options)
    {
      this.condition := condition;
      r := this;
    }
  }

  /** The loop of `Output`: one `key="value"` attribute per option, in `range` order. */
  method CollectAttributes(options: map<string, string>, order: seq<string>) returns (attributes: seq<string>)
    requires forall i :: 0 <= i < |order| ==> order[i] in options
    ensures attributes == Attributes(options, order)
  {
    attributes := [];
    var i := 0;
    while i < |order|
      invariant 0 <= i <= |order|
      invariant |attributes| == i
      invariant forall j :: 0 <= j < i ==> attributes[j] == Attribute(order[j], options[order[j]])
    {
      var k := order[i];
      attributes := attributes + [Attribute(k, options[k])];
      i := i + 1;
    }
  }

  /**
   * The script tag `JsAsset.Output` produces: with no options, a script
   * with `src` when there is a source and with the script text otherwise;
   * with options, the stylesheet link format, filled with the type, the
   * source (or script) and the options, its fourth verb missing.
   */
  function JsTag(contentType: string, src: string, script: string, options: Option<string>): string
  {
    var body := if |src| > 0 then src else script;
    if options.Some? then LinkTag(contentType, body, options.value, Some(Missing))
    else if |src| > 0 then ScriptSrcTag(contentType, src)
    else ScriptBodyTag(contentType, script)
  }

  /** A script element: its type, then each attribute after a blank, then its text. */
  function ScriptElement(contentType: string, attributes: seq<string>, body: string): string
  {
    "<script type=\"" + (contentType + ("\"" + (AttributeList(attributes) + (">" + (body + "</script>")))))
  }

  function AttributeList(attributes: seq<string>): string
  {
    if attributes == [] then "" else " " + (attributes[0] + AttributeList(attributes[1..]))
  }

  /**
   * The script tag that the two option formats of `JsAsset.Output` describe:
   * the options as one more attribute of the script element, which keeps
   * its source or its text.
   */
  function IntendedJsTag(contentType: string, src: string, script: string, options: Option<string>): string
  {
    var attributes := (if |src| > 0 then [Attribute("src", src)] else []) + (if options.Some? then [options.value] else []);
    ScriptElement(contentType, attributes, if |src| > 0 then "" else script)
  }

  /** Without options, the tag as written is the intended script element. */
  lemma IntendedJsTagAgrees(contentType: string, src: string, script: string)
    ensures IntendedJsTag(contentType, src, script, None) == JsTag(contentType, src, script, None)
  {
    if |src| > 0 {
      var a := Attribute("src", src);
      assert ([a] + [])[1..] == [];
      assert AttributeList([a] + []) == " " + (a + "");
      assert "\"" + (" " + (a + "") + (">" + ("" + "</script>"))) == "\" src=\"" + (src + "\"></script>");
    } else {
      assert "\"" + (AttributeList([] + []) + (">" + (script + "</script>"))) == "\">" + (script + "</script>");
    }
  }

  /**
   * With a source and options, the intended tag is what the script format
   * with options yields when it is filled with the type, the source and the
   * options: a script element, whatever the script text.
   */
  lemma IntendedJsTagWithSource(contentType: string, src: string, script: string, options: string)
    requires |src| > 0
    ensures IntendedJsTag(contentType, src, script, Some(options)) == Sprintf(ScriptSrcOptionsFormat, [contentType, src, options])
    ensures HasPrefix(IntendedJsTag(contentType, src, script, Some(options)), "<script ")
  {
    Fill3("<script type=\"", "\" src=\"", "\" ", "></script>", contentType, src, options);
    SourceAndOptions(Attribute("src", src), options);
    SourceAndOptionsText(src, options);
    var q := IntendedJsTag(contentType, src, script, Some(options));
    assert q[..8] == "<script ";
  }

  /** The attribute list of a source attribute and the options. */
  lemma SourceAndOptions(a: string, options: string)
    ensures AttributeList([a] + [options]) == " " + (a + (" " + options))
  {
    assert ([a] + [options])[1..] == [options];
    assert [options][1..] == [];
    assert AttributeList([options]) == " " + (options + AttributeList([]));
    assert options + "" == options;
  }

  /** The tail of the intended tag after its type, spelt as the format's pieces. */
  lemma SourceAndOptionsText(src: string, options: string)
    ensures "\"" + ((" " + (Attribute("src", src) + (" " + options))) + (">" + ("" + "</script>")))
         == "\" src=\"" + (src + ("\" " + (options + "></script>")))
  {
    var a := Attribute("src", src);
    var x := " src=\"" + (src + ("\" " + options));
    calc {
      "\"" + ((" " + (a + (" " + options))) + (">" + ("" + "</script>")));
      { assert ">" + ("" + "</script>") == "></script>";
        assert " " + (a + (" " + options)) == x; }
      "\"" + (x + "></script>");
      { Regroup("\"", " src=\"", src, "\" ", options, "></script>"); }
      ("\"" + " src=\"") + (src + ("\" " + (options + "></script>")));
      { assert "\"" + " src=\"" == "\" src=\""; }
      "\" src=\"" + (src + ("\" " + (options + "></script>")));
    }
  }

  /** Moving the brackets of six concatenated pieces. */
  lemma Regroup(q: string, p: string, s: string, b: string, o: string, t: string)
    ensures q + ((p + (s + (b + o))) + t) == (q + p) + (s + (b + (o + t)))
  {
  }

  /** With options, the tag as written is a link element, not the intended script element. */
  lemma JsTagWithOptionsIsLink(contentType: string, src: string, script: string, options: string)
    ensures HasPrefix(JsTag(contentType, src, script, Some(options)), "<link ")
    ensures JsTag(contentType, src, script, Some(options)) != IntendedJsTag(contentType, src, script, Some(options))
  {
    var r := JsTag(contentType, src, script, Some(options));
    var q := IntendedJsTag(contentType, src, script, Some(options));
    assert r[..6] == "<link ";
    assert q[1] == 's';
  }

  /** A script, linked by its source or given inline. */
  class JsAsset {
    var src: string
    var script: string
    var contentType: string
    var condition: string
    var options: map<string, string>

    /** `NewJsAsset`: a script of type `text/javascript`, no condition and no options. */
    constructor (src: string, script: string)
      ensures this.src == src && this.script == script && contentType == "text/javascript"
      ensures condition == "" && options == map[]
    {
      this.src := src;
      this.script := script;
      contentType := "text/javascript";
      condition := "";
      options := map[];
    }

    /** `Output`: the script tag as written, wrapped when there is a condition. */
    method Output(order: seq<string>) returns (r: string)
      requires IsOrder(options, order)
      ensures |options| == 0 ==> r == Wrap(condition, JsTag(contentType, src, script, None))
      ensures |options| > 0 ==> r == Wrap(condition, JsTag(contentType, src, script, Some(OptionText(options, order))))
    {
      var args: seq<string>;
      var format: string;
      if |src| > 0 {
        args := [contentType, src];
        if |options| > 0 {
          format := ScriptSrcOptionsFormat;
        } else {
          format := ScriptSrcFormat;
          ScriptSrcFormatFilled(contentType, src);
        }
      } else {
        args := [contentType, script];
        if |options| > 0 {
          format := ScriptOptionsFormat;
        } else {
          format := ScriptBodyFormat;
          ScriptBodyFormatFilled(contentType, script);
        }
      }
      if |options| > 0 {
        format := LinkOptionsFormat;
        var attributes := CollectAttributes(options, order);
        args := args + [Join(attributes, " ")];
        assert args == [contentType, if |src| > 0 then src else script, OptionText(options, order)];
        LinkOptionsFormatShort(contentType, if |src| > 0 then src else script, OptionText(options, order));
      }
      r := Sprintf(format, args);
      if |condition| > 0 {
        r := "<!--[if " + condition + "]> -->" + r + "<!-- <![endif]-->";
      }
    }

    /** `Option`: sets one option and returns the same asset. */
    method Option(key: string, value: string) returns (r: JsAsset)
      modifies this
      ensures r == this && options == old(options)[key := value]
      ensures src == old(src) && script == old(script) && contentType == old(contentType) && condition == old(condition)
    {
      options := options[key := value];
      r := this;
    }

    /** `Condition`: sets the condition and returns the same asset. */
    method Condition(condition: string) returns (r: JsAsset)
      modifies this
      ensures r == this && this.condition == condition
      ensures src == old(src) && script == old(script) && contentType == old(contentType) && options == old(options)
    {
      this.condition := condition;
      r := this;
    }
  }
}
