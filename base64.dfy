/**
 * The standard base64 encoding (section 4 of RFC 4648: alphabet `A`-`Z`,
 * `a`-`z`, `0`-`9`, `+`, `/`, padding `=`), as Go's
 * `base64.StdEncoding` encodes and decodes it: padding is required, the
 * unused bits of a final quantum are not checked, and carriage returns and
 * line feeds in the input are skipped.
 */
module Base64 {
  import opened GoLib

  type sextet = x: int | 0 <= x < 64

  /** The character for a 6-bit value (Table 1 of RFC 4648). */
  function EncodeChar(v: sextet): (c: char)
    ensures c != '=' && c != '.' && c != '\r' && c != '\n'
  {
    if v < 26 then ('A' as int + v) as char
    else if v < 52 then ('a' as int + v - 26) as char
    else if v < 62 then ('0' as int + v - 52) as char
    else if v == 62 then '+' else '/'
  }

  /** A character of the alphabet (padding excluded). */
  predicate IsAlphabetChar(c: char)
  {
    'A' <= c <= 'Z' || 'a' <= c <= 'z' || '0' <= c <= '9' || c == '+' || c == '/'
  }

  /** The 6-bit value of an alphabet character. */
  function CharValue(c: char): (v: sextet)
    requires IsAlphabetChar(c)
  {
    if 'A' <= c <= 'Z' then c as int - 'A' as int
    else if 'a' <= c <= 'z' then c as int - 'a' as int + 26
    else if '0' <= c <= '9' then c as int - '0' as int + 52
    else if c == '+' then 62 else 63
  }

  lemma CharRoundTrip(v: sextet)
    ensures IsAlphabetChar(EncodeChar(v)) && CharValue(EncodeChar(v)) == v
  {
  }

  // The four 6-bit values of a 3-byte group.
  function S0(b0: byte): sextet { b0 / 4 }
  function S1(b0: byte, b1: byte): sextet { (b0 % 4) * 16 + b1 / 16 }
  function S2(b1: byte, b2: byte): sextet { (b1 % 16) * 4 + b2 / 64 }
  function S3(b2: byte): sextet { b2 % 64 }

  // The three bytes of a 4-character group.
  function B0(v0: sextet, v1: sextet): byte { v0 * 4 + v1 / 16 }
  function B1(v1: sextet, v2: sextet): byte { (v1 % 16) * 16 + v2 / 4 }
  function B2(v2: sextet, v3: sextet): byte { (v2 % 4) * 64 + v3 }

  /** Regrouping the 6-bit values of a group gives its bytes back. */
  lemma GroupRoundTrip(b0: byte, b1: byte, b2: byte)
    ensures B0(S0(b0), S1(b0, b1)) == b0
    ensures B1(S1(b0, b1), S2(b1, b2)) == b1
    ensures B2(S2(b1, b2), S3(b2)) == b2
  {
  }

  /** `EncodeToString`: four characters per group of three bytes, the last group padded. */
  function Encode(b: seq<byte>): (r: string)
    ensures |r| == 4 * ((|b| + 2) / 3)
    ensures '.' !in r && '\r' !in r && '\n' !in r
    decreases |b|
  {
    if |b| == 0 then ""
    else if |b| == 1 then [EncodeChar(S0(b[0])), EncodeChar(S1(b[0], 0)), '=', '=']
    else if |b| == 2 then
      [EncodeChar(S0(b[0])), EncodeChar(S1(b[0], b[1])), EncodeChar(S2(b[1], 0)), '=']
    else EncodeGroup(b[0], b[1], b[2]) + Encode(b[3..])
  }

  /** The input with its carriage returns and line feeds removed. */
  function RemoveNewlines(s: string): (r: string)
    ensures '\r' !in s && '\n' !in s ==> r == s
  {
    if s == "" then ""
    else (if s[0] == '\r' || s[0] == '\n' then "" else [s[0]]) + RemoveNewlines(s[1..])
  }

  /** Decoding of newline-free input, one 4-character quantum at a time. */
  function DecodeQuanta(t: string): (r: Option<seq<byte>>)
    ensures r.Some? ==> |t| % 4 == 0
    decreases |t|
  {
    if t == "" then Some([])
    else if |t| < 4 then None
    else if IsAlphabetChar(t[0]) && IsAlphabetChar(t[1]) && IsAlphabetChar(t[2]) && IsAlphabetChar(t[3]) then
      var v0, v1, v2, v3 := CharValue(t[0]), CharValue(t[1]), CharValue(t[2]), CharValue(t[3]);
      match DecodeQuanta(t[4..])
      case None => None
      case Some(rest) => Some([B0(v0, v1), B1(v1, v2), B2(v2, v3)] + rest)
    else if |t| == 4 && IsAlphabetChar(t[0]) && IsAlphabetChar(t[1]) && t[2] == '=' && t[3] == '=' then
      Some([B0(CharValue(t[0]), CharValue(t[1]))])
    else if |t| == 4 && IsAlphabetChar(t[0]) && IsAlphabetChar(t[1]) && IsAlphabetChar(t[2]) && t[3] == '=' then
      var v0, v1, v2 := CharValue(t[0]), CharValue(t[1]), CharValue(t[2]);
      Some([B0(v0, v1), B1(v1, v2)])
    else None
  }

  /** `DecodeString`: the bytes, or `None` for corrupt input. */
  function Decode(s: string): Option<seq<byte>>
  {
    DecodeQuanta(RemoveNewlines(s))
  }

  /** The four characters of a full 3-byte group. */
  function EncodeGroup(b0: byte, b1: byte, b2: byte): (r: string)
    ensures |r| == 4
  {
    [EncodeChar(S0(b0)), EncodeChar(S1(b0, b1)), EncodeChar(S2(b1, b2)), EncodeChar(S3(b2))]
  }

  /** One quantum of four alphabet characters followed by more input. */
  lemma DecodeQuantum(c0: char, c1: char, c2: char, c3: char, rest: string)
    requires IsAlphabetChar(c0) && IsAlphabetChar(c1) && IsAlphabetChar(c2) && IsAlphabetChar(c3)
    ensures DecodeQuanta([c0, c1, c2, c3] + rest)
         == if DecodeQuanta(rest).Some? then
              Some([B0(CharValue(c0), CharValue(c1)), B1(CharValue(c1), CharValue(c2)), B2(CharValue(c2), CharValue(c3))]
                   + DecodeQuanta(rest).value)
            else None
  {
    var t := [c0, c1, c2, c3] + rest;
    assert t[4..] == rest;
  }

  lemma DecodeFullGroup(b0: byte, b1: byte, b2: byte, rest: string)
    ensures DecodeQuanta(EncodeGroup(b0, b1, b2) + rest)
         == if DecodeQuanta(rest).Some? then Some([b0, b1, b2] + DecodeQuanta(rest).value) else None
  {
    var v0, v1, v2, v3 := S0(b0), S1(b0, b1), S2(b1, b2), S3(b2);
    CharRoundTrip(v0);
    CharRoundTrip(v1);
    CharRoundTrip(v2);
    CharRoundTrip(v3);
    GroupRoundTrip(b0, b1, b2);
    DecodeQuantum(EncodeChar(v0), EncodeChar(v1), EncodeChar(v2), EncodeChar(v3), rest);
  }

  lemma DecodeLastOne(b0: byte)
    ensures DecodeQuanta([EncodeChar(S0(b0)), EncodeChar(S1(b0, 0)), '=', '=']) == Some([b0])
  {
    var v0, v1 := S0(b0), S1(b0, 0);
    CharRoundTrip(v0);
    CharRoundTrip(v1);
    GroupRoundTrip(b0, 0, 0);
    DecodePadTwo(EncodeChar(v0), EncodeChar(v1));
  }

  lemma DecodePadTwo(c0: char, c1: char)
    requires IsAlphabetChar(c0) && IsAlphabetChar(c1)
    ensures DecodeQuanta([c0, c1, '=', '=']) == Some([B0(CharValue(c0), CharValue(c1))])
  {
  }

  lemma DecodePadOne(c0: char, c1: char, c2: char)
    requires IsAlphabetChar(c0) && IsAlphabetChar(c1) && IsAlphabetChar(c2)
    ensures DecodeQuanta([c0, c1, c2, '='])
         == Some([B0(CharValue(c0), CharValue(c1)), B1(CharValue(c1), CharValue(c2))])
  {
  }

  lemma DecodeLastTwo(b0: byte, b1: byte)
    ensures DecodeQuanta([EncodeChar(S0(b0)), EncodeChar(S1(b0, b1)), EncodeChar(S2(b1, 0)), '=']) == Some([b0, b1])
  {
    var v0, v1, v2 := S0(b0), S1(b0, b1), S2(b1, 0);
    CharRoundTrip(v0);
    CharRoundTrip(v1);
    CharRoundTrip(v2);
    GroupRoundTrip(b0, b1, 0);
    DecodePadOne(EncodeChar(v0), EncodeChar(v1), EncodeChar(v2));
  }

  /** Decoding undoes encoding. */
  lemma {:induction false} DecodeQuantaEncode(b: seq<byte>)
    ensures DecodeQuanta(Encode(b)) == Some(b)
    decreases |b|
  {
    if |b| == 1 {
      DecodeEncodeOne(b);
    } else if |b| == 2 {
      DecodeEncodeTwo(b);
    } else if |b| >= 3 {
      DecodeQuantaEncode(b[3..]);
      DecodeEncodeGroup(b);
    }
  }

  lemma DecodeEncodeOne(b: seq<byte>)
    requires |b| == 1
    ensures DecodeQuanta(Encode(b)) == Some(b)
  {
    DecodeLastOne(b[0]);
    assert b == [b[0]];
  }

  lemma DecodeEncodeTwo(b: seq<byte>)
    requires |b| == 2
    ensures DecodeQuanta(Encode(b)) == Some(b)
  {
    DecodeLastTwo(b[0], b[1]);
    assert b == [b[0], b[1]];
  }

  /** A full group in front of input whose own encoding decodes back. */
  lemma DecodeEncodeGroup(b: seq<byte>)
    requires |b| >= 3 && DecodeQuanta(Encode(b[3..])) == Some(b[3..])
    ensures DecodeQuanta(Encode(b)) == Some(b)
  {
    EncodeStep(b);
    DecodeFullGroup(b[0], b[1], b[2], Encode(b[3..]));
  }

  /** A text of at least three bytes encodes its first group, then the rest. */
  lemma EncodeStep(b: seq<byte>)
    requires |b| >= 3
    ensures Encode(b) == EncodeGroup(b[0], b[1], b[2]) + Encode(b[3..])
    ensures b == [b[0], b[1], b[2]] + b[3..]
  {
    assert b == [b[0], b[1], b[2]] + b[3..] by {
      assert b == b[..3] + b[3..];
      assert b[..3] == [b[0], b[1], b[2]];
    }
  }

  /** The round trip of `EncodeToString` and `DecodeString`. */
  lemma DecodeEncode(b: seq<byte>)
    ensures Decode(Encode(b)) == Some(b)
  {
    DecodeQuantaEncode(b);
  }

  /** Input whose length, newlines aside, is not a multiple of four is corrupt. */
  lemma DecodeRejectsLength(s: string)
    requires |RemoveNewlines(s)| % 4 != 0
    ensures Decode(s) == None
  {
  }
}
