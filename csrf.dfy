/**
 * The CSRF token protocol of csrf.go.
 *
 * A token is masked by XOR with a random mask of `maskLen` bytes; the mask
 * and the masked token travel together, base64-encoded with every `+`
 * turned into `.`. The mask is a parameter here, standing for the bytes
 * `GenerateRandomByte` reads from the system's random source (which yields
 * an empty slice when that read fails).
 */
module Csrf {
  import opened GoLib
  import Base64

  // ---------------------------------------------------------------------
  // Bytewise XOR

  function Pow2(k: nat): (r: nat)
    ensures r >= 1
  {
    if k == 0 then 1 else 2 * Pow2(k - 1)
  }

  /** The XOR of the low `k` bits of `a` and `b`, bit by bit from the lowest. */
  function XorBits(a: nat, b: nat, k: nat): (r: nat)
    ensures r < Pow2(k)
  {
    if k == 0 then 0
    else (if a % 2 == b % 2 then 0 else 1) + 2 * XorBits(a / 2, b / 2, k - 1)
  }

  /** Go's `^` on two bytes. */
  function BitXor(a: byte, b: byte): byte
  {
    assert Pow2(8) == 256;
    XorBits(a, b, 8)
  }

  lemma {:induction false} XorBitsCommutes(a: nat, b: nat, k: nat)
    ensures XorBits(a, b, k) == XorBits(b, a, k)
  {
    if k > 0 {
      XorBitsCommutes(a / 2, b / 2, k - 1);
    }
  }

  lemma {:induction false} XorBitsCancels(a: nat, b: nat, k: nat)
    requires a < Pow2(k)
    ensures XorBits(XorBits(a, b, k), b, k) == a
  {
    if k > 0 {
      var y := XorBits(a / 2, b / 2, k - 1);
      var x := XorBits(a, b, k);
      assert x % 2 == (if a % 2 == b % 2 then 0 else 1) && x / 2 == y;
      XorBitsCancels(a / 2, b / 2, k - 1);
    }
  }

  /** XOR-ing twice with the same byte gives the first byte back, on either side. */
  lemma BitXorCancels(m: byte, t: byte)
    ensures BitXor(BitXor(t, m), m) == t
    ensures BitXor(m, BitXor(t, m)) == t
  {
    assert Pow2(8) == 256;
    XorBitsCancels(t, m, 8);
    XorBitsCommutes(m, XorBits(t, m, 8), 8);
  }

  lemma BitXorExamples()
    ensures BitXor(32, 65) == 97
    ensures BitXor(0xF0, 0x0F) == 0xFF && BitXor(0xFF, 0xFF) == 0
  {
  }

  // ---------------------------------------------------------------------
  // xorCsrfTokens

  /** The byte at position `i` of `b` repeated cyclically. */
  function Cyclic(b: seq<byte>, i: nat): byte
    requires |b| > 0
  {
    b[i % |b|]
  }

  /** The byte of the first operand at position `i` once it has been extended: itself repeated, or spaces if empty. */
  function PadFirst(a: seq<byte>, i: nat): byte
  {
    if |a| == 0 then ' ' as int else Cyclic(a, i)
  }

  /**
   * What `xorCsrfTokens(a, b)` computes: the shorter operand is repeated
   * cyclically to the length of the longer (an empty first operand becomes
   * spaces) and the two are XOR-ed position by position. Extending an empty
   * second operand divides by zero.
   */
  function Xor(a: seq<byte>, b: seq<byte>): (r: Outcome<seq<byte>>)
    ensures r.Panicked? <==> |b| == 0 < |a|
    ensures r.Returned? ==> |r.value| == if |a| > |b| then |a| else |b|
  {
    if |a| > |b| && |b| == 0 then Panicked("runtime error: integer divide by zero")
    else
      var n := if |a| > |b| then |a| else |b|;
      Returned(seq(n, i requires 0 <= i < n => BitXor(PadFirst(a, i), Cyclic(b, i))))
  }

  /** The first loop of `xorCsrfTokens`: the second operand repeated up to `n` bytes. */
  method ExtendSecond(token2: seq<byte>, n: nat) returns (t2: seq<byte>)
    requires 0 < |token2| <= n
    ensures |t2| == n
    ensures forall j :: 0 <= j < n ==> t2[j] == Cyclic(token2, j)
  {
    t2 := token2;
    var len2 := |token2|;
    var i := 0;
    while i < n - len2
      invariant 0 <= i <= n - len2
      invariant |t2| == len2 + i
      invariant forall j :: 0 <= j < |t2| ==> t2[j] == Cyclic(token2, j)
    {
      ModShift(i, len2);
      ModSmall(i % len2, len2);
      t2 := t2 + [t2[i % len2]];
      i := i + 1;
    }
  }

  /** The second loop of `xorCsrfTokens`: the first operand repeated (or spaces) up to `n` bytes. */
  method ExtendFirst(token1: seq<byte>, n: nat) returns (t1: seq<byte>)
    requires |token1| <= n
    ensures |t1| == n
    ensures forall j :: 0 <= j < n ==> t1[j] == PadFirst(token1, j)
  {
    t1 := token1;
    var len1 := |token1|;
    forall j | 0 <= j < len1 ensures t1[j] == PadFirst(token1, j) {
      ModSmall(j, len1);
    }
    var i := 0;
    while i < n - len1
      invariant 0 <= i <= n - len1
      invariant |t1| == len1 + i
      invariant forall j :: 0 <= j < |t1| ==> t1[j] == PadFirst(token1, j)
    {
      if len1 == 0 {
        t1 := t1 + [' ' as int];
      } else {
        ModShift(i, len1);
        ModSmall(i % len1, len1);
        t1 := t1 + [t1[i % len1]];
      }
      i := i + 1;
    }
  }

  lemma XorAt(a: seq<byte>, b: seq<byte>, j: nat)
    requires |b| > 0 && j < |a| + |b|
    requires j < if |a| > |b| then |a| else |b|
    ensures Xor(a, b).Returned? && j < |Xor(a, b).value|
    ensures Xor(a, b).value[j] == BitXor(PadFirst(a, j), Cyclic(b, j))
  {
  }

  /** `xorCsrfTokens`: extend the shorter operand, then XOR byte by byte. */
  method XorTokens(token1: seq<byte>, token2: seq<byte>) returns (r: Outcome<seq<byte>>)
    ensures r == Xor(token1, token2)
  {
    var t1, t2 := token1, token2;
    var len1, len2 := |t1|, |t2|;
    if len1 > len2 {
      if len2 == 0 {
        return Panicked("runtime error: integer divide by zero");
      }
      t2 := ExtendSecond(token2, len1);
      forall j | 0 <= j < len1 ensures t1[j] == PadFirst(token1, j) {
        ModSmall(j, len1);
      }
    } else {
      t1 := ExtendFirst(token1, len2);
      forall j | 0 <= j < len2 ensures t2[j] == Cyclic(token2, j) {
        ModSmall(j, len2);
      }
    }
    var token := XorEqualLength(t1, t2);
    ghost var spec := Xor(token1, token2).value;
    assert |token| == |spec|;
    forall j | 0 <= j < |token| ensures token[j] == spec[j] {
      XorAt(token1, token2, j);
    }
    assert token == spec;
    r := Returned(token);
  }

  /** The last loop of `xorCsrfTokens`: XOR of two byte strings of equal length, position by position. */
  method XorEqualLength(t1: seq<byte>, t2: seq<byte>) returns (token: seq<byte>)
    requires |t1| == |t2|
    ensures |token| == |t1|
    ensures forall j :: 0 <= j < |t1| ==> token[j] == BitXor(t1[j], t2[j])
  {
    token := [];
    var i := 0;
    while i < |t1|
      invariant 0 <= i <= |t1|
      invariant |token| == i
      invariant forall j :: 0 <= j < i ==> token[j] == BitXor(t1[j], t2[j])
    {
      token := token + [BitXor(t1[i], t2[i])];
      i := i + 1;
    }
  }

  /** Unmasking a token masked with a mask no longer than it gives the token back. */
  lemma XorUnmasks(t: seq<byte>, mask: seq<byte>)
    requires 1 <= |mask| <= |t|
    ensures Xor(t, mask).Returned?
    ensures Xor(mask, Xor(t, mask).value) == Returned(t)
  {
    var x := Xor(t, mask).value;
    var u := Xor(mask, x).value;
    assert |x| == |t| && |u| == |t|;
    forall i | 0 <= i < |t| ensures u[i] == t[i] {
      ModSmall(i, |t|);
      assert x[i] == BitXor(t[i], Cyclic(mask, i));
      assert u[i] == BitXor(Cyclic(mask, i), x[i]);
      BitXorCancels(Cyclic(mask, i), t[i]);
    }
    assert u == t;
  }

  /** Unmasking a token shorter than the mask gives a value as long as the mask. */
  lemma XorShortToken(t: seq<byte>, mask: seq<byte>)
    requires |t| < |mask|
    ensures Xor(t, mask).Returned? && |Xor(t, mask).value| == |mask|
    ensures Xor(mask, Xor(t, mask).value).Returned?
    ensures |Xor(mask, Xor(t, mask).value).value| == |mask|
  {
  }

  // ---------------------------------------------------------------------
  // GenerateCsrfToken and ValidateCsrfToken

  /**
   * `GenerateCsrfToken(maskLen, token)` with the random `mask` as a
   * parameter: the base64 of the mask followed by the masked token, with
   * `+` replaced by `.`. A negative mask length panics in `make`.
   */
  function Generate(maskLen: int, token: seq<byte>, mask: seq<byte>): (r: Outcome<string>)
    requires maskLen >= 0 ==> |mask| == maskLen || mask == []
    ensures r.Returned? ==> '+' !in r.value
    ensures r.Returned? ==> Xor(token, mask).Returned?
    ensures r.Returned? ==> Base64.Decode(ReplaceChar(r.value, '.', '+')) == Some(mask + Xor(token, mask).value)
    ensures maskLen >= 1 && |mask| == maskLen ==> r.Returned?
  {
    if maskLen < 0 then Panicked("runtime error: makeslice: len out of range")
    else
      match Xor(token, mask)
      case Panicked(reason) => Panicked(reason)
      case Returned(masked) =>
        var encoded := Base64.Encode(mask + masked);
        ReplaceCharRoundTrip(encoded, '+', '.');
        Base64.DecodeEncode(mask + masked);
        Returned(ReplaceChar(encoded, '+', '.'))
  }

  /**
   * `ValidateCsrfToken(maskLen, token, trueToken)`: undoes the character
   * replacement and the base64 encoding (corrupt input panics), splits off
   * the mask and compares the unmasked token with `trueToken`.
   */
  function Validate(maskLen: int, token: string, trueToken: seq<byte>): (r: Outcome<bool>)
    ensures maskLen >= 0 ==> (r.Panicked? <==> Base64.Decode(ReplaceChar(token, '.', '+')).None?)
    ensures r == Returned(true) ==> Base64.Decode(ReplaceChar(token, '.', '+')).Some?
    ensures r == Returned(true) ==>
              var n := |Base64.Decode(ReplaceChar(token, '.', '+')).value|;
              maskLen < n && |trueToken| == if maskLen > n - maskLen then maskLen else n - maskLen
  {
    match Base64.Decode(ReplaceChar(token, '.', '+'))
    case None => Panicked("illegal base64 data")
    case Some(decoded) =>
      if |decoded| <= maskLen then Returned(false)
      else if maskLen < 0 then Panicked("runtime error: slice bounds out of range")
      else
        var mask, masked := decoded[..maskLen], decoded[maskLen..];
        Returned(Xor(mask, masked).value == trueToken)
  }

  /** The round trip: a generated token validates against the token it masks. */
  lemma ValidateGenerated(mask: seq<byte>, t: seq<byte>)
    requires 1 <= |mask| <= |t|
    ensures Generate(|mask|, t, mask).Returned?
    ensures Validate(|mask|, Generate(|mask|, t, mask).value, t) == Returned(true)
  {
    XorUnmasks(t, mask);
    var d := mask + Xor(t, mask).value;
    assert d[..|mask|] == mask && d[|mask|..] == Xor(t, mask).value;
  }

  /** A generated token does not validate against any other true token. */
  lemma ValidateOtherToken(mask: seq<byte>, t: seq<byte>, other: seq<byte>)
    requires 1 <= |mask| <= |t| && other != t
    ensures Validate(|mask|, Generate(|mask|, t, mask).value, other) == Returned(false)
  {
    XorUnmasks(t, mask);
    var d := mask + Xor(t, mask).value;
    assert d[..|mask|] == mask && d[|mask|..] == Xor(t, mask).value;
  }

  /** A true token shorter than the mask never validates: the unmasked value has the mask's length. */
  lemma ValidateShortToken(mask: seq<byte>, t: seq<byte>)
    requires |t| < |mask|
    ensures Generate(|mask|, t, mask).Returned?
    ensures Validate(|mask|, Generate(|mask|, t, mask).value, t) == Returned(false)
  {
    XorShortToken(t, mask);
    var d := mask + Xor(t, mask).value;
    assert d[..|mask|] == mask && d[|mask|..] == Xor(t, mask).value;
  }

  /** Decoded input no longer than the mask is rejected without panicking. */
  lemma ValidateTooShort(maskLen: int, token: string, trueToken: seq<byte>)
    requires Base64.Decode(ReplaceChar(token, '.', '+')).Some?
    requires |Base64.Decode(ReplaceChar(token, '.', '+')).value| <= maskLen
    ensures Validate(maskLen, token, trueToken) == Returned(false)
  {
  }

  /** Input that is not base64 (here: of a length no quantum structure allows) panics rather than returning false. */
  lemma ValidateCorruptPanics(maskLen: int, trueToken: seq<byte>)
    ensures Validate(maskLen, "abc", trueToken).Panicked?
  {
    var s := ReplaceChar("abc", '.', '+');
    assert s == "abc";
    Base64.DecodeRejectsLength(s);
  }

  /** No mask at all: a non-empty token cannot be masked (division by zero in the extension loop). */
  lemma GenerateWithoutMask(token: seq<byte>)
    requires token != []
    ensures Generate(0, token, []).Panicked?
  {
  }
}
