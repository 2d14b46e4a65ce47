/**
 * UTF-8 (section 3 of RFC 3629) over Python text: a text is a sequence of code points
 * 0 .. 0x10FFFF, lone surrogates included, as a Python `str` is.
 *   - `Encode` is `str.encode('utf-8')` with strict errors: a surrogate raises.
 *   - `Decode` is `bytes.decode('utf-8')` with strict errors: only the well-formed
 *     byte sequences of RFC 3629 (no overlong forms, no surrogates, nothing above
 *     U+10FFFF, no truncated sequence) decode.
 */
module Utf8 {
  import opened Wrappers

  type byte = b: int | 0 <= b < 0x100
  type CodePoint = c: int | 0 <= c < 0x110000

  predicate IsSurrogate(c: CodePoint) {
    0xD800 <= c <= 0xDFFF
  }

  /** True when every code point of `s` can be encoded. */
  predicate IsScalarText(s: seq<CodePoint>) {
    forall i :: 0 <= i < |s| ==> !IsSurrogate(s[i])
  }

  predicate IsAscii(b: seq<byte>) {
    forall i :: 0 <= i < |b| ==> b[i] < 0x80
  }

  predicate IsContinuation(b: byte) {
    0x80 <= b <= 0xBF
  }

  /** The bytes of one code point. */
  function EncodeScalar(c: CodePoint): (bs: seq<byte>)
    requires !IsSurrogate(c)
    ensures 1 <= |bs| <= 4
    ensures (c < 0x80) <==> |bs| == 1
  {
    if c < 0x80 then [c]
    else if c < 0x800 then [0xC0 + c / 0x40, 0x80 + c % 0x40]
    else if c < 0x10000 then [0xE0 + c / 0x1000, 0x80 + c / 0x40 % 0x40, 0x80 + c % 0x40]
    else [0xF0 + c / 0x40000, 0x80 + c / 0x1000 % 0x40, 0x80 + c / 0x40 % 0x40, 0x80 + c % 0x40]
  }

  /** `s.encode('utf-8')`; `None` when `s` holds a surrogate (UnicodeEncodeError). */
  function Encode(s: seq<CodePoint>): (r: Option<seq<byte>>)
    ensures r.Some? <==> IsScalarText(s)
    ensures s == [] ==> r == Some([])
  {
    if s == [] then Some([])
    else if IsSurrogate(s[0]) then None
    else
      var rest := Encode(s[1..]);
      if rest.None? then None else Some(EncodeScalar(s[0]) + rest.value)
  }

  /**
   * The first code point of `b` and the number of bytes it takes, following the
   * table of well-formed UTF-8 byte sequences; `None` when `b` does not start with one.
   */
  function DecodeFirst(b: seq<byte>): (r: Option<(CodePoint, nat)>)
    requires |b| > 0
    ensures r.Some? ==> 1 <= r.value.1 <= |b| && r.value.1 <= 4 && !IsSurrogate(r.value.0)
  {
    var b0: int := b[0];
    if b0 < 0x80 then Some((b0, 1))
    else if 0xC2 <= b0 <= 0xDF then
      if |b| >= 2 && IsContinuation(b[1])
      then Some(((b0 - 0xC0) * 0x40 + (b[1] as int - 0x80), 2))
      else None
    else if 0xE0 <= b0 <= 0xEF then
      var lo := if b0 == 0xE0 then 0xA0 else 0x80;
      var hi := if b0 == 0xED then 0x9F else 0xBF;
      if |b| >= 3 && lo <= b[1] <= hi && IsContinuation(b[2])
      then Some(((b0 - 0xE0) * 0x1000 + (b[1] as int - 0x80) * 0x40 + (b[2] as int - 0x80), 3))
      else None
    else if 0xF0 <= b0 <= 0xF4 then
      var lo := if b0 == 0xF0 then 0x90 else 0x80;
      var hi := if b0 == 0xF4 then 0x8F else 0xBF;
      if |b| >= 4 && lo <= b[1] <= hi && IsContinuation(b[2]) && IsContinuation(b[3])
      then Some(((b0 - 0xF0) * 0x40000 + (b[1] as int - 0x80) * 0x1000 + (b[2] as int - 0x80) * 0x40 + (b[3] as int - 0x80), 4))
      else None
    else None
  }

  /** `b.decode('utf-8')`; `None` when `b` is not well-formed UTF-8 (UnicodeDecodeError). */
  function Decode(b: seq<byte>): (r: Option<seq<CodePoint>>)
    ensures b == [] ==> r == Some([])
    ensures r.Some? ==> |r.value| <= |b| && IsScalarText(r.value)
    decreases |b|
  {
    if b == [] then Some([])
    else
      var first := DecodeFirst(b);
      if first.None? then None
      else
        var rest := Decode(b[first.value.1..]);
        if rest.None? then None else Some([first.value.0] + rest.value)
  }

  /** Bytes read as code points one for one (what ASCII text decodes to). */
  function Widen(b: seq<byte>): (s: seq<CodePoint>)
    ensures |s| == |b| && forall i :: 0 <= i < |b| ==> s[i] == b[i]
  {
    seq(|b|, i requires 0 <= i < |b| => b[i])
  }

  /** The two-byte form: a lead of 0xC2 .. 0xDF and one continuation sextet. */
  lemma Split2(c: int)
    requires 0x80 <= c < 0x800
    ensures var q, r := c / 0x40, c % 0x40;
      2 <= q < 0x20 && 0 <= r < 0x40 && c == q * 0x40 + r
  {
  }

  /** The three-byte form; the second byte's range excludes overlong forms and surrogates. */
  lemma Split3(c: int)
    requires 0x800 <= c < 0x10000 && !(0xD800 <= c <= 0xDFFF)
    ensures var q1, q2, r := c / 0x1000, c / 0x40 % 0x40, c % 0x40;
      && 0 <= q1 < 0x10 && 0 <= q2 < 0x40 && 0 <= r < 0x40
      && c == q1 * 0x1000 + q2 * 0x40 + r
      && (q1 == 0 ==> q2 >= 0x20) && (q1 == 0xD ==> q2 < 0x20)
  {
    var q1, q2, r := c / 0x1000, c / 0x40 % 0x40, c % 0x40;
    assert c / 0x40 == q1 * 0x40 + q2;
  }

  /** The four-byte form; the second byte's range excludes overlong forms and code points above U+10FFFF. */
  lemma Split4(c: int)
    requires 0x10000 <= c < 0x110000
    ensures var q1, q2, q3, r := c / 0x40000, c / 0x1000 % 0x40, c / 0x40 % 0x40, c % 0x40;
      && 0 <= q1 <= 4 && 0 <= q2 < 0x40 && 0 <= q3 < 0x40 && 0 <= r < 0x40
      && c == q1 * 0x40000 + q2 * 0x1000 + q3 * 0x40 + r
      && (q1 == 0 ==> q2 >= 0x10) && (q1 == 4 ==> q2 < 0x10)
  {
    var q1, q2, q3, r := c / 0x40000, c / 0x1000 % 0x40, c / 0x40 % 0x40, c % 0x40;
    assert c / 0x1000 == q1 * 0x40 + q2;
    assert c / 0x40 == (q1 * 0x40 + q2) * 0x40 + q3;
  }

  lemma DecodeFirstOfEncode(c: CodePoint, rest: seq<byte>)
    requires !IsSurrogate(c)
    ensures DecodeFirst(EncodeScalar(c) + rest) == Some((c, |EncodeScalar(c)|))
  {
    var b := EncodeScalar(c) + rest;
    if c < 0x80 {
    } else if c < 0x800 {
      Split2(c);
      assert b[0] == 0xC0 + c / 0x40 && b[1] == 0x80 + c % 0x40;
    } else if c < 0x10000 {
      Split3(c);
      assert b[0] == 0xE0 + c / 0x1000 && b[1] == 0x80 + c / 0x40 % 0x40 && b[2] == 0x80 + c % 0x40;
    } else {
      Split4(c);
      assert b[0] == 0xF0 + c / 0x40000 && b[1] == 0x80 + c / 0x1000 % 0x40;
      assert b[2] == 0x80 + c / 0x40 % 0x40 && b[3] == 0x80 + c % 0x40;
    }
  }

  /** Decoding undoes encoding: every encodable text comes back unchanged. */
  lemma {:induction false} DecodeEncode(s: seq<CodePoint>)
    requires IsScalarText(s)
    ensures Encode(s).Some? && Decode(Encode(s).value) == Some(s)
  {
    if s != [] {
      var e := EncodeScalar(s[0]);
      DecodeEncode(s[1..]);
      var rest := Encode(s[1..]).value;
      DecodeFirstOfEncode(s[0], rest);
      assert (e + rest)[|e|..] == rest;
      assert [s[0]] + s[1..] == s;
    }
  }

  /** Reading the sextets of a number back out of its positional form. */
  lemma Sextets(q: int, x1: int, x2: int, x3: int)
    requires 0 <= q && 0 <= x1 < 0x40 && 0 <= x2 < 0x40 && 0 <= x3 < 0x40
    ensures var c := q * 0x40000 + x1 * 0x1000 + x2 * 0x40 + x3;
      c % 0x40 == x3 && c / 0x40 % 0x40 == x2 && c / 0x1000 % 0x40 == x1 &&
      c / 0x40 == q * 0x1000 + x1 * 0x40 + x2 && c / 0x1000 == q * 0x40 + x1 && c / 0x40000 == q
  {
  }

  lemma EncodeTwo(x0: byte, x1: byte)
    requires 0xC2 <= x0 <= 0xDF && IsContinuation(x1)
    ensures var c := (x0 - 0xC0) * 0x40 + (x1 - 0x80);
      0x80 <= c < 0x800 && EncodeScalar(c) == [x0, x1]
  {
    Sextets(0, 0, x0 - 0xC0, x1 - 0x80);
  }

  lemma EncodeThree(x0: byte, x1: byte, x2: byte)
    requires 0xE0 <= x0 <= 0xEF && IsContinuation(x2)
    requires (if x0 == 0xE0 then 0xA0 else 0x80) <= x1 <= (if x0 == 0xED then 0x9F else 0xBF)
    ensures var c := (x0 - 0xE0) * 0x1000 + (x1 - 0x80) * 0x40 + (x2 - 0x80);
      0x800 <= c < 0x10000 && !(0xD800 <= c <= 0xDFFF) && EncodeScalar(c) == [x0, x1, x2]
  {
    Sextets(0, x0 - 0xE0, x1 - 0x80, x2 - 0x80);
  }

  lemma EncodeFour(x0: byte, x1: byte, x2: byte, x3: byte)
    requires 0xF0 <= x0 <= 0xF4 && IsContinuation(x2) && IsContinuation(x3)
    requires (if x0 == 0xF0 then 0x90 else 0x80) <= x1 <= (if x0 == 0xF4 then 0x8F else 0xBF)
    ensures var c := (x0 - 0xF0) * 0x40000 + (x1 - 0x80) * 0x1000 + (x2 - 0x80) * 0x40 + (x3 - 0x80);
      0x10000 <= c < 0x110000 && EncodeScalar(c) == [x0, x1, x2, x3]
  {
    Sextets(x0 - 0xF0, x1 - 0x80, x2 - 0x80, x3 - 0x80);
  }

  lemma EncodeOfDecodeFirst(b: seq<byte>)
    requires |b| > 0 && DecodeFirst(b).Some?
    ensures EncodeScalar(DecodeFirst(b).value.0) == b[..DecodeFirst(b).value.1]
  {
    var b0: int := b[0];
    if 0xC2 <= b0 <= 0xDF {
      EncodeTwo(b[0], b[1]);
      assert b[..2] == [b[0], b[1]];
    } else if 0xE0 <= b0 <= 0xEF {
      EncodeThree(b[0], b[1], b[2]);
      assert b[..3] == [b[0], b[1], b[2]];
    } else if 0xF0 <= b0 <= 0xF4 {
      EncodeFour(b[0], b[1], b[2], b[3]);
      assert b[..4] == [b[0], b[1], b[2], b[3]];
    }
  }

  lemma EncodeCons(c: CodePoint, t: seq<CodePoint>)
    requires !IsSurrogate(c) && Encode(t).Some?
    ensures Encode([c] + t) == Some(EncodeScalar(c) + Encode(t).value)
  {
    assert ([c] + t)[0] == c && ([c] + t)[1..] == t;
  }

  /** A text that decodes is its first code point followed by the decoding of the rest. */
  lemma DecodeCons(b: seq<byte>)
    requires b != [] && Decode(b).Some?
    ensures DecodeFirst(b).Some? && Decode(b[DecodeFirst(b).value.1..]).Some?
    ensures Decode(b).value == [DecodeFirst(b).value.0] + Decode(b[DecodeFirst(b).value.1..]).value
  {
  }

  /** Encoding undoes decoding: a byte string that decodes is the only encoding of its text. */
  lemma {:induction false} EncodeDecode(b: seq<byte>)
    requires Decode(b).Some?
    ensures Encode(Decode(b).value) == Some(b)
    decreases |b|
  {
    if b != [] {
      DecodeCons(b);
      var c, n := DecodeFirst(b).value.0, DecodeFirst(b).value.1;
      var t := Decode(b[n..]).value;
      EncodeDecode(b[n..]);
      EncodeOfDecodeFirst(b);
      EncodeJoin(b, c, n, t);
    }
  }

  /** A scalar encoded as the first `n` bytes of `b`, before a text encoded as the rest. */
  lemma EncodeJoin(b: seq<byte>, c: CodePoint, n: nat, t: seq<CodePoint>)
    requires n <= |b| && !IsSurrogate(c)
    requires EncodeScalar(c) == b[..n] && Encode(t) == Some(b[n..])
    ensures Encode([c] + t) == Some(b)
  {
    EncodeCons(c, t);
    assert b[..n] + b[n..] == b;
  }

  /** ASCII bytes decode to the same values as code points. */
  lemma {:induction false} DecodeAscii(b: seq<byte>)
    requires IsAscii(b)
    ensures Decode(b) == Some(Widen(b))
    decreases |b|
  {
    if b != [] {
      DecodeAscii(b[1..]);
      assert Widen(b) == [b[0]] + Widen(b[1..]);
    }
  }

  /** ASCII code points encode to the same values as bytes. */
  lemma {:induction false} EncodeAscii(b: seq<byte>)
    requires IsAscii(b)
    ensures Encode(Widen(b)) == Some(b)
    decreases |b|
  {
    if b != [] {
      EncodeAscii(b[1..]);
      assert Widen(b)[1..] == Widen(b[1..]);
      assert [b[0]] + b[1..] == b;
    }
  }
}
