/**
 * Base64 with the standard alphabet and `=` padding (section 4 of RFC 4648), over
 * byte strings, as Python's `base64.b64encode` and `base64.b64decode` compute it.
 *   - `Encode` turns every 3 input bytes into 4 alphabet characters and pads the
 *     last group with `=`.
 *   - `Decode` is the non-validating decoder that `b64decode` uses by default
 *     (`binascii.a2b_base64` without strict mode). It reads one character at a time,
 *     skips bytes outside the alphabet, and stops at the pad that completes a group.
 *     It fails when the data characters end in the middle of a group.
 */
module Base64 {
  import opened Wrappers
  import opened Utf8

  const Pad: byte := 0x3D  // '='

  /** The character for a 6-bit value: A-Z, a-z, 0-9, '+', '/'. */
  function Char(v: int): (ch: byte)
    requires 0 <= v < 64
    ensures ch < 0x80 && ch != Pad
  {
    if v < 26 then 0x41 + v
    else if v < 52 then 0x61 + (v - 26)
    else if v < 62 then 0x30 + (v - 52)
    else if v == 62 then 0x2B
    else 0x2F
  }

  /** The 6-bit value of an alphabet character; 64 for every other byte (the decoder skips those). */
  function Value(ch: byte): (v: int)
    ensures 0 <= v <= 64
  {
    if 0x41 <= ch <= 0x5A then ch - 0x41
    else if 0x61 <= ch <= 0x7A then ch - 0x61 + 26
    else if 0x30 <= ch <= 0x39 then ch - 0x30 + 52
    else if ch == 0x2B then 62
    else if ch == 0x2F then 63
    else 64
  }

  predicate IsAlphabet(ch: byte) {
    Value(ch) < 64
  }

  lemma ValueOfChar(v: int)
    requires 0 <= v < 64
    ensures Value(Char(v)) == v
  {
  }

  /** The four characters of a full group of three bytes. */
  function Quad(x: byte, y: byte, z: byte): seq<byte> {
    [Char(x / 4), Char(x % 4 * 16 + y / 16), Char(y % 16 * 4 + z / 64), Char(z % 64)]
  }

  /** `base64.b64encode(b)`. */
  function Encode(b: seq<byte>): (r: seq<byte>)
    ensures |r| == 4 * ((|b| + 2) / 3)
    decreases |b|
  {
    if |b| == 0 then []
    else if |b| == 1 then [Char(b[0] / 4), Char(b[0] % 4 * 16), Pad, Pad]
    else if |b| == 2 then [Char(b[0] / 4), Char(b[0] % 4 * 16 + b[1] / 16), Char(b[1] % 16 * 4), Pad]
    else Quad(b[0], b[1], b[2]) + Encode(b[3..])
  }

  /** The number of `=` that end the encoding of `n` bytes. */
  function PadCount(n: nat): nat {
    (3 - n % 3) % 3
  }

  lemma QuadIsAlphabet(x: byte, y: byte, z: byte)
    ensures forall i :: 0 <= i < 4 ==> IsAlphabet(Quad(x, y, z)[i])
  {
    ValueOfChar(x / 4);
    ValueOfChar(x % 4 * 16 + y / 16);
    ValueOfChar(y % 16 * 4 + z / 64);
    ValueOfChar(z % 64);
  }

  /** Alphabet characters followed by `pads` pad characters. */
  predicate PaddedShape(e: seq<byte>, pads: nat) {
    && pads <= |e|
    && (forall i :: 0 <= i < |e| - pads ==> IsAlphabet(e[i]))
    && (forall i :: |e| - pads <= i < |e| ==> e[i] == Pad)
  }

  lemma EncodeShapeShort(b: seq<byte>)
    requires |b| < 3
    ensures |Encode(b)| == 4 * ((|b| + 2) / 3)
    ensures PaddedShape(Encode(b), PadCount(|b|))
  {
    if |b| == 1 {
      ValueOfChar(b[0] / 4);
      ValueOfChar(b[0] % 4 * 16);
    } else if |b| == 2 {
      ValueOfChar(b[0] / 4);
      ValueOfChar(b[0] % 4 * 16 + b[1] / 16);
      ValueOfChar(b[1] % 16 * 4);
    }
  }

  /** A full group in front keeps the shape of what follows. */
  lemma QuadShape(x: byte, y: byte, z: byte, r: seq<byte>, pads: nat)
    requires PaddedShape(r, pads)
    ensures PaddedShape(Quad(x, y, z) + r, pads)
  {
    QuadIsAlphabet(x, y, z);
    var e := Quad(x, y, z) + r;
    forall i | 4 <= i < |e| ensures e[i] == r[i - 4] {
    }
  }

  /**
   * The encoding takes 4 characters per started group of 3 bytes; it is alphabet
   * characters followed by exactly `PadCount(|b|)` (at most two) pads.
   */
  lemma {:induction false} EncodeShape(b: seq<byte>)
    ensures |Encode(b)| == 4 * ((|b| + 2) / 3)
    ensures PadCount(|b|) <= 2 && PadCount(|b|) <= |Encode(b)|
    ensures forall i :: 0 <= i < |Encode(b)| - PadCount(|b|) ==> IsAlphabet(Encode(b)[i])
    ensures forall i :: |Encode(b)| - PadCount(|b|) <= i < |Encode(b)| ==> Encode(b)[i] == Pad
    decreases |b|
  {
    EncodeShapeInner(b);
  }

  /** Three more bytes take one more group and leave the pad count alone. */
  lemma OneMoreGroup(n: nat)
    ensures 4 * ((n + 3 + 2) / 3) == 4 + 4 * ((n + 2) / 3)
    ensures PadCount(n + 3) == PadCount(n)
  {
  }

  lemma {:induction false} EncodeShapeInner(b: seq<byte>)
    ensures |Encode(b)| == 4 * ((|b| + 2) / 3)
    ensures PaddedShape(Encode(b), PadCount(|b|))
    decreases |b|
  {
    if |b| >= 3 {
      EncodeShapeInner(b[3..]);
      OneMoreGroup(|b[3..]|);
      assert Encode(b) == Quad(b[0], b[1], b[2]) + Encode(b[3..]);
      QuadShape(b[0], b[1], b[2], Encode(b[3..]), PadCount(|b|));
    } else {
      EncodeShapeShort(b);
    }
  }

  /** The output is ASCII, so it reads back as the same text. */
  lemma EncodeIsAscii(b: seq<byte>)
    ensures IsAscii(Encode(b))
  {
    EncodeShape(b);
  }

  /**
   * The decoder's state: how many characters of the current group it has read
   * (`quad_pos`), the bits still to be output (`leftchar`), how many pads it has
   * counted, and the bytes decoded so far.
   */
  datatype State = State(quadPos: int, left: int, pads: int, out: seq<byte>)

  const Start := State(0, 0, 0, [])

  predicate Sound(st: State) {
    && 0 <= st.quadPos < 4
    && 0 <= st.left < (if st.quadPos == 1 then 64 else if st.quadPos == 2 then 16 else 4)
    && 0 <= st.pads
  }

  /** The state after one data character of value `v`. */
  function Feed(st: State, v: int): (st': State)
    requires Sound(st) && 0 <= v < 64
    ensures Sound(st') && st'.quadPos == (st.quadPos + 1) % 4 && st'.pads == 0
    ensures |st'.out| == |st.out| + (if st.quadPos == 0 then 0 else 1)
  {
    if st.quadPos == 0 then State(1, v, 0, st.out)
    else if st.quadPos == 1 then State(2, v % 16, 0, st.out + [st.left * 4 + v / 16])
    else if st.quadPos == 2 then State(3, v % 4, 0, st.out + [st.left * 16 + v / 4])
    else State(0, 0, 0, st.out + [st.left * 64 + v])
  }

  /** The decoder run over `s` from state `st`; `None` when the data ends mid-group. */
  function Run(s: seq<byte>, st: State): Option<seq<byte>>
    requires Sound(st)
    decreases |s|
  {
    if s == [] then
      if st.quadPos == 0 then Some(st.out) else None
    else if s[0] == Pad then
      if st.quadPos >= 2 && st.quadPos + st.pads + 1 >= 4 then Some(st.out)
      else Run(s[1..], if st.quadPos >= 2 then st.(pads := st.pads + 1) else st)
    else if Value(s[0]) == 64 then Run(s[1..], st)
    else Run(s[1..], Feed(st, Value(s[0])))
  }

  /** `base64.b64decode(s)`; `None` is the `binascii.Error` it raises. */
  function Decode(s: seq<byte>): Option<seq<byte>> {
    Run(s, Start)
  }

  /** One data character `ch` at the head of the input is fed to the state. */
  lemma RunData(s: seq<byte>, st: State)
    requires Sound(st) && s != [] && IsAlphabet(s[0]) && s[0] != Pad
    ensures Run(s, st) == Run(s[1..], Feed(st, Value(s[0])))
  {
  }

  lemma RunQuad(x: byte, y: byte, z: byte, rest: seq<byte>, out: seq<byte>)
    ensures Run(Quad(x, y, z) + rest, State(0, 0, 0, out)) == Run(rest, State(0, 0, 0, out + [x, y, z]))
  {
    var s := Quad(x, y, z) + rest;
    ValueOfChar(x / 4);
    ValueOfChar(x % 4 * 16 + y / 16);
    ValueOfChar(y % 16 * 4 + z / 64);
    ValueOfChar(z % 64);
    var s0 := State(0, 0, 0, out);
    var s1 := State(1, x / 4, 0, out);
    var s2 := State(2, y / 16, 0, out + [x]);
    var s3 := State(3, z / 64, 0, out + [x, y]);
    assert Feed(s0, x / 4) == s1;
    assert Feed(s1, x % 4 * 16 + y / 16) == s2;
    assert Feed(s2, y % 16 * 4 + z / 64) == s3;
    assert Feed(s3, z % 64) == State(0, 0, 0, out + [x, y, z]);
    RunData(s, s0);
    RunData(s[1..], s1);
    RunData(s[2..], s2);
    assert s[1..][1..] == s[2..] && s[2..][1..] == s[3..];
    RunData(s[3..], s3);
    assert s[3..][1..] == rest;
  }

  /** The last group of one byte: two characters and two pads. */
  lemma RunEncodeOne(x: byte, out: seq<byte>)
    ensures Run(Encode([x]), State(0, 0, 0, out)) == Some(out + [x])
  {
    var st := State(0, 0, 0, out);
    ValueOfChar(x / 4);
    ValueOfChar(x % 4 * 16);
    var s := Encode([x]);
    var s1 := Feed(st, x / 4);
    var s2 := State(2, 0, 0, out + [x]);
    assert Feed(s1, x % 4 * 16) == s2;
    RunData(s, st);
    RunData(s[1..], s1);
    assert s[1..][1..] == [Pad, Pad];
    assert Run([Pad, Pad], s2) == Run([Pad], s2.(pads := 1));
  }

  /** The last group of two bytes: three characters and one pad. */
  lemma RunEncodeTwo(x: byte, y: byte, out: seq<byte>)
    ensures Run(Encode([x, y]), State(0, 0, 0, out)) == Some(out + [x, y])
  {
    var st := State(0, 0, 0, out);
    ValueOfChar(x / 4);
    ValueOfChar(x % 4 * 16 + y / 16);
    ValueOfChar(y % 16 * 4);
    var s := Encode([x, y]);
    var s1 := Feed(st, x / 4);
    var s2 := State(2, y / 16, 0, out + [x]);
    var s3 := State(3, 0, 0, out + [x, y]);
    assert Feed(s1, x % 4 * 16 + y / 16) == s2;
    assert Feed(s2, y % 16 * 4) == s3;
    RunData(s, st);
    RunData(s[1..], s1);
    assert s[1..][1..] == s[2..];
    RunData(s[2..], s2);
    assert s[2..][1..] == [Pad];
  }

  /** Decoding a valid encoding starting from any group boundary appends the encoded bytes. */
  lemma {:induction false} RunEncode(b: seq<byte>, out: seq<byte>)
    ensures Run(Encode(b), State(0, 0, 0, out)) == Some(out + b)
    decreases |b|
  {
    if |b| == 0 {
      assert out + b == out;
    } else if |b| == 1 {
      assert b == [b[0]];
      RunEncodeOne(b[0], out);
    } else if |b| == 2 {
      assert b == [b[0], b[1]];
      RunEncodeTwo(b[0], b[1], out);
    } else if |b| >= 3 {
      RunQuad(b[0], b[1], b[2], Encode(b[3..]), out);
      RunEncode(b[3..], out + [b[0], b[1], b[2]]);
      assert out + [b[0], b[1], b[2]] + b[3..] == out + b;
    }
  }

  /** Decoding undoes encoding. */
  lemma DecodeEncode(b: seq<byte>)
    ensures Decode(Encode(b)) == Some(b)
  {
    RunEncode(b, []);
    assert [] + b == b;
  }

  /** The number of alphabet characters in `s`. */
  function DataCount(s: seq<byte>): nat {
    if s == [] then 0 else (if IsAlphabet(s[0]) then 1 else 0) + DataCount(s[1..])
  }

  /**
   * Without any pad, the decoder succeeds exactly when the data characters fill whole
   * groups of four: one, two or three characters left over are an error.
   */
  lemma {:induction false} RunWithoutPad(s: seq<byte>, st: State)
    requires Sound(st)
    ensures (forall i :: 0 <= i < |s| ==> s[i] != Pad) ==> (Run(s, st).Some? <==> (st.quadPos + DataCount(s)) % 4 == 0)
    decreases |s|
  {
    if s != [] && s[0] != Pad {
      if Value(s[0]) == 64 {
        RunWithoutPad(s[1..], st);
      } else {
        RunWithoutPad(s[1..], Feed(st, Value(s[0])));
      }
    }
  }

  lemma DecodeWithoutPad(s: seq<byte>)
    requires forall i :: 0 <= i < |s| ==> s[i] != Pad
    ensures Decode(s).Some? <==> DataCount(s) % 4 == 0
  {
    RunWithoutPad(s, Start);
  }

  /** `k` pad characters. */
  function Pads(k: nat): (p: seq<byte>)
    ensures |p| == k && forall i :: 0 <= i < k ==> p[i] == Pad
  {
    seq(k, _ => Pad)
  }

  /**
   * Pads alone: after a whole group they change nothing; after one data character they
   * are skipped; after two or three they end the input once they complete the group.
   */
  lemma {:induction false} RunPads(k: nat, st: State)
    requires Sound(st) && (st.quadPos >= 2 ==> st.quadPos + st.pads < 4)
    ensures Run(Pads(k), st).Some? <==>
      st.quadPos == 0 || (st.quadPos >= 2 && st.quadPos + st.pads + k >= 4)
    decreases k
  {
    if k > 0 {
      var s := Pads(k);
      assert s[0] == Pad && s[1..] == Pads(k - 1);
      if !(st.quadPos >= 2 && st.quadPos + st.pads + 1 >= 4) {
        RunPads(k - 1, if st.quadPos >= 2 then st.(pads := st.pads + 1) else st);
      }
    }
  }

  /**
   * Data followed by `k` pads: the decoder succeeds exactly when the data fills whole
   * groups, or leaves two or three characters that the pads complete to four.
   */
  lemma {:induction false} RunPadded(d: seq<byte>, k: nat, st: State)
    requires Sound(st) && st.pads == 0
    requires forall i :: 0 <= i < |d| ==> d[i] != Pad
    ensures var q := (st.quadPos + DataCount(d)) % 4;
      Run(d + Pads(k), st).Some? <==> q == 0 || (q >= 2 && q + k >= 4)
    decreases |d|
  {
    if d == [] {
      assert d + Pads(k) == Pads(k);
      RunPads(k, st);
    } else {
      var s := d + Pads(k);
      assert s[0] == d[0] && s[1..] == d[1..] + Pads(k);
      var st' := if Value(d[0]) == 64 then st else Feed(st, Value(d[0]));
      assert Run(s, st) == Run(d[1..] + Pads(k), st');
      assert DataCount(d) == (if Value(d[0]) == 64 then 0 else 1) + DataCount(d[1..]);
      assert (st'.quadPos + DataCount(d[1..])) % 4 == (st.quadPos + DataCount(d)) % 4;
      RunPadded(d[1..], k, st');
    }
  }

  /**
   * `b64decode` of data followed by pads, the shape of every base64 text: padding that
   * does not complete the last group is an error (`binascii.Error`), as is a lone
   * character left over.
   */
  lemma DecodePadded(d: seq<byte>, k: nat)
    requires forall i :: 0 <= i < |d| ==> d[i] != Pad
    ensures var q := DataCount(d) % 4;
      Decode(d + Pads(k)).Some? <==> q == 0 || (q >= 2 && q + k >= 4)
  {
    RunPadded(d, k, Start);
  }

  /** For instance "QQ=" is refused: one pad cannot complete a group of two characters. */
  lemma ShortPadding()
    ensures Decode([0x51, 0x51, Pad]).None?
  {
    var d: seq<byte> := [0x51, 0x51];
    assert DataCount(d) == 2 by {
      assert d[1..] == [0x51] && d[1..][1..] == [];
    }
    assert d + Pads(1) == [0x51, 0x51, Pad];
    DecodePadded(d, 1);
  }
}
