/**
 * Content-id <-> name conversion (service_smtp/core/convert.py): a name becomes the
 * base64 of its UTF-8 bytes, read back as text; a content-id is decoded the other way.
 */
module Convert {
  import opened Wrappers
  import opened Utf8
  import Base64

  /** The exception each step can raise. */
  datatype ConvertError =
    | UnicodeEncodeError  // `str.encode()`: the text holds a lone surrogate
    | Base64Error         // `b64decode`: `binascii.Error`, the data ends mid-group
    | UnicodeDecodeError  // `bytes.decode('utf-8')`: the bytes are not well-formed UTF-8

  /**
   * `from_name_to_cid(name)`: `b64encode(name.encode()).decode('utf-8')`. Only the first
   * step can fail; the base64 text is ASCII, so it reads back character for byte.
   */
  function FromNameToCid(name: seq<CodePoint>): (r: Result<seq<CodePoint>, ConvertError>)
    ensures r.Ok? <==> IsScalarText(name)
    ensures r.Err? ==> r.error == UnicodeEncodeError
    ensures r.Ok? ==> r.value == Widen(Base64.Encode(Utf8.Encode(name).value))
  {
    match Utf8.Encode(name)
    case None => Err(UnicodeEncodeError)
    case Some(bytes) =>
      Base64.EncodeIsAscii(bytes);
      DecodeAscii(Base64.Encode(bytes));
      match Utf8.Decode(Base64.Encode(bytes))
      case None => Err(UnicodeDecodeError)
      case Some(cid) => Ok(cid)
  }

  /**
   * `from_cid_to_name(cid)`: `b64decode(cid.encode()).decode('utf-8')`. Each step raises
   * its own exception; a name it returns is the text whose UTF-8 bytes the content-id
   * decodes to.
   */
  function FromCidToName(cid: seq<CodePoint>): (r: Result<seq<CodePoint>, ConvertError>)
    ensures r == Err(UnicodeEncodeError) <==> !IsScalarText(cid)
    ensures r == Err(Base64Error) <==> IsScalarText(cid) && Base64.Decode(Utf8.Encode(cid).value).None?
    ensures r.Ok? <==>
      && IsScalarText(cid) && Base64.Decode(Utf8.Encode(cid).value).Some?
      && Utf8.Decode(Base64.Decode(Utf8.Encode(cid).value).value).Some?
    ensures r.Ok? ==>
      && IsScalarText(cid) && IsScalarText(r.value)
      && Base64.Decode(Utf8.Encode(cid).value) == Utf8.Encode(r.value)
  {
    match Utf8.Encode(cid)
    case None => Err(UnicodeEncodeError)
    case Some(bytes) =>
      match Base64.Decode(bytes)
      case None => Err(Base64Error)
      case Some(raw) =>
        match Utf8.Decode(raw)
        case None => Err(UnicodeDecodeError)
        case Some(name) =>
          EncodeDecode(raw);
          Ok(name)
  }

  /**
   * A name converts exactly when it has no lone surrogate, and then its content-id is
   * the base64 text of its UTF-8 bytes: 4 characters per started group of 3 bytes,
   * alphabet characters followed by at most two `=`.
   */
  lemma NameToCid(name: seq<CodePoint>)
    ensures FromNameToCid(name).Ok? <==> IsScalarText(name)
    ensures FromNameToCid(name).Ok? ==>
      var bytes := Utf8.Encode(name).value;
      var cid := FromNameToCid(name).value;
      && cid == Widen(Base64.Encode(bytes))
      && |cid| == 4 * ((|bytes| + 2) / 3)
      && Base64.PadCount(|bytes|) <= 2
      && (forall i :: 0 <= i < |cid| - Base64.PadCount(|bytes|) ==> Base64.IsAlphabet(cid[i]))
      && (forall i :: |cid| - Base64.PadCount(|bytes|) <= i < |cid| ==> cid[i] == Base64.Pad)
  {
    if IsScalarText(name) {
      var bytes := Utf8.Encode(name).value;
      Base64.EncodeShape(bytes);
      Base64.EncodeIsAscii(bytes);
      DecodeAscii(Base64.Encode(bytes));
    }
  }

  /** Converting a name to a content-id and back gives the name. */
  lemma RoundTrip(name: seq<CodePoint>)
    requires FromNameToCid(name).Ok?
    ensures FromCidToName(FromNameToCid(name).value) == Ok(name)
  {
    NameToCid(name);
    var bytes := Utf8.Encode(name).value;
    var b64 := Base64.Encode(bytes);
    Base64.EncodeIsAscii(bytes);
    EncodeAscii(b64);
    Base64.DecodeEncode(bytes);
    Utf8.DecodeEncode(name);
  }

  /** Distinct names get distinct content-ids. */
  lemma NameToCidInjective(n1: seq<CodePoint>, n2: seq<CodePoint>)
    requires FromNameToCid(n1).Ok? && FromNameToCid(n2).Ok?
    requires FromNameToCid(n1) == FromNameToCid(n2)
    ensures n1 == n2
  {
    RoundTrip(n1);
    RoundTrip(n2);
  }

  lemma EmptyName()
    ensures FromNameToCid([]) == Ok([])
  {
  }

  /**
   * An ASCII content-id without `=` is refused unless its base64 characters fill
   * whole groups of four (`binascii.Error`: incorrect padding).
   */
  lemma CidWithoutPadding(b: seq<byte>)
    requires IsAscii(b) && forall i :: 0 <= i < |b| ==> b[i] != Base64.Pad
    requires Base64.DataCount(b) % 4 != 0
    ensures FromCidToName(Widen(b)) == Err(Base64Error)
  {
    EncodeAscii(b);
    Base64.DecodeWithoutPad(b);
  }

  /**
   * An ASCII content-id made of data characters and `k` pads is refused when the pads
   * do not complete the last group (`binascii.Error`: incorrect padding).
   */
  lemma CidBadPadding(d: seq<byte>, k: nat)
    requires IsAscii(d) && forall i :: 0 <= i < |d| ==> d[i] != Base64.Pad
    requires var q := Base64.DataCount(d) % 4; q == 1 || (q >= 2 && q + k < 4)
    ensures FromCidToName(Widen(d + Base64.Pads(k))) == Err(Base64Error)
  {
    assert IsAscii(d + Base64.Pads(k));
    EncodeAscii(d + Base64.Pads(k));
    Base64.DecodePadded(d, k);
  }

  /** A content-id whose base64 decodes to bytes that are not UTF-8 is refused. */
  lemma CidNotUtf8(b: seq<byte>)
    requires IsAscii(b) && Base64.Decode(b).Some? && Utf8.Decode(Base64.Decode(b).value).None?
    ensures FromCidToName(Widen(b)) == Err(UnicodeDecodeError)
  {
    EncodeAscii(b);
  }

  /** For instance "/w==" decodes to the single byte 0xFF, which no UTF-8 text contains. */
  lemma CidOfByteFF()
    ensures FromCidToName([0x2F, 0x77, 0x3D, 0x3D]) == Err(UnicodeDecodeError)
  {
    var b: seq<byte> := [0x2F, 0x77, 0x3D, 0x3D];
    assert Widen(b) == [0x2F, 0x77, 0x3D, 0x3D];
    var s2 := Base64.State(2, 0, 0, [0xFF]);
    assert Base64.Run(b, Base64.Start) == Base64.Run(b[1..], Base64.State(1, 63, 0, []));
    assert b[1..][0] == 0x77 && b[1..][1..] == b[2..] && Base64.Value(0x77) == 48;
    assert Base64.Feed(Base64.State(1, 63, 0, []), 48) == s2;
    assert Base64.Run(b[1..], Base64.State(1, 63, 0, [])) == Base64.Run(b[2..], s2);
    assert Base64.Run(b[2..], s2) == Base64.Run(b[3..], s2.(pads := 1));
    assert Base64.Decode(b) == Some([0xFF]);
    CidNotUtf8(b);
  }
}
