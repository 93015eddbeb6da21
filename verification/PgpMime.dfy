/** `multipart/encrypted` wrapping of the ciphertext (app/envelope/pgp_mime.py). */
module PgpMime {
  import opened Wrappers
  import opened Bytes
  import opened MimeSplit
  import opened MimePrint
  import opened ContentTypes

  datatype PgpError = MissingBoundary | Unsplittable(cause: SplitError) | WrongPartCount | WrongControlPart
    | EmptyPayload

  const PGP_PREFIX: Bytes := "----naesb-pgp-"
  const CONTROL_TYPE: Bytes := "application/pgp-encrypted"
  const CONTROL_FIELD := Field(CONTENT_TYPE, CONTROL_TYPE)
  const OCTET_STREAM: Bytes := "application/octet-stream"
  const OCTETS_FIELD := Field(CONTENT_TYPE, OCTET_STREAM)
  const TRANSFER_ENCODING: Bytes := "content-transfer-encoding"
  const BINARY: Bytes := "binary"
  const BINARY_FIELD := Field(TRANSFER_ENCODING, BINARY)
  const VERSION_BODY: Bytes := "Version: 1"
  const ENCRYPTED_TYPE: Bytes := "multipart/encrypted"
  const PROTOCOL_PARAM: Bytes := " protocol=\"application/pgp-encrypted\""

  /** The boundary of a fresh random token. */
  function Boundary(token: Bytes): Bytes {
    PGP_PREFIX + token
  }

  function WrapBody(ciphertext: Bytes, boundary: Bytes): Bytes {
    DASHES + boundary + CRLF
    + FieldLine(CONTROL_FIELD) + CRLF + CRLF
    + VERSION_BODY + CRLF
    + DASHES + boundary + CRLF
    + (FieldLine(OCTETS_FIELD) + CRLF + FieldLine(BINARY_FIELD)) + CRLF + CRLF
    + ciphertext + CRLF
    + DASHES + boundary + DASHES + CRLF
  }

  /** The content type, its boundary spelled as `value`. */
  function EncryptedType(value: Bytes): Bytes {
    ENCRYPTED_TYPE + [';'] + (BoundaryPiece(value) + [';'] + PROTOCOL_PARAM)
  }

  function WrapType(boundary: Bytes): Bytes {
    EncryptedType(Quoted(boundary))
  }

  function UnwrapParts(parts: seq<Part>): Result<Bytes, PgpError> {
    if |parts| != 2 then Err(WrongPartCount)
    else if !(CONTROL_TYPE <= Lower(HeaderOr(parts[0].headers, CONTENT_TYPE, []))) then Err(WrongControlPart)
    else if parts[1].body == [] then Err(EmptyPayload)
    else Ok(parts[1].body)
  }

  function Unwrap(data: Bytes, contentType: Bytes): Result<Bytes, PgpError> {
    match ContentTypeParam(contentType, BOUNDARY)
    case None => Err(MissingBoundary)
    case Some(boundary) =>
      match SplitParts(data, boundary)
      case Err(cause) => Err(Unsplittable(cause))
      case Ok(parts) => UnwrapParts(parts)
  }

  function ControlPart(): Entity {
    Entity([CONTROL_FIELD], VERSION_BODY)
  }

  function PayloadPart(ciphertext: Bytes): Entity {
    Entity([OCTETS_FIELD, BINARY_FIELD], ciphertext)
  }

  /**
   Unwrapping gives back exactly the wrapped bytes if and only if there are some and
   none of their lines starts with the boundary marker. Leading and trailing CR, LF
   and blank lines are preserved.
   */
  lemma UnwrapWrap(ciphertext: Bytes, token: Bytes)
    requires IsToken(token)
    ensures var b := Boundary(token);
      Unwrap(WrapBody(ciphertext, b), WrapType(b)) == Ok(ciphertext)
      <==> ciphertext != [] && Clean(ciphertext, Marker(b))
  {
    hide *;
    var b := Boundary(token);
    BoundaryPlain(token);
    QuotedSpells(b);
    WrapTypeIs(b);
    UnwrapSpelled(ciphertext, Quoted(b), b);
  }

  /**
   The same of any boundary, and of either spelling of it: a partner's header that gives it
   bare is read as the gateway's own, which gives it in quotes.
   */
  lemma UnwrapSpelled(ciphertext: Bytes, value: Bytes, b: Bytes)
    requires PlainBoundary(b) && Spells(value, b)
    ensures Unwrap(WrapBody(ciphertext, b), EncryptedType(value)) == Ok(ciphertext)
      <==> ciphertext != [] && Clean(ciphertext, Marker(b))
  {
    hide *;
    var m := Marker(b);
    PlainNewlineFree(b);
    MarkerNewlineFree(b);
    WrapIsDocument(ciphertext, b);
    PartsWellFormed(ciphertext, m);
    TwoParts(ControlPart(), PayloadPart(ciphertext), b);
    ParamPlain();
    BoundaryFirst(ENCRYPTED_TYPE, value, b, PROTOCOL_PARAM);
    UnwrapCases(ciphertext, value, b);
    PartsRead(ciphertext);
  }

  lemma WrapTypeIs(b: Bytes)
    ensures WrapType(b) == EncryptedType(Quoted(b))
  {
    hide EncryptedType;
  }

  lemma BoundaryPlain(token: Bytes)
    requires IsToken(token)
    ensures PlainBoundary(Boundary(token)) && NewlineFree(Boundary(token))
  {
    PrefixPlain();
    hide PGP_PREFIX;
    TokenBoundary(PGP_PREFIX, token);
  }

  lemma PrefixPlain()
    ensures PlainBoundary(PGP_PREFIX)
  {
  }

  lemma ParamPlain()
    ensures ';' !in ENCRYPTED_TYPE && ';' !in PROTOCOL_PARAM
  {
  }

  lemma ControlPlain()
    ensures PlainValue(CONTROL_TYPE) && IsLower(CONTROL_TYPE)
  {
  }

  lemma OctetStreamPlain()
    ensures PlainValue(OCTET_STREAM)
  {
  }

  lemma TransferEncodingPlain()
    ensures PlainName(TRANSFER_ENCODING)
  {
  }

  lemma BinaryPlain()
    ensures PlainValue(BINARY)
  {
  }

  lemma VersionPlain()
    ensures Printable(VERSION_BODY) && VERSION_BODY[0] != '-'
  {
  }

  lemma UnwrapCases(ciphertext: Bytes, value: Bytes, b: Bytes)
    requires ContentTypeParam(ENCRYPTED_TYPE + [';'] + (BoundaryPiece(value) + [';'] + PROTOCOL_PARAM), BOUNDARY) ==
      Some(b)
    ensures var r := SplitParts(WrapBody(ciphertext, b), b);
      var u := Unwrap(WrapBody(ciphertext, b), EncryptedType(value));
      if r.Ok? then u == UnwrapParts(r.value) else u.Err?
  {
    hide SplitParts, WrapBody, ContentTypeParam;
  }

  lemma WrapIsDocument(ciphertext: Bytes, boundary: Bytes)
    ensures WrapBody(ciphertext, boundary) == Document([ControlPart(), PayloadPart(ciphertext)], boundary, CRLF, CRLF)
  {
    hide FieldLine, CONTROL_FIELD, OCTETS_FIELD, BINARY_FIELD, VERSION_BODY;
    var e1, e2 := ControlPart(), PayloadPart(ciphertext);
    assert e2.fields[1..] == [BINARY_FIELD];
    var h1, h2 := FieldLine(CONTROL_FIELD), FieldLine(OCTETS_FIELD) + CRLF + FieldLine(BINARY_FIELD);
    assert HeaderBlock(e2.fields, CRLF) == h2;
    assert PieceOf(e1, CRLF) == CRLF + h1 + CRLF + CRLF + e1.body;
    assert PieceOf(e2, CRLF) == CRLF + h2 + CRLF + CRLF + e2.body;
    hide *;
    TwoPartDocument(e1, e2, boundary);
    Flatten(DASHES, boundary, h1, e1.body, h2, e2.body);
    WrapBodyIs(ciphertext, boundary);
  }

  lemma WrapBodyIs(ciphertext: Bytes, boundary: Bytes)
    ensures ControlPart().body == VERSION_BODY && PayloadPart(ciphertext).body == ciphertext
    ensures ControlPart().fields != [] && PayloadPart(ciphertext).fields != []
    ensures Marker(boundary) == DASHES + boundary
    ensures WrapBody(ciphertext, boundary) ==
      DASHES + boundary + CRLF + FieldLine(CONTROL_FIELD) + CRLF + CRLF + VERSION_BODY + CRLF + DASHES + boundary + CRLF
      + (FieldLine(OCTETS_FIELD) + CRLF + FieldLine(BINARY_FIELD)) + CRLF + CRLF + ciphertext + CRLF
      + DASHES + boundary + DASHES + CRLF
  {
    hide FieldLine, CONTROL_FIELD, OCTETS_FIELD, BINARY_FIELD, VERSION_BODY;
  }

  lemma PartsWellFormed(ciphertext: Bytes, marker: Bytes)
    requires marker != [] && marker[0] == '-'
    ensures WellFormed(ControlPart(), marker) && WellFormed(PayloadPart(ciphertext), marker)
    ensures ControlPart().fields != [] && PayloadPart(ciphertext).fields != []
    ensures NewlineFree(marker) ==> Clean(ControlPart().body, marker)
    ensures PayloadPart(ciphertext).body == ciphertext
  {
    ContentTypePlain();
    ControlPlain();
    OctetStreamPlain();
    TransferEncodingPlain();
    BinaryPlain();
    VersionPlain();
    hide CONTENT_TYPE, CONTROL_TYPE, OCTET_STREAM, TRANSFER_ENCODING, BINARY, VERSION_BODY, PlainName,
         PlainValue, WellFormedField;
    PlainFieldWellFormed(CONTROL_FIELD, marker);
    PlainFieldWellFormed(OCTETS_FIELD, marker);
    PlainFieldWellFormed(BINARY_FIELD, marker);
    PlainLineClean(VERSION_BODY, marker);
  }

  lemma PartsRead(ciphertext: Bytes)
    ensures UnwrapParts([Expected(ControlPart()), Expected(PayloadPart(ciphertext))]) ==
            if ciphertext == [] then Err(EmptyPayload) else Ok(ciphertext)
    ensures forall parts: seq<Part> :: UnwrapParts(parts).Ok? ==>
      |parts| == 2 && UnwrapParts(parts).value == parts[1].body && parts[1].body != []
  {
    ControlPlain();
    hide CONTROL_TYPE, CONTENT_TYPE, Lower, HeadersMap;
    SingleHeader(CONTENT_TYPE, CONTROL_TYPE);
    LowerFixed(CONTROL_TYPE);
  }

  /** Media types are compared in any case: parts whose types differ in case only are unwrapped alike. */
  lemma UnwrapIgnoresCase(parts: seq<Part>, parts': seq<Part>)
    requires SameButCase(parts, parts')
    ensures UnwrapParts(parts) == UnwrapParts(parts')
  {
    hide Lower, CONTENT_TYPE, CONTROL_TYPE;
  }

  /** Two parts, the first of the control type, the second not empty: that and nothing else is unwrapped. */
  lemma UnwrapAccepts(parts: seq<Part>)
    ensures UnwrapParts(parts).Ok? <==> |parts| == 2 && IsOfType(parts[0], CONTROL_TYPE) && parts[1].body != []
    ensures UnwrapParts(parts).Ok? ==> UnwrapParts(parts).value == parts[1].body
  {
    hide Lower, CONTENT_TYPE, CONTROL_TYPE, IsOfType;
    if |parts| == 2 {
      TypePrefix(parts[0], CONTROL_TYPE);
    }
  }
}
