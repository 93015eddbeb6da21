/** The gisb-acknowledgement-receipt (app/envelope/receipt.py): its fields, its report and its signed wrapper. */
module Receipts {
  import opened Wrappers
  import opened Bytes
  import opened MimeSplit
  import opened MimePrint
  import opened ContentTypes
  import opened ErrorCodes
  import Decimal

  datatype Receipt = Receipt(timeC: Bytes, requestStatus: Bytes, serverId: Bytes, transId: Bytes) {
    predicate IsOk() {
      requestStatus == OK_STATUS
    }
  }

  datatype ReceiptError =
    | NoBoundary
    | Unsplittable(cause: SplitError)
    | NoTextPart
    | MissingField
    | WrongPartCount
    | NoReportType
    | WrongSignatureType

  const OK_STATUS: Bytes := "ok"
  const STAR: Octet := '*'
  const EQ: Octet := '='
  const COLON: Octet := ':'

  // ------------------------------------------------------------------
  // Making receipts
  // ------------------------------------------------------------------

  function SanitizeOctet(c: Octet): Octet {
    if c == STAR || c == CR || c == LF then ' ' else c
  }

  /** `re.sub("[*\r\n]", " ", value)`. */
  function Sanitize(value: Bytes): (r: Bytes)
    ensures |r| == |value|
    ensures forall i :: 0 <= i < |r| ==> r[i] == SanitizeOctet(value[i])
  {
    if value == [] then [] else [SanitizeOctet(value[0])] + Sanitize(value[1..])
  }

  function OkReceipt(serverId: Bytes, transId: nat, timeC: Bytes): Receipt {
    Receipt(timeC, OK_STATUS, serverId, Decimal.Of(transId))
  }

  /** `standard` is the code's own description, used when the caller gives none or an empty one. */
  function RejectedStatus(code: ErrorCode, description: Option<Bytes>, standard: Bytes): Bytes {
    var text := if description.Some? && description.value != [] then Sanitize(description.value) else standard;
    Value(code) + [COLON, ' '] + text
  }

  function RejectedReceipt(
    serverId: Bytes, transId: nat, code: ErrorCode, description: Option<Bytes>, standard: Bytes, timeC: Bytes
  ): Receipt {
    Receipt(timeC, RejectedStatus(code, description, standard), serverId, Decimal.Of(transId))
  }

  // ------------------------------------------------------------------
  // The field language
  // ------------------------------------------------------------------

  const TIME_C: Bytes := "time-c"
  const REQUEST_STATUS: Bytes := "request-status"
  const SERVER_ID: Bytes := "server-id"
  const TRANS_ID: Bytes := "trans-id"

  function StarLine(key: Bytes, value: Bytes): Bytes {
    key + [EQ] + value + [STAR]
  }

  function FieldLines(r: Receipt): seq<Bytes> {
    [StarLine(TIME_C, r.timeC), StarLine(REQUEST_STATUS, r.requestStatus),
     StarLine(SERVER_ID, r.serverId), StarLine(TRANS_ID, r.transId)]
  }

  /** Each line followed by CRLF. */
  function Lines(lines: seq<Bytes>): Bytes {
    if lines == [] then [] else lines[0] + CRLF + Lines(lines[1..])
  }

  /** Lines separated by CRLF. */
  function JoinLines(lines: seq<Bytes>): Bytes
    requires lines != []
  {
    if |lines| == 1 then lines[0] else lines[0] + CRLF + JoinLines(lines[1..])
  }

  function FieldsText(r: Receipt): Bytes {
    JoinLines(FieldLines(r)) + CRLF
  }

  function AddValue(values: map<Bytes, Bytes>, chunk: Bytes): map<Bytes, Bytes> {
    var c := Strip(chunk);
    if c == [] || EQ !in c then values
    else
      var (key, value) := Partition(c, EQ);
      values[Strip(key) := Strip(value)]
  }

  function ValuesOf(chunks: seq<Bytes>): map<Bytes, Bytes> {
    if chunks == [] then map[]
    else AddValue(ValuesOf(chunks[..|chunks| - 1]), chunks[|chunks| - 1])
  }

  function ReceiptOf(values: map<Bytes, Bytes>): Result<Receipt, ReceiptError> {
    if TIME_C in values && REQUEST_STATUS in values && SERVER_ID in values && TRANS_ID in values then
      Ok(Receipt(values[TIME_C], values[REQUEST_STATUS], values[SERVER_ID], values[TRANS_ID]))
    else Err(MissingField)
  }

  function ParseFields(text: Bytes): Result<Receipt, ReceiptError> {
    ReceiptOf(ValuesOf(SplitOn(ReplaceCrlf(text), STAR)))
  }

  method ReadFields(text: Bytes) returns (r: Result<Receipt, ReceiptError>)
    ensures r == ParseFields(text)
  {
    var values: map<Bytes, Bytes> := map[];
    var chunks := SplitOn(ReplaceCrlf(text), STAR);
    hide AddValue, ValuesOf, SplitOn, ReplaceCrlf, ReceiptOf;
    ValuesOfNone(chunks);
    for i := 0 to |chunks|
      invariant values == ValuesOf(chunks[..i])
    {
      ValuesOfNext(chunks, i);
      values := AddValue(values, chunks[i]);
    }
    assert chunks[..|chunks|] == chunks;
    r := ReceiptOf(values);
  }

  lemma ValuesOfNone(chunks: seq<Bytes>)
    ensures ValuesOf(chunks[..0]) == map[]
  {
    hide AddValue;
  }

  lemma ValuesOfNext(chunks: seq<Bytes>, i: nat)
    requires i < |chunks|
    ensures ValuesOf(chunks[..i + 1]) == AddValue(ValuesOf(chunks[..i]), chunks[i])
  {
    hide AddValue;
    assert chunks[..i + 1][..i] == chunks[..i];
  }

  // ------------------------------------------------------------------
  // The report
  // ------------------------------------------------------------------

  const REPORT_PREFIX: Bytes := "----naesb-report-"
  const TEXT_HTML: Bytes := "text/html"
  const TEXT_PLAIN: Bytes := "text/plain"
  const HTML_OPEN: Bytes := "<HTML><HEAD>"
  const HTML_TITLE: Bytes := "<TITLE>Acknowledgement Receipt</TITLE>"
  const HTML_BODY: Bytes := "</HEAD><BODY><P>"
  const HTML_HEAD := HTML_OPEN + HTML_TITLE + HTML_BODY
  const HTML_TAIL: Bytes := "</P></BODY></HTML>"
  const REPORT_HEAD: Bytes := "multipart/report"
  const REPORT_PARAM: Bytes := "report-type=\"gisb-acknowledgement-receipt\""

  function EncodeBody(r: Receipt, boundary: Bytes): Bytes {
    DASHES + boundary + CRLF
    + FieldLine(Field(CONTENT_TYPE, TEXT_HTML)) + CRLF + CRLF
    + (HTML_HEAD + CRLF + FieldsText(r) + HTML_TAIL) + CRLF
    + DASHES + boundary + CRLF
    + FieldLine(Field(CONTENT_TYPE, TEXT_PLAIN)) + CRLF + CRLF
    + FieldsText(r)
    + DASHES + boundary + DASHES + CRLF
  }

  /** The report's content type, its boundary spelled as `value`. */
  function ReportTypeWith(value: Bytes): Bytes {
    REPORT_HEAD + [';'] + (([' '] + REPORT_PARAM) + [';'] + BoundaryPiece(value))
  }

  function ReportType(boundary: Bytes): Bytes {
    ReportTypeWith(Quoted(boundary))
  }

  function FirstTextPlain(parts: seq<Part>): Option<Bytes> {
    if parts == [] then None
    else if TEXT_PLAIN <= Lower(HeaderOr(parts[0].headers, CONTENT_TYPE, [])) then Some(parts[0].body)
    else FirstTextPlain(parts[1..])
  }

  function DecodeParts(parts: seq<Part>): Result<Receipt, ReceiptError> {
    match FirstTextPlain(parts)
    case None => Err(NoTextPart)
    case Some(body) => ParseFields(body)
  }

  function DecodeReport(data: Bytes, contentType: Bytes): Result<Receipt, ReceiptError> {
    match ContentTypeParam(contentType, BOUNDARY)
    case None => Err(NoBoundary)
    case Some(boundary) =>
      match SplitParts(data, boundary)
      case Err(cause) => Err(Unsplittable(cause))
      case Ok(parts) => DecodeParts(parts)
  }

  method DecodeReportPart(data: Bytes, contentType: Bytes) returns (r: Result<Receipt, ReceiptError>)
    ensures r == DecodeReport(data, contentType)
  {
    var boundary := ContentTypeParam(contentType, BOUNDARY);
    if boundary.None? {
      return Err(NoBoundary);
    }
    var split := SplitMimeParts(data, boundary.value);
    if split.Err? {
      return Err(Unsplittable(split.error));
    }
    var parts := split.value;
    var textBody: Option<Bytes> := None;
    for i := 0 to |parts|
      invariant textBody == None
      invariant FirstTextPlain(parts) == FirstTextPlain(parts[i..])
    {
      assert parts[i..][1..] == parts[i + 1..];
      if TEXT_PLAIN <= Lower(HeaderOr(parts[i].headers, CONTENT_TYPE, [])) {
        textBody := Some(parts[i].body);
        break;
      }
    }
    if textBody.None? {
      return Err(NoTextPart);
    }
    r := ReadFields(textBody.value);
  }

  // ------------------------------------------------------------------
  // The signed wrapper
  // ------------------------------------------------------------------

  const SIGNED_PREFIX: Bytes := "----naesb-signed-"
  const PGP_SIGNATURE: Bytes := "application/pgp-signature"
  const SIGNED_HEAD: Bytes := "multipart/signed"
  const MICALG_EQ: Bytes := "micalg="
  const PROTOCOL_PARAM: Bytes := "protocol=\"application/pgp-signature\""

  function BuildSignedBody(report: Bytes, reportType: Bytes, signature: Bytes, boundary: Bytes): Bytes {
    DASHES + boundary + CRLF
    + FieldLine(Field(CONTENT_TYPE, reportType)) + CRLF + CRLF
    + report + CRLF
    + DASHES + boundary + CRLF
    + FieldLine(Field(CONTENT_TYPE, PGP_SIGNATURE)) + CRLF + CRLF
    + RStrip(signature, NEWLINES) + CRLF
    + DASHES + boundary + DASHES + CRLF
  }

  function MicalgParam(micalg: Bytes): Bytes {
    MICALG_EQ + Quoted(micalg)
  }

  /** The signed wrapper's content type, its boundary spelled as `value`. */
  function SignedTypeWith(micalg: Bytes, value: Bytes): Bytes {
    SIGNED_HEAD + [';']
      + (([' '] + MicalgParam(micalg)) + [';'] + (([' '] + PROTOCOL_PARAM) + [';'] + BoundaryPiece(value)))
  }

  function SignedType(micalg: Bytes, boundary: Bytes): Bytes {
    SignedTypeWith(micalg, Quoted(boundary))
  }

  datatype Signed = Signed(report: Bytes, reportType: Bytes, signature: Bytes)

  function SignedParts(parts: seq<Part>): Result<Signed, ReceiptError> {
    if |parts| != 2 then Err(WrongPartCount)
    else
      var reportType := HeaderOr(parts[0].headers, CONTENT_TYPE, []);
      if reportType == [] then Err(NoReportType)
      else if !(PGP_SIGNATURE <= Lower(HeaderOr(parts[1].headers, CONTENT_TYPE, []))) then Err(WrongSignatureType)
      else Ok(Signed(parts[0].body, reportType, parts[1].body))
  }

  /** The header's boundary parameter, or the token read off the body when the header has none. */
  function SignedBoundary(data: Bytes, contentType: Bytes): Option<Bytes> {
    match ContentTypeParam(contentType, BOUNDARY)
    case Some(boundary) => Some(boundary)
    case None => SniffBoundary(data)
  }

  function ParseSigned(data: Bytes, contentType: Bytes): Result<Signed, ReceiptError> {
    match SignedBoundary(data, contentType)
    case None => Err(NoBoundary)
    case Some(boundary) =>
      match SplitParts(data, boundary)
      case Err(cause) => Err(Unsplittable(cause))
      case Ok(parts) => SignedParts(parts)
  }

  // ------------------------------------------------------------------
  // What the other side makes of a status
  // ------------------------------------------------------------------

  /** The worker's `request_status.partition(":")`, both sides stripped. */
  function StatusCode(status: Bytes): Bytes {
    if COLON in status then Strip(Partition(status, COLON).0) else Strip(status)
  }

  function StatusDescription(status: Bytes): Bytes {
    if COLON in status then Strip(Partition(status, COLON).1) else []
  }

  // ------------------------------------------------------------------
  // One delivery attempt (app/outbound/client.py), HTTP and gpg as oracles
  // ------------------------------------------------------------------

  datatype Response = HttpFailed | Answered(content: Bytes, contentType: Bytes)

  datatype Verdict = Verdict(valid: bool, hashAlgo: Option<int>)

  datatype AttemptError = HttpError | NotSigned(cause: ReceiptError) | BadSignature | WeakDigest
    | Undecodable(cause: ReceiptError)

  /** The signature is good over exactly these bytes, and made with a digest that is allowed. */
  predicate Accepts(verify: (Bytes, Bytes) -> Verdict, allowedDigests: set<int>, report: Bytes, signature: Bytes) {
    var verdict := verify(report, signature);
    verdict.valid && verdict.hashAlgo.Some? && verdict.hashAlgo.value in allowedDigests
  }

  function SendResult(
    response: Response, verify: (Bytes, Bytes) -> Verdict, allowedDigests: set<int>
  ): Result<Receipt, AttemptError> {
    match response
    case HttpFailed => Err(HttpError)
    case Answered(content, contentType) =>
      match ParseSigned(content, contentType)
      case Err(cause) => Err(NotSigned(cause))
      case Ok(s) =>
        if !verify(s.report, s.signature).valid then Err(BadSignature)
        else if !Accepts(verify, allowedDigests, s.report, s.signature) then Err(WeakDigest)
        else
          match DecodeReport(s.report, s.reportType)
          case Err(cause) => Err(Undecodable(cause))
          case Ok(receipt) => Ok(receipt)
  }

  method SendOnce(response: Response, verify: (Bytes, Bytes) -> Verdict, allowedDigests: set<int>)
    returns (r: Result<Receipt, AttemptError>)
    ensures r == SendResult(response, verify, allowedDigests)
    ensures r.Ok? <==>
      && response.Answered?
      && ParseSigned(response.content, response.contentType).Ok?
      && var s := ParseSigned(response.content, response.contentType).value;
      && Accepts(verify, allowedDigests, s.report, s.signature)
      && DecodeReport(s.report, s.reportType).Ok?
    ensures r.Ok? ==>
      var s := ParseSigned(response.content, response.contentType).value;
      DecodeReport(s.report, s.reportType) == Ok(r.value)
  {
    hide ParseSigned, DecodeReport;
    if response.HttpFailed? {
      return Err(HttpError);
    }
    var signed := ParseSigned(response.content, response.contentType);
    if signed.Err? {
      return Err(NotSigned(signed.error));
    }
    var s := signed.value;
    var verdict := verify(s.report, s.signature);
    if !verdict.valid {
      return Err(BadSignature);
    }
    if verdict.hashAlgo.None? || verdict.hashAlgo.value !in allowedDigests {
      return Err(WeakDigest);
    }
    var decoded := DecodeReportPart(s.report, s.reportType);
    if decoded.Err? {
      return Err(Undecodable(decoded.error));
    }
    return Ok(decoded.value);
  }

  /** Of a signed answer that can be decoded, only the signature decides. */
  lemma SendResultOf(
    response: Response, verify: (Bytes, Bytes) -> Verdict, allowedDigests: set<int>, s: Signed, r: Receipt)
    requires response.Answered? && ParseSigned(response.content, response.contentType) == Ok(s)
    requires DecodeReport(s.report, s.reportType) == Ok(r)
    ensures var result := SendResult(response, verify, allowedDigests);
      if Accepts(verify, allowedDigests, s.report, s.signature) then result == Ok(r)
      else result in {Err(BadSignature), Err(WeakDigest)}
  {
    hide ParseSigned, DecodeReport;
  }

  // ------------------------------------------------------------------
  // Media types in any case
  // ------------------------------------------------------------------

  /** A report whose parts' types differ in case only decodes alike. */
  lemma {:induction false} DecodeIgnoresCase(parts: seq<Part>, parts': seq<Part>)
    requires SameButCase(parts, parts')
    ensures DecodeParts(parts) == DecodeParts(parts')
  {
    FirstTextIgnoresCase(parts, parts');
    hide FirstTextPlain, SameButCase, ParseFields;
  }

  lemma {:induction false} FirstTextIgnoresCase(parts: seq<Part>, parts': seq<Part>)
    requires SameButCase(parts, parts')
    ensures FirstTextPlain(parts) == FirstTextPlain(parts')
    decreases |parts|
  {
    hide Lower, CONTENT_TYPE, TEXT_PLAIN;
    if parts != [] {
      FirstTextIgnoresCase(parts[1..], parts'[1..]);
    }
  }

  /** And so with the signed wrapper, whose report keeps the type it came with. */
  lemma SignedIgnoresCase(parts: seq<Part>, parts': seq<Part>)
    requires SameButCase(parts, parts')
    ensures SignedParts(parts).Ok? <==> SignedParts(parts').Ok?
    ensures SignedParts(parts).Ok? ==>
      var a, b := SignedParts(parts).value, SignedParts(parts').value;
      a.report == b.report && a.signature == b.signature && Lower(a.reportType) == Lower(b.reportType)
  {
    hide CONTENT_TYPE, PGP_SIGNATURE;
    if |parts| == 2 {
      var t, t' := HeaderOr(parts[0].headers, CONTENT_TYPE, []), HeaderOr(parts'[0].headers, CONTENT_TYPE, []);
      assert |t| == |Lower(t)| == |Lower(t')| == |t'|;
    }
    hide Lower;
  }

  /** A report is read from its first text/plain part, whatever parameters that type has; without one it is refused. */
  lemma {:induction false} FirstTextReadOff(parts: seq<Part>)
    ensures FirstTextPlain(parts).None? <==> forall i :: 0 <= i < |parts| ==> !IsOfType(parts[i], TEXT_PLAIN)
    ensures FirstTextPlain(parts).Some? ==>
      exists i ::
        && 0 <= i < |parts| && IsOfType(parts[i], TEXT_PLAIN) && FirstTextPlain(parts).value == parts[i].body
        && forall k :: 0 <= k < i ==> !IsOfType(parts[k], TEXT_PLAIN)
    decreases |parts|
  {
    hide Lower, CONTENT_TYPE, TEXT_PLAIN, IsOfType;
    if parts != [] {
      TypePrefix(parts[0], TEXT_PLAIN);
      FirstTextReadOff(parts[1..]);
      assert forall i :: 1 <= i < |parts| ==> parts[i] == parts[1..][i - 1];
      if !IsOfType(parts[0], TEXT_PLAIN) && FirstTextPlain(parts[1..]).Some? {
        var i :|
          && 0 <= i < |parts[1..]| && IsOfType(parts[1..][i], TEXT_PLAIN)
          && FirstTextPlain(parts[1..]).value == parts[1..][i].body
          && forall k :: 0 <= k < i ==> !IsOfType(parts[1..][k], TEXT_PLAIN);
        assert parts[i + 1] == parts[1..][i];
      }
    }
  }

  /** Two parts, the first with a type, the second a signature: that and nothing else is taken for a signed report. */
  lemma SignedAccepts(parts: seq<Part>)
    ensures SignedParts(parts).Ok? <==>
      && |parts| == 2 && CONTENT_TYPE in parts[0].headers && parts[0].headers[CONTENT_TYPE] != []
      && IsOfType(parts[1], PGP_SIGNATURE)
    ensures SignedParts(parts).Ok? ==>
      SignedParts(parts).value == Signed(parts[0].body, parts[0].headers[CONTENT_TYPE], parts[1].body)
  {
    hide Lower, CONTENT_TYPE, PGP_SIGNATURE, IsOfType;
    if |parts| == 2 {
      TypePrefix(parts[1], PGP_SIGNATURE);
    }
  }

  // ------------------------------------------------------------------
  // The field language, read off
  // ------------------------------------------------------------------

  /** The chunk gives the field: stripped, it has an equals sign, and before the first of them, stripped, the key. */
  predicate Gives(chunk: Bytes, key: Bytes) {
    EQ in Strip(chunk) && Strip(Partition(Strip(chunk), EQ).0) == key
  }

  /** What it gives it as: what is after that first equals sign, stripped. */
  function GivenAs(chunk: Bytes): Bytes {
    if EQ in Strip(chunk) then Strip(Partition(Strip(chunk), EQ).1) else []
  }

  /** The chunk at `i` is the last to give the field. */
  ghost predicate LastGiving(chunks: seq<Bytes>, i: int, key: Bytes) {
    0 <= i < |chunks| && Gives(chunks[i], key) && forall k :: i < k < |chunks| ==> !Gives(chunks[k], key)
  }

  /** A field is there if and only if some chunk gives it, and its value is what the last such chunk gives it as. */
  ghost predicate FieldReadOff(values: map<Bytes, Bytes>, chunks: seq<Bytes>, key: Bytes) {
    && (key in values <==> exists i :: 0 <= i < |chunks| && Gives(chunks[i], key))
    && (key in values ==>
          exists i :: 0 <= i < |chunks| && LastGiving(chunks, i, key) && values[key] == GivenAs(chunks[i]))
  }

  lemma {:induction false} FieldsReadOff(chunks: seq<Bytes>, key: Bytes)
    ensures FieldReadOff(ValuesOf(chunks), chunks, key)
    decreases |chunks|
  {
    hide *;
    if chunks == [] {
      NoFields(key);
    } else {
      var init, last := chunks[..|chunks| - 1], chunks[|chunks| - 1];
      assert chunks[..|init|] == init && chunks[..|init| + 1] == chunks;
      FieldsReadOff(init, key);
      ValuesOfNext(chunks, |init|);
      AddValueReads(ValuesOf(init), last, key);
      FieldReadOffMore(ValuesOf(init), init, AddValue(ValuesOf(init), last), last, key);
      assert init + [last] == chunks;
    }
  }

  lemma NoFields(key: Bytes)
    ensures FieldReadOff(ValuesOf([]), [], key)
  {
    hide Gives;
  }

  lemma AddValueReads(values: map<Bytes, Bytes>, chunk: Bytes, key: Bytes)
    ensures var after := AddValue(values, chunk);
      if Gives(chunk, key) then key in after && after[key] == GivenAs(chunk)
      else (key in after <==> key in values) && (key in values ==> after[key] == values[key])
  {
    hide Strip, Partition;
  }

  lemma FieldReadOffMore(
    values: map<Bytes, Bytes>, chunks: seq<Bytes>, after: map<Bytes, Bytes>, last: Bytes, key: Bytes)
    requires FieldReadOff(values, chunks, key)
    requires if Gives(last, key) then key in after && after[key] == GivenAs(last)
             else (key in after <==> key in values) && (key in values ==> after[key] == values[key])
    ensures FieldReadOff(after, chunks + [last], key)
  {
    hide *;
    var all := chunks + [last];
    FieldReadOffIs(values, chunks, key);
    FieldReadOffIs(after, all, key);
    if Gives(last, key) {
      LastGivingIs(all, |chunks|, key);
    } else if key in values {
      var i :| 0 <= i < |chunks| && LastGiving(chunks, i, key) && values[key] == GivenAs(chunks[i]);
      LastGivingIs(chunks, i, key);
      LastGivingIs(all, i, key);
    }
  }

  lemma LastGivingIs(chunks: seq<Bytes>, i: int, key: Bytes)
    ensures LastGiving(chunks, i, key) <==>
      0 <= i < |chunks| && Gives(chunks[i], key) && forall k :: i < k < |chunks| ==> !Gives(chunks[k], key)
  {
    hide Gives;
  }

  lemma FieldReadOffIs(values: map<Bytes, Bytes>, chunks: seq<Bytes>, key: Bytes)
    ensures FieldReadOff(values, chunks, key) <==>
      && (key in values <==> exists i :: 0 <= i < |chunks| && Gives(chunks[i], key))
      && (key in values ==>
            exists i :: 0 <= i < |chunks| && LastGiving(chunks, i, key) && values[key] == GivenAs(chunks[i]))
  {
    hide Gives, GivenAs;
  }
}
