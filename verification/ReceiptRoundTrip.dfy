/** A receipt survives its whole journey: fields, report, signed wrapper, splitter, decoder, worker. */
module ReceiptRoundTrip {
  import opened Wrappers
  import opened Bytes
  import opened MimeSplit
  import opened MimePrint
  import opened ContentTypes
  import opened ErrorCodes
  import opened Receipts
  import Decimal

  /** Text that cannot leave its field: no delimiter and no line break. */
  predicate FieldText(v: Bytes) {
    STAR !in v && NewlineFree(v)
  }

  predicate Sendable(r: Receipt) {
    FieldText(r.timeC) && FieldText(r.requestStatus) && FieldText(r.serverId) && FieldText(r.transId)
  }

  function Stripped(r: Receipt): Receipt {
    Receipt(Strip(r.timeC), Strip(r.requestStatus), Strip(r.serverId), Strip(r.transId))
  }

  // ------------------------------------------------------------------
  // Fields
  // ------------------------------------------------------------------

  lemma KeysPlain()
    ensures PlainName(TIME_C) && PlainName(REQUEST_STATUS) && PlainName(SERVER_ID) && PlainName(TRANS_ID)
    ensures TIME_C != REQUEST_STATUS && TIME_C != SERVER_ID && TIME_C != TRANS_ID
    ensures REQUEST_STATUS != SERVER_ID && REQUEST_STATUS != TRANS_ID && SERVER_ID != TRANS_ID
  {
  }

  lemma PlainNameFacts(key: Bytes)
    requires PlainName(key)
    ensures EQ !in key && STAR !in key && NewlineFree(key) && Trimmed(key)
  {
    assert key[0] in key && key[|key| - 1] in key;
  }

  lemma ChunkField(values: map<Bytes, Bytes>, pad: Bytes, key: Bytes, v: Bytes)
    requires PlainName(key) && forall c :: c in pad ==> c in SPACES
    ensures AddValue(values, pad + (key + [EQ] + v)) == values[key := Strip(v)]
  {
    hide *;
    StripChunk(pad, key, v);
    PlainNameFacts(key);
    AddStripped(values, pad + (key + [EQ] + v), key, RStrip(v, SPACES));
    StripTrimmed(key);
    StripAfterRStrip(v);
  }

  lemma AddStripped(values: map<Bytes, Bytes>, chunk: Bytes, key: Bytes, v: Bytes)
    requires Strip(chunk) == key + [EQ] + v && EQ !in key
    ensures AddValue(values, chunk) == values[Strip(key) := Strip(v)]
  {
    hide Strip, Partition;
    PartitionAt(key, EQ, v);
    assert key + [EQ] + v != [];
  }

  lemma StripChunk(pad: Bytes, key: Bytes, v: Bytes)
    requires PlainName(key) && forall c :: c in pad ==> c in SPACES
    ensures Strip(pad + (key + [EQ] + v)) == key + [EQ] + RStrip(v, SPACES)
  {
    PlainNameFacts(key);
    var body := key + [EQ] + v;
    assert body[0] == key[0];
    LStripPad(pad, body, SPACES);
    StripHead(body);
    hide LStrip, RStrip, PlainName;
    RStripAfter(key + [EQ], v, SPACES);
  }

  lemma StripHead(s: Bytes)
    requires s != [] && s[0] !in SPACES
    ensures LStrip(s, SPACES) == s
  {
  }

  lemma StarChunk(pad: Bytes, key: Bytes, v: Bytes, rest: Bytes)
    requires PlainName(key) && FieldText(v) && STAR !in pad
    ensures SplitOn(pad + StarLine(key, v) + rest, STAR) == [pad + (key + [EQ] + v)] + SplitOn(rest, STAR)
  {
    PlainNameFacts(key);
    var chunk := pad + (key + [EQ] + v);
    SplitOnCons(chunk, STAR, rest);
    assert pad + StarLine(key, v) + rest == chunk + [STAR] + rest;
  }

  lemma StarLineFacts(key: Bytes, v: Bytes)
    requires PlainName(key) && FieldText(v)
    ensures NewlineFree(StarLine(key, v)) && StarLine(key, v) != [] && StarLine(key, v)[0] != '-'
  {
    PlainNameFacts(key);
  }

  lemma ReplaceFour(l1: Bytes, l2: Bytes, l3: Bytes, l4: Bytes)
    requires NewlineFree(l1) && NewlineFree(l2) && NewlineFree(l3) && NewlineFree(l4)
    ensures ReplaceCrlf(JoinLines([l1, l2, l3, l4])) == l1 + ([LF] + l2 + ([LF] + l3 + ([LF] + l4 + [])))
  {
    JoinFour(l1, l2, l3, l4);
    hide JoinLines, ReplaceCrlf;
    var j3 := l3 + CRLF + l4;
    var j2 := l2 + CRLF + j3;
    ReplaceCrlfLine(l1, CRLF, j2);
    ReplaceCrlfLine(l2, CRLF, j3);
    ReplaceCrlfLine(l3, CRLF, l4);
    ReplaceCrlfNone(l4);
    assert ReplaceCrlf(j3) == l3 + ([LF] + l4 + []);
    assert ReplaceCrlf(j2) == l2 + ([LF] + l3 + ([LF] + l4 + []));
  }

  lemma JoinFour(l1: Bytes, l2: Bytes, l3: Bytes, l4: Bytes)
    ensures JoinLines([l1, l2, l3, l4]) == l1 + CRLF + (l2 + CRLF + (l3 + CRLF + l4))
  {
    assert [l1, l2, l3, l4][1..] == [l2, l3, l4] && [l2, l3, l4][1..] == [l3, l4] && [l3, l4][1..] == [l4];
    assert JoinLines([l3, l4]) == l3 + CRLF + JoinLines([l4]);
  }

  function Chunk(pad: Bytes, key: Bytes, v: Bytes): Bytes {
    pad + (key + [EQ] + v)
  }

  lemma ChunksOf(r: Receipt)
    requires Sendable(r)
    ensures SplitOn(ReplaceCrlf(JoinLines(FieldLines(r))), STAR) ==
      [Chunk([], TIME_C, r.timeC), Chunk([LF], REQUEST_STATUS, r.requestStatus),
       Chunk([LF], SERVER_ID, r.serverId), Chunk([LF], TRANS_ID, r.transId), []]
  {
    KeysPlain();
    StarLineFacts(TIME_C, r.timeC);
    StarLineFacts(REQUEST_STATUS, r.requestStatus);
    StarLineFacts(SERVER_ID, r.serverId);
    StarLineFacts(TRANS_ID, r.transId);
    hide TIME_C, REQUEST_STATUS, SERVER_ID, TRANS_ID, PlainName, FieldText, JoinLines, ReplaceCrlf, SplitOn, StarLine;
    var l1, l2, l3, l4 := StarLine(TIME_C, r.timeC), StarLine(REQUEST_STATUS, r.requestStatus),
                          StarLine(SERVER_ID, r.serverId), StarLine(TRANS_ID, r.transId);
    ReplaceFour(l1, l2, l3, l4);
    var t4 := [LF] + l4 + [];
    var t3 := [LF] + l3 + t4;
    var t2 := [LF] + l2 + t3;
    assert l1 + t2 == [] + l1 + t2;
    StarChunk([], TIME_C, r.timeC, t2);
    StarChunk([LF], REQUEST_STATUS, r.requestStatus, t3);
    StarChunk([LF], SERVER_ID, r.serverId, t4);
    StarChunk([LF], TRANS_ID, r.transId, []);
    SplitOnNone([], STAR);
  }

  lemma FiveChunks(c1: Bytes, c2: Bytes, c3: Bytes, c4: Bytes)
    ensures ValuesOf([c1, c2, c3, c4, []]) ==
            AddValue(AddValue(AddValue(AddValue(map[], c1), c2), c3), c4)
  {
    hide AddValue;
    assert [c1, c2, c3, c4, []][..4] == [c1, c2, c3, c4];
    assert [c1, c2, c3, c4][..3] == [c1, c2, c3];
    assert [c1, c2, c3][..2] == [c1, c2];
    assert [c1, c2][..1] == [c1];
    assert [c1][..0] == [];
    EmptyChunk(ValuesOf([c1, c2, c3, c4]));
    assert ValuesOf([c1]) == AddValue(map[], c1);
    assert ValuesOf([c1, c2]) == AddValue(ValuesOf([c1]), c2);
    assert ValuesOf([c1, c2, c3]) == AddValue(ValuesOf([c1, c2]), c3);
    assert ValuesOf([c1, c2, c3, c4]) == AddValue(ValuesOf([c1, c2, c3]), c4);
  }

  lemma EmptyChunk(values: map<Bytes, Bytes>)
    ensures AddValue(values, []) == values
  {
  }

  /** The field language reads back what it wrote, each value stripped. */
  lemma FieldsReadBack(r: Receipt)
    requires Sendable(r)
    ensures ParseFields(JoinLines(FieldLines(r))) == Ok(Stripped(r))
  {
    hide *;
    FourLines(r);
    KeysPlain();
    ChunksOf(r);
    var c1, c2 := Chunk([], TIME_C, r.timeC), Chunk([LF], REQUEST_STATUS, r.requestStatus);
    var c3, c4 := Chunk([LF], SERVER_ID, r.serverId), Chunk([LF], TRANS_ID, r.transId);
    FiveChunks(c1, c2, c3, c4);
    AddChunk(map[], [], TIME_C, r.timeC);
    var v1 := map[TIME_C := Strip(r.timeC)];
    AddChunk(v1, [LF], REQUEST_STATUS, r.requestStatus);
    var v2 := v1[REQUEST_STATUS := Strip(r.requestStatus)];
    AddChunk(v2, [LF], SERVER_ID, r.serverId);
    var v3 := v2[SERVER_ID := Strip(r.serverId)];
    AddChunk(v3, [LF], TRANS_ID, r.transId);
    ReceiptOfFour(r);
    ParseFieldsIs(JoinLines(FieldLines(r)));
  }

  lemma AddChunk(values: map<Bytes, Bytes>, pad: Bytes, key: Bytes, v: Bytes)
    requires PlainName(key) && (pad == [] || pad == [LF])
    ensures AddValue(values, Chunk(pad, key, v)) == values[key := Strip(v)]
  {
    ChunkField(values, pad, key, v);
    hide AddValue, Strip, PlainName;
  }

  lemma ReceiptOfFour(r: Receipt)
    ensures ReceiptOf(map[TIME_C := Strip(r.timeC)][REQUEST_STATUS := Strip(r.requestStatus)]
                         [SERVER_ID := Strip(r.serverId)][TRANS_ID := Strip(r.transId)]) == Ok(Stripped(r))
  {
    KeysPlain();
    hide TIME_C, REQUEST_STATUS, SERVER_ID, TRANS_ID, Strip, PlainName;
  }

  lemma ParseFieldsIs(text: Bytes)
    ensures ParseFields(text) == ReceiptOf(ValuesOf(SplitOn(ReplaceCrlf(text), STAR)))
  {
  }

  // ------------------------------------------------------------------
  // Lines
  // ------------------------------------------------------------------

  ghost predicate SafeLines(lines: seq<Bytes>, marker: Bytes) {
    forall l :: l in lines ==> NewlineFree(l) && !(marker <= l)
  }

  lemma {:induction false} LinesClean(lines: seq<Bytes>, rest: Bytes, marker: Bytes)
    requires SafeLines(lines, marker) && NewlineFree(marker)
    ensures Clean(Lines(lines) + rest, marker) <==> Clean(rest, marker)
  {
    if lines == [] {
      assert [] + rest == rest;
    } else {
      assert lines[0] in lines;
      LinesClean(lines[1..], rest, marker);
      LineClean(lines[0], CRLF, Lines(lines[1..]) + rest, marker);
      assert Lines(lines) + rest == lines[0] + CRLF + (Lines(lines[1..]) + rest);
    }
  }

  lemma {:induction false} LinesJoin(lines: seq<Bytes>)
    requires lines != []
    ensures Lines(lines) == JoinLines(lines) + CRLF
  {
    if |lines| == 1 {
      assert lines[1..] == [];
    } else {
      LinesJoin(lines[1..]);
    }
  }

  lemma {:induction false} LinesConcat(a: seq<Bytes>, b: seq<Bytes>)
    ensures Lines(a + b) == Lines(a) + Lines(b)
  {
    if a == [] {
      assert a + b == b;
    } else {
      assert (a + b)[1..] == a[1..] + b;
      LinesConcat(a[1..], b);
    }
  }

  lemma EmptyClean(marker: Bytes)
    requires marker != []
    ensures Clean([], marker)
  {
  }

  lemma FieldLinesSafe(r: Receipt, marker: Bytes)
    requires Sendable(r) && marker != [] && marker[0] == '-'
    ensures SafeLines(FieldLines(r), marker)
  {
    KeysPlain();
    StarLineFacts(TIME_C, r.timeC);
    StarLineFacts(REQUEST_STATUS, r.requestStatus);
    StarLineFacts(SERVER_ID, r.serverId);
    StarLineFacts(TRANS_ID, r.transId);
    hide TIME_C, REQUEST_STATUS, SERVER_ID, TRANS_ID, PlainName, FieldText, StarLine;
  }

  // ------------------------------------------------------------------
  // The report
  // ------------------------------------------------------------------

  function HtmlPart(r: Receipt): Entity {
    Entity([Field(CONTENT_TYPE, TEXT_HTML)], HTML_HEAD + CRLF + FieldsText(r) + HTML_TAIL)
  }

  function PlainPart(r: Receipt): Entity {
    Entity([Field(CONTENT_TYPE, TEXT_PLAIN)], JoinLines(FieldLines(r)))
  }

  lemma HtmlHeadPlain()
    ensures Printable(HTML_HEAD) && HTML_HEAD != [] && HTML_HEAD[0] != '-'
  {
    HtmlOpenPlain();
    HtmlTitlePlain();
    HtmlBodyPlain();
    hide HTML_OPEN, HTML_TITLE, HTML_BODY;
  }

  lemma HtmlOpenPlain()
    ensures Printable(HTML_OPEN) && HTML_OPEN != [] && HTML_OPEN[0] != '-'
  {
  }

  lemma HtmlTitlePlain()
    ensures Printable(HTML_TITLE)
  {
  }

  lemma HtmlBodyPlain()
    ensures Printable(HTML_BODY)
  {
  }

  lemma HtmlTailPlain()
    ensures Printable(HTML_TAIL) && HTML_TAIL != [] && HTML_TAIL[0] != '-'
  {
  }

  lemma HtmlTypePlain()
    ensures PlainValue(TEXT_HTML) && !(TEXT_PLAIN <= Lower(TEXT_HTML))
  {
    HtmlTypeIs();
    LowerFixed(TEXT_HTML);
    hide *;
    NotPrefix(TEXT_PLAIN, TEXT_HTML, 5);
  }

  lemma NotPrefix(a: Bytes, b: Bytes, i: nat)
    requires i < |a| && i < |b| && a[i] != b[i]
    ensures !(a <= b)
  {
  }

  lemma HtmlTypeIs()
    ensures PlainValue(TEXT_HTML) && IsLower(TEXT_HTML)
    ensures |TEXT_HTML| > 5 && |TEXT_PLAIN| > 5 && TEXT_HTML[5] != TEXT_PLAIN[5]
  {
  }

  lemma PlainTypePlain()
    ensures PlainValue(TEXT_PLAIN) && IsLower(TEXT_PLAIN)
  {
  }

  lemma PartsClean(r: Receipt, marker: Bytes)
    requires Sendable(r) && NewlineFree(marker) && marker != [] && marker[0] == '-'
    ensures Clean(HtmlPart(r).body, marker) && Clean(PlainPart(r).body, marker)
  {
    HtmlHeadPlain();
    HtmlTailPlain();
    FieldLinesSafe(r, marker);
    EmptyClean(marker);
    hide HTML_HEAD, HTML_TAIL, FieldLines, Clean;
    var lines := FieldLines(r);
    assert lines != [] by { FourLines(r); }
    LinesClean(lines, HTML_TAIL, marker);
    PlainLineClean(HTML_TAIL, marker);
    LinesJoin(lines);
    LineClean(HTML_HEAD, CRLF, Lines(lines) + HTML_TAIL, marker);
    assert HtmlPart(r).body == HTML_HEAD + CRLF + (Lines(lines) + HTML_TAIL);
    LinesClean(lines, [], marker);
    assert Lines(lines) + [] == Lines(lines);
    CleanPrefix(JoinLines(lines), Lines(lines), marker);
  }

  lemma FourLines(r: Receipt)
    ensures |FieldLines(r)| == 4
  {
  }

  lemma ReportWellFormed(r: Receipt, marker: Bytes)
    requires marker != [] && marker[0] == '-'
    ensures WellFormed(HtmlPart(r), marker) && HtmlPart(r).fields != []
    ensures WellFormed(PlainPart(r), marker) && PlainPart(r).fields != []
  {
    ContentTypePlain();
    HtmlTypePlain();
    PlainTypePlain();
    hide CONTENT_TYPE, TEXT_HTML, TEXT_PLAIN, PlainName, PlainValue, WellFormedField;
    PlainFieldWellFormed(Field(CONTENT_TYPE, TEXT_HTML), marker);
    PlainFieldWellFormed(Field(CONTENT_TYPE, TEXT_PLAIN), marker);
  }

  lemma EncodeIsDocument(r: Receipt, boundary: Bytes)
    ensures EncodeBody(r, boundary) == Document([HtmlPart(r), PlainPart(r)], boundary, CRLF, CRLF)
  {
    hide FieldLine, TEXT_HTML, TEXT_PLAIN, HTML_HEAD, HTML_TAIL, JoinLines, FieldLines;
    assert FieldLines(r) != [] by { FourLines(r); }
    var h1, h2 := FieldLine(Field(CONTENT_TYPE, TEXT_HTML)), FieldLine(Field(CONTENT_TYPE, TEXT_PLAIN));
    var e1, e2 := HtmlPart(r), PlainPart(r);
    assert PieceOf(e1, CRLF) == CRLF + h1 + CRLF + CRLF + e1.body;
    assert PieceOf(e2, CRLF) == CRLF + h2 + CRLF + CRLF + e2.body;
    TwoPartDocument(e1, e2, boundary);
    FlattenText(DASHES, boundary, h1, e1.body, h2, e2.body);
  }

  lemma FlattenText(d: Bytes, b: Bytes, h1: Bytes, b1: Bytes, h2: Bytes, b2: Bytes)
    ensures
      d + b + CRLF + h1 + CRLF + CRLF + b1 + CRLF + d + b + CRLF + h2 + CRLF + CRLF + (b2 + CRLF) + d + b + d + CRLF ==
      (d + b) + ((CRLF + h1 + CRLF + CRLF + b1) + CRLF + (d + b) +
                 ((CRLF + h2 + CRLF + CRLF + b2) + CRLF + (d + b) + (d + CRLF)))
  {
    Flatten(d, b, h1, b1, h2, b2);
    var x := d + b + CRLF + h1 + CRLF + CRLF + b1 + CRLF + d + b + CRLF + h2 + CRLF + CRLF;
    assert x + (b2 + CRLF) == x + b2 + CRLF;
  }

  lemma ReportBoundary(token: Bytes)
    requires IsToken(token)
    ensures PlainBoundary(REPORT_PREFIX + token) && NewlineFree(REPORT_PREFIX + token)
  {
    ReportPrefixPlain();
    hide REPORT_PREFIX;
    TokenBoundary(REPORT_PREFIX, token);
  }

  lemma ReportPrefixPlain()
    ensures PlainBoundary(REPORT_PREFIX)
  {
  }

  lemma ReportParamPlain()
    ensures ';' !in REPORT_HEAD
    ensures ';' !in REPORT_PARAM && REPORT_PARAM != [] && REPORT_PARAM[0] !in SPACES
    ensures LowerOctet(REPORT_PARAM[0]) != 'b'
  {
  }

  /** Decoding an encoded report gives the receipt back, each value stripped, and so with the boundary given bare. */
  lemma DecodeEncode(r: Receipt, token: Bytes)
    requires Sendable(r) && IsToken(token)
    ensures var b := REPORT_PREFIX + token;
      && DecodeReport(EncodeBody(r, b), ReportType(b)) == Ok(Stripped(r))
      && DecodeReport(EncodeBody(r, b), ReportTypeWith(b)) == Ok(Stripped(r))
  {
    hide *;
    var b := REPORT_PREFIX + token;
    ReportBoundary(token);
    QuotedSpells(b);
    ReportTypeIs(b);
    DecodeSpelled(r, token, Quoted(b));
    DecodeSpelled(r, token, b);
  }

  lemma DecodeSpelled(r: Receipt, token: Bytes, value: Bytes)
    requires Sendable(r) && IsToken(token) && Spells(value, REPORT_PREFIX + token)
    ensures DecodeReport(EncodeBody(r, REPORT_PREFIX + token), ReportTypeWith(value)) == Ok(Stripped(r))
  {
    hide *;
    var b := REPORT_PREFIX + token;
    ReportParts(r, token);
    ReportBoundary(token);
    ReportParamPlain();
    BoundaryLast(REPORT_HEAD, REPORT_PARAM, value, b);
    DecodeCases(EncodeBody(r, b), value, b);
    TextPartFound(r);
    FieldsReadBack(r);
  }

  lemma ReportTypeIs(b: Bytes)
    ensures ReportType(b) == ReportTypeWith(Quoted(b))
  {
    hide ReportTypeWith;
  }

  lemma ReportParts(r: Receipt, token: Bytes)
    requires Sendable(r) && IsToken(token)
    ensures var b := REPORT_PREFIX + token;
      SplitParts(EncodeBody(r, b), b) == Ok([Expected(HtmlPart(r)), Expected(PlainPart(r))])
  {
    hide *;
    var b := REPORT_PREFIX + token;
    ReportBoundary(token);
    MarkerNewlineFree(b);
    EncodeIsDocument(r, b);
    ReportWellFormed(r, Marker(b));
    PartsClean(r, Marker(b));
    TwoParts(HtmlPart(r), PlainPart(r), b);
  }

  /** The report has an HTML part and a plain one, and the HTML one shows the very text of the plain one. */
  lemma ReportShowsFieldsTwice(r: Receipt, token: Bytes)
    requires Sendable(r) && IsToken(token)
    ensures var b := REPORT_PREFIX + token;
      var split := SplitParts(EncodeBody(r, b), b);
      && split.Ok? && |split.value| == 2
      && split.value[0].headers == map[CONTENT_TYPE := TEXT_HTML]
      && split.value[1].headers == map[CONTENT_TYPE := TEXT_PLAIN]
      && split.value[0].body == HTML_HEAD + CRLF + split.value[1].body + CRLF + HTML_TAIL
  {
    ReportParts(r, token);
    hide *;
    SingleHeader(CONTENT_TYPE, TEXT_HTML);
    SingleHeader(CONTENT_TYPE, TEXT_PLAIN);
    PartBodies(r);
  }

  lemma PartBodies(r: Receipt)
    ensures FieldLines(r) != []
    ensures Expected(HtmlPart(r))
         == Part(HeadersMap([Field(CONTENT_TYPE, TEXT_HTML)]),
                 HTML_HEAD + CRLF + JoinLines(FieldLines(r)) + CRLF + HTML_TAIL)
    ensures Expected(PlainPart(r)) == Part(HeadersMap([Field(CONTENT_TYPE, TEXT_PLAIN)]), JoinLines(FieldLines(r)))
  {
    FourLines(r);
    hide FieldLines, HeadersMap, JoinLines, HTML_HEAD, HTML_TAIL, TEXT_HTML, TEXT_PLAIN, CONTENT_TYPE;
    assert HTML_HEAD + CRLF + (JoinLines(FieldLines(r)) + CRLF) + HTML_TAIL ==
      HTML_HEAD + CRLF + JoinLines(FieldLines(r)) + CRLF + HTML_TAIL;
  }

  lemma DecodeCases(data: Bytes, value: Bytes, b: Bytes)
    requires
      var contentType := REPORT_HEAD + [';'] + (([' '] + REPORT_PARAM) + [';'] + BoundaryPiece(value));
      ContentTypeParam(contentType, BOUNDARY) == Some(b)
    ensures SplitParts(data, b).Ok? ==>
      DecodeReport(data, ReportTypeWith(value)) == DecodeParts(SplitParts(data, b).value)
  {
    hide SplitParts, DecodeParts, ContentTypeParam;
  }

  lemma TextPartFound(r: Receipt)
    ensures DecodeParts([Expected(HtmlPart(r)), Expected(PlainPart(r))]) == ParseFields(JoinLines(FieldLines(r)))
    ensures FieldLines(r) != []
  {
    HtmlTypePlain();
    PlainTypePlain();
    hide TEXT_HTML, TEXT_PLAIN, CONTENT_TYPE, Lower, HeadersMap, ParseFields, JoinLines;
    SingleHeader(CONTENT_TYPE, TEXT_HTML);
    SingleHeader(CONTENT_TYPE, TEXT_PLAIN);
    LowerFixed(TEXT_PLAIN);
    var p1, p2 := Expected(HtmlPart(r)), Expected(PlainPart(r));
    assert [p1, p2][1..] == [p2];
    assert HeaderOr(p1.headers, CONTENT_TYPE, []) == TEXT_HTML && HeaderOr(p2.headers, CONTENT_TYPE, []) == TEXT_PLAIN;
    assert FirstTextPlain([p2]) == Some(p2.body);
    assert FirstTextPlain([p1, p2]) == FirstTextPlain([p2]);
  }

  // ------------------------------------------------------------------
  // The signed wrapper
  // ------------------------------------------------------------------

  function ReportPart(report: Bytes, reportType: Bytes): Entity {
    Entity([Field(CONTENT_TYPE, reportType)], report)
  }

  function SignaturePart(signature: Bytes): Entity {
    Entity([Field(CONTENT_TYPE, PGP_SIGNATURE)], RStrip(signature, NEWLINES))
  }

  lemma SignedIsDocument(report: Bytes, reportType: Bytes, signature: Bytes, boundary: Bytes)
    ensures BuildSignedBody(report, reportType, signature, boundary) ==
            Document([ReportPart(report, reportType), SignaturePart(signature)], boundary, CRLF, CRLF)
  {
    hide FieldLine, PGP_SIGNATURE, RStrip;
    var h1, h2 := FieldLine(Field(CONTENT_TYPE, reportType)), FieldLine(Field(CONTENT_TYPE, PGP_SIGNATURE));
    var e1, e2 := ReportPart(report, reportType), SignaturePart(signature);
    assert PieceOf(e1, CRLF) == CRLF + h1 + CRLF + CRLF + e1.body;
    assert PieceOf(e2, CRLF) == CRLF + h2 + CRLF + CRLF + e2.body;
    TwoPartDocument(e1, e2, boundary);
    Flatten(DASHES, boundary, h1, e1.body, h2, e2.body);
  }

  lemma SignaturePlain()
    ensures PlainValue(PGP_SIGNATURE) && IsLower(PGP_SIGNATURE)
  {
  }

  lemma SignedPrefixPlain()
    ensures PlainBoundary(SIGNED_PREFIX)
  {
  }

  lemma SignedBoundaryPlain(token: Bytes)
    requires IsToken(token)
    ensures PlainBoundary(SIGNED_PREFIX + token) && NewlineFree(SIGNED_PREFIX + token)
  {
    SignedPrefixPlain();
    hide SIGNED_PREFIX;
    TokenBoundary(SIGNED_PREFIX, token);
  }

  lemma SignedWellFormed(report: Bytes, reportType: Bytes, signature: Bytes, marker: Bytes)
    requires PlainValue(reportType) && marker != [] && marker[0] == '-'
    ensures WellFormed(ReportPart(report, reportType), marker) && ReportPart(report, reportType).fields != []
    ensures WellFormed(SignaturePart(signature), marker) && SignaturePart(signature).fields != []
    ensures ReportPart(report, reportType).body == report
    ensures SignaturePart(signature).body == RStrip(signature, NEWLINES)
  {
    ContentTypePlain();
    SignaturePlain();
    hide CONTENT_TYPE, PGP_SIGNATURE, PlainName, PlainValue, WellFormedField, RStrip;
    PlainFieldWellFormed(Field(CONTENT_TYPE, reportType), marker);
    PlainFieldWellFormed(Field(CONTENT_TYPE, PGP_SIGNATURE), marker);
  }

  lemma SignedRead(report: Bytes, reportType: Bytes, signature: Bytes)
    requires reportType != []
    ensures SignedParts([Expected(ReportPart(report, reportType)), Expected(SignaturePart(signature))]) ==
            Ok(Signed(report, reportType, RStrip(signature, NEWLINES)))
    ensures forall parts: seq<Part> :: SignedParts(parts).Ok? ==>
      && |parts| == 2
      && SignedParts(parts).value.report == parts[0].body
      && SignedParts(parts).value.signature == parts[1].body
  {
    SignaturePlain();
    hide CONTENT_TYPE, PGP_SIGNATURE, Lower, HeadersMap, RStrip;
    SingleHeader(CONTENT_TYPE, reportType);
    SingleHeader(CONTENT_TYPE, PGP_SIGNATURE);
    LowerFixed(PGP_SIGNATURE);
  }

  /** The boundary can be read off the body's first line. */
  lemma SniffFirstLine(b: Bytes, rest: Bytes)
    requires PlainBoundary(b) && NewlineFree(b)
    ensures SniffBoundary(DASHES + b + CRLF + rest) == Some(b)
  {
    var data := DASHES + b + CRLF + rest;
    assert data[0] == '-';
    LStripNone(data);
    var end := 3 + |b|;
    assert data[end..][0] == LF;
    assert OccursAt(LFS, data, end) by {
      assert data[end..] == LFS + rest;
    }
    forall i: nat | i < end ensures !OccursAt(LFS, data, i) {
      assert data[i..][0] == data[i];
      if 2 <= i < 2 + |b| {
        assert data[i] == b[i - 2] && b[i - 2] in b;
      }
    }
    assert data[2..end] == b + [CR];
    RStripPad(b, [CR], {CR});
    assert b[|b| - 1] in b;
    RStripNone(b);
    assert DASHES == data[..2];
    hide LStrip, RStrip;
  }

  lemma LStripNone(s: Bytes)
    requires s != [] && s[0] !in NEWLINES
    ensures LStrip(s, NEWLINES) == s
  {
  }

  lemma RStripNone(s: Bytes)
    requires s != [] && s[|s| - 1] != CR
    ensures RStrip(s, {CR}) == s
  {
  }

  /**
   Parsing a built signed message returns the report byte for byte, its content type
   and the signature without trailing line breaks, exactly when neither has a line
   that starts with the marker; and it does so both for a content-type whose boundary
   parameter is right and for one that has none.
   */
  lemma SignedReadBack(report: Bytes, reportType: Bytes, signature: Bytes, token: Bytes, contentType: Bytes)
    requires IsToken(token) && PlainValue(reportType) && reportType != []
    requires ContentTypeParam(contentType, BOUNDARY) in {None, Some(SIGNED_PREFIX + token)}
    ensures var b := SIGNED_PREFIX + token;
      var sig := RStrip(signature, NEWLINES);
      ParseSigned(BuildSignedBody(report, reportType, signature, b), contentType) == Ok(Signed(report, reportType, sig))
      <==> Clean(report, Marker(b)) && Clean(sig, Marker(b))
  {
    hide *;
    SignedBoundaryPlain(token);
    SignedReadBackAt(report, reportType, signature, SIGNED_PREFIX + token, contentType);
  }

  /** The same of any boundary, spelled in the content type in quotes or bare. */
  lemma SignedSpelled(report: Bytes, reportType: Bytes, signature: Bytes, micalg: Bytes, value: Bytes, b: Bytes)
    requires PlainBoundary(b) && Spells(value, b) && PlainValue(reportType) && reportType != [] && ';' !in micalg
    ensures var sig := RStrip(signature, NEWLINES);
      ParseSigned(BuildSignedBody(report, reportType, signature, b), SignedTypeWith(micalg, value))
      == Ok(Signed(report, reportType, sig))
      <==> Clean(report, Marker(b)) && Clean(sig, Marker(b))
  {
    hide *;
    SignedTypeSpelled(micalg, value, b);
    SignedReadBackAt(report, reportType, signature, b, SignedTypeWith(micalg, value));
  }

  lemma SignedReadBackAt(report: Bytes, reportType: Bytes, signature: Bytes, b: Bytes, contentType: Bytes)
    requires PlainBoundary(b) && PlainValue(reportType) && reportType != []
    requires ContentTypeParam(contentType, BOUNDARY) in {None, Some(b)}
    ensures var sig := RStrip(signature, NEWLINES);
      ParseSigned(BuildSignedBody(report, reportType, signature, b), contentType) == Ok(Signed(report, reportType, sig))
      <==> Clean(report, Marker(b)) && Clean(sig, Marker(b))
  {
    hide *;
    PlainNewlineFree(b);
    MarkerNewlineFree(b);
    SignedIsDocument(report, reportType, signature, b);
    SignedWellFormed(report, reportType, signature, Marker(b));
    TwoParts(ReportPart(report, reportType), SignaturePart(signature), b);
    SignedRead(report, reportType, signature);
    SignedSniff(report, reportType, signature, b);
    SignedCases(BuildSignedBody(report, reportType, signature, b), contentType, b);
  }

  lemma SignedSniff(report: Bytes, reportType: Bytes, signature: Bytes, b: Bytes)
    requires PlainBoundary(b) && NewlineFree(b)
    ensures SniffBoundary(BuildSignedBody(report, reportType, signature, b)) == Some(b)
  {
    hide FieldLine, PGP_SIGNATURE, RStrip, CONTENT_TYPE, DASHES, SniffBoundary, PlainBoundary;
    var first := DASHES + b + CRLF;
    var data := BuildSignedBody(report, reportType, signature, b);
    FirstOf(first, FieldLine(Field(CONTENT_TYPE, reportType)), report, DASHES, b,
            FieldLine(Field(CONTENT_TYPE, PGP_SIGNATURE)), RStrip(signature, NEWLINES));
    assert data == first + data[|first|..];
    SniffFirstLine(b, data[|first|..]);
  }

  lemma FirstOf(first: Bytes, h1: Bytes, report: Bytes, d: Bytes, b: Bytes, h2: Bytes, sig: Bytes)
    ensures first <= first + h1 + CRLF + CRLF + report + CRLF + d + b + CRLF + h2 + CRLF + CRLF + sig + CRLF
                     + d + b + d + CRLF
  {
  }

  lemma SignedCases(data: Bytes, contentType: Bytes, b: Bytes)
    requires ContentTypeParam(contentType, BOUNDARY) in {None, Some(b)} && SniffBoundary(data) == Some(b)
    ensures var r := SplitParts(data, b);
      if r.Ok? then ParseSigned(data, contentType) == SignedParts(r.value) else ParseSigned(data, contentType).Err?
  {
    hide SplitParts, SignedParts, ContentTypeParam, SniffBoundary;
  }

  // ------------------------------------------------------------------
  // Report inside the signed wrapper
  // ------------------------------------------------------------------

  /** No line of a report starts with the marker of the signed wrapper around it. */
  lemma ReportCleanInside(r: Receipt, reportToken: Bytes, signedToken: Bytes)
    requires Sendable(r) && IsToken(reportToken) && IsToken(signedToken)
    ensures Clean(EncodeBody(r, REPORT_PREFIX + reportToken), Marker(SIGNED_PREFIX + signedToken))
  {
    hide *;
    var b := REPORT_PREFIX + reportToken;
    var m := Marker(SIGNED_PREFIX + signedToken);
    SignedBoundaryPlain(signedToken);
    MarkerNewlineFree(SIGNED_PREFIX + signedToken);
    ReportBoundary(reportToken);
    MarkerNewlineFree(b);
    MarkersDiffer(reportToken, signedToken);
    ReportLinesSafe(r, Marker(b), m);
    EmptyClean(m);
    LinesClean(ReportLines(r, Marker(b)), [], m);
    EncodeIsLines(r, b);
  }

  function ReportLines(r: Receipt, reportMarker: Bytes): seq<Bytes> {
    [reportMarker, FieldLine(Field(CONTENT_TYPE, TEXT_HTML)), [], HTML_HEAD] + FieldLines(r)
    + [HTML_TAIL, reportMarker, FieldLine(Field(CONTENT_TYPE, TEXT_PLAIN)), []] + FieldLines(r)
    + [reportMarker + DASHES]
  }

  lemma MarkersDiffer(reportToken: Bytes, signedToken: Bytes)
    ensures !(Marker(SIGNED_PREFIX + signedToken) <= Marker(REPORT_PREFIX + reportToken))
    ensures !(Marker(SIGNED_PREFIX + signedToken) <= Marker(REPORT_PREFIX + reportToken) + DASHES)
  {
    var s, t := Marker(SIGNED_PREFIX + signedToken), Marker(REPORT_PREFIX + reportToken);
    assert s[12] == SIGNED_PREFIX[10] == 's';
    assert t[12] == REPORT_PREFIX[10] == 'r';
    assert (t + DASHES)[12] == 'r';
  }

  lemma ReportLinesSafe(r: Receipt, reportMarker: Bytes, m: Bytes)
    requires Sendable(r) && NewlineFree(reportMarker) && |m| >= 2 && m[0] == '-'
    requires !(m <= reportMarker) && !(m <= reportMarker + DASHES)
    ensures SafeLines(ReportLines(r, reportMarker), m)
  {
    FieldLinesSafe(r, m);
    HtmlHeadPlain();
    HtmlTailPlain();
    ReportWellFormed(r, m);
    assert HtmlPart(r).fields[0] in HtmlPart(r).fields && PlainPart(r).fields[0] in PlainPart(r).fields;
    FieldLineFacts(HtmlPart(r).fields[0], m);
    FieldLineFacts(PlainPart(r).fields[0], m);
    FieldNotMarker(HtmlPart(r).fields[0], m);
    FieldNotMarker(PlainPart(r).fields[0], m);
    hide FieldLine, TEXT_HTML, TEXT_PLAIN, HTML_HEAD, HTML_TAIL, FieldLines, CONTENT_TYPE, WellFormed,
         WellFormedField, Sendable;
  }

  lemma EncodeIsLines(r: Receipt, boundary: Bytes)
    ensures EncodeBody(r, boundary) == Lines(ReportLines(r, Marker(boundary))) + []
  {
    hide FieldLine, TEXT_HTML, TEXT_PLAIN, HTML_HEAD, HTML_TAIL, FieldLines, CONTENT_TYPE, JoinLines;
    var m := Marker(boundary);
    var fs := FieldLines(r);
    assert fs != [] by { FourLines(r); }
    LinesJoin(fs);
    assert FieldsText(r) == Lines(fs);
    var h1, h2 := FieldLine(Field(CONTENT_TYPE, TEXT_HTML)), FieldLine(Field(CONTENT_TYPE, TEXT_PLAIN));
    FourLinesText(m, h1, [], HTML_HEAD);
    FourLinesText(HTML_TAIL, m, h2, []);
    assert Lines([m + DASHES]) == m + DASHES + CRLF + Lines([]);
    hide Lines;
    LinesConcat([m, h1, [], HTML_HEAD], fs);
    LinesConcat([m, h1, [], HTML_HEAD] + fs, [HTML_TAIL, m, h2, []]);
    LinesConcat([m, h1, [], HTML_HEAD] + fs + [HTML_TAIL, m, h2, []], fs);
    LinesConcat([m, h1, [], HTML_HEAD] + fs + [HTML_TAIL, m, h2, []] + fs, [m + DASHES]);
    Regroup(DASHES, boundary, h1, HTML_HEAD, Lines(fs), HTML_TAIL, h2);
  }

  lemma FourLinesText(a: Bytes, b: Bytes, c: Bytes, d: Bytes)
    ensures Lines([a, b, c, d]) == a + CRLF + (b + CRLF + (c + CRLF + (d + CRLF)))
  {
    assert [a, b, c, d][1..] == [b, c, d] && [b, c, d][1..] == [c, d] && [c, d][1..] == [d];
    assert Lines([d]) == d + CRLF + Lines([]);
    assert Lines([c, d]) == c + CRLF + Lines([d]);
    assert Lines([b, c, d]) == b + CRLF + Lines([c, d]);
  }

  lemma Regroup(d: Bytes, b: Bytes, h1: Bytes, head: Bytes, text: Bytes, tail: Bytes, h2: Bytes)
    ensures
      d + b + CRLF + h1 + CRLF + CRLF + (head + CRLF + text + tail) + CRLF + d + b + CRLF + h2 + CRLF + CRLF + text
      + d + b + d + CRLF ==
      ((d + b) + CRLF + (h1 + CRLF + ([] + CRLF + (head + CRLF)))) + text
      + (tail + CRLF + ((d + b) + CRLF + (h2 + CRLF + ([] + CRLF)))) + text + ((d + b) + d + CRLF)
  {
    var m := d + b;
    var x := m + CRLF + (h1 + CRLF + ([] + CRLF + (head + CRLF)));
    assert d + b + CRLF + h1 + CRLF + CRLF + (head + CRLF + text + tail) + CRLF == x + text + (tail + CRLF);
    var y := x + text + (tail + CRLF + (m + CRLF + (h2 + CRLF + ([] + CRLF))));
    assert x + text + (tail + CRLF) + d + b + CRLF + h2 + CRLF + CRLF == y;
    assert y + text + d + b + d + CRLF == y + text + (m + d + CRLF);
  }

  // ------------------------------------------------------------------
  // The status line
  // ------------------------------------------------------------------

  /** Whatever the description, the code comes back as the text before the first colon, and the status is never "ok". */
  lemma StatusReadBack(code: ErrorCode, description: Option<Bytes>, standard: Bytes)
    requires FieldText(standard)
    ensures var status := RejectedStatus(code, description, standard);
      && FieldText(status)
      && StatusCode(Strip(status)) == Value(code)
      && Strip(status) != OK_STATUS
      && (description.Some? && description.value != [] ==>
            StatusDescription(Strip(status)) == Strip(Sanitize(description.value)))
  {
    hide *;
    CodesAreCodeText(code);
    CodeIsPlain(Value(code));
    var text := if description.Some? && description.value != [] then Sanitize(description.value) else standard;
    if description.Some? {
      SanitizedText(description.value);
    }
    StatusIs(code, description, standard);
    StatusFields(Value(code), text);
  }

  lemma StatusFields(code: Bytes, text: Bytes)
    requires code != [] && code[0] !in SPACES && Trimmed(code) && COLON !in code && FieldText(code) && FieldText(text)
    ensures var status := code + [COLON, ' '] + text;
      && FieldText(status)
      && Strip(status) != OK_STATUS
      && StatusCode(Strip(status)) == code
      && StatusDescription(Strip(status)) == Strip(text)
  {
    assert FieldText(code + [COLON, ' '] + text);
    hide *;
    StatusStrip(code, text);
    var rest := RStrip([' '] + text, SPACES);
    StatusSplit(code, rest);
    StripTrimmed(code);
    StripAfterRStrip([' '] + text);
    LeadingSpace(text);
  }

  lemma StatusSplit(code: Bytes, rest: Bytes)
    requires COLON !in code
    ensures var s := code + [COLON] + rest;
      s != OK_STATUS && StatusCode(s) == Strip(code) && StatusDescription(s) == Strip(rest)
  {
    var s := code + [COLON] + rest;
    assert s[|code|] == COLON;
    OkHasNoColon(s);
    hide Strip, Partition, OK_STATUS;
    PartitionAt(code, COLON, rest);
  }

  lemma StatusIs(code: ErrorCode, description: Option<Bytes>, standard: Bytes)
    ensures RejectedStatus(code, description, standard) == Value(code) + [COLON, ' '] +
            (if description.Some? && description.value != [] then Sanitize(description.value) else standard)
  {
  }

  lemma OkHasNoColon(s: Bytes)
    requires COLON in s
    ensures s != OK_STATUS
  {
    assert COLON !in OK_STATUS;
  }

  lemma LeadingSpace(text: Bytes)
    ensures Strip([' '] + text) == Strip(text)
  {
    LStripPad([' '], text, SPACES);
  }

  lemma CodeIsPlain(s: Bytes)
    requires CodeText(s)
    ensures COLON !in s && Trimmed(s) && s != [] && FieldText(s) && s[0] !in SPACES
  {
    assert s[0] in s && s[|s| - 1] in s;
  }

  lemma SanitizedText(value: Bytes)
    ensures FieldText(Sanitize(value))
  {
    var r := Sanitize(value);
    forall c | c in r ensures c != STAR && c != CR && c != LF {
      var i :| 0 <= i < |r| && r[i] == c;
      assert r[i] == SanitizeOctet(value[i]);
    }
  }

  lemma StatusStrip(code: Bytes, text: Bytes)
    requires code != [] && code[0] !in SPACES
    ensures Strip(code + [COLON, ' '] + text) == code + [COLON] + RStrip([' '] + text, SPACES)
  {
    var status := code + [COLON, ' '] + text;
    assert status == code + [COLON] + ([' '] + text);
    StripHead(status);
    RStripAfter(code + [COLON], [' '] + text, SPACES);
  }

  /** The content type the gateway writes names the wrapper's boundary. */
  lemma SignedTypeParam(micalg: Bytes, token: Bytes)
    requires IsToken(token) && ';' !in micalg
    ensures ContentTypeParam(SignedType(micalg, SIGNED_PREFIX + token), BOUNDARY) == Some(SIGNED_PREFIX + token)
  {
    hide *;
    var b := SIGNED_PREFIX + token;
    SignedBoundaryPlain(token);
    QuotedSpells(b);
    SignedTypeIs(micalg, b);
    SignedTypeSpelled(micalg, Quoted(b), b);
  }

  lemma SignedTypeSpelled(micalg: Bytes, value: Bytes, b: Bytes)
    requires PlainBoundary(b) && Spells(value, b) && ';' !in micalg
    ensures ContentTypeParam(SignedTypeWith(micalg, value), BOUNDARY) == Some(b)
  {
    hide *;
    SignedParamsPlain(micalg);
    BoundaryWhole(value, b);
    var p1, p2, p3 := [' '] + MicalgParam(micalg), [' '] + PROTOCOL_PARAM, BoundaryPiece(value);
    ThreeParams(SIGNED_HEAD, p1, p2, p3);
    OtherParam(MicalgParam(micalg), [p2, p3]);
    OtherParam(PROTOCOL_PARAM, [p3]);
    BoundaryParam(value, b, []);
    assert [p1] + [p2, p3] == [p1, p2, p3];
    assert [p2] + [p3] == [p2, p3];
    assert [p3] + [] == [p3];
    SignedTypeWithIs(micalg, value);
  }

  lemma SignedTypeIs(micalg: Bytes, b: Bytes)
    ensures SignedType(micalg, b) == SignedTypeWith(micalg, Quoted(b))
  {
    hide SignedTypeWith;
  }

  lemma SignedTypeWithIs(micalg: Bytes, value: Bytes)
    ensures SignedTypeWith(micalg, value) ==
      SIGNED_HEAD + [';']
        + (([' '] + MicalgParam(micalg)) + [';'] + (([' '] + PROTOCOL_PARAM) + [';'] + BoundaryPiece(value)))
  {
  }

  lemma SignedParamsPlain(micalg: Bytes)
    requires ';' !in micalg
    ensures ';' !in SIGNED_HEAD && ';' !in [' '] + MicalgParam(micalg) && ';' !in [' '] + PROTOCOL_PARAM
    ensures MicalgParam(micalg) != [] && MicalgParam(micalg)[0] == 'm' && 'm' !in SPACES && LowerOctet('m') != 'b'
    ensures PROTOCOL_PARAM != [] && PROTOCOL_PARAM[0] == 'p' && 'p' !in SPACES && LowerOctet('p') != 'b'
  {
    assert MicalgParam(micalg)[0] == MICALG_EQ[0];
  }

  lemma ThreeParams(head: Bytes, p1: Bytes, p2: Bytes, p3: Bytes)
    requires ';' !in head && ';' !in p1 && ';' !in p2 && ';' !in p3
    ensures ContentTypeParam(head + [';'] + (p1 + [';'] + (p2 + [';'] + p3)), BOUNDARY) ==
      ParamIn([p1, p2, p3], BOUNDARY)
  {
    hide SplitOn, ParamIn;
    SplitOnCons(head, ';', p1 + [';'] + (p2 + [';'] + p3));
    SplitOnCons(p1, ';', p2 + [';'] + p3);
    SplitOnCons(p2, ';', p3);
    SplitOnNone(p3, ';');
    assert [p1] + ([p2] + [p3]) == [p1, p2, p3];
    assert ([head] + [p1, p2, p3])[1..] == [p1, p2, p3];
  }

  // ------------------------------------------------------------------
  // End to end
  // ------------------------------------------------------------------

  /** What the gateway puts on the wire for a receipt: the report, signed and wrapped. */
  function Wire(r: Receipt, sign: Bytes -> Bytes, reportToken: Bytes, signedToken: Bytes): Bytes {
    var b := REPORT_PREFIX + reportToken;
    var report := EncodeBody(r, b);
    BuildSignedBody(report, ReportType(b), sign(report), SIGNED_PREFIX + signedToken)
  }

  lemma ReportTypePlain(token: Bytes)
    requires IsToken(token)
    ensures PlainValue(ReportType(REPORT_PREFIX + token)) && ReportType(REPORT_PREFIX + token) != []
  {
    ReportBoundary(token);
    ReportTypeLiterals();
    hide REPORT_PREFIX, REPORT_HEAD, REPORT_PARAM, BOUNDARY_EQ;
    var b := REPORT_PREFIX + token;
    var t := ReportType(b);
    assert t[0] == REPORT_HEAD[0];
    assert t[|t| - 1] == QUOTE;
  }

  lemma ReportTypeLiterals()
    ensures Printable(REPORT_HEAD) && REPORT_HEAD != [] && REPORT_HEAD[0] != ' '
    ensures Printable(REPORT_PARAM)
    ensures Printable(BOUNDARY_EQ)
  {
  }

  /**
   Every receipt with delimiter-free values reaches the sender's decoder unchanged up
   to edge whitespace: the wrapper returns the very bytes that were signed, with the
   signature, and the decoder returns the receipt. It does so too when the
   content-type header carries no boundary.
   */
  lemma WireReadBack(r: Receipt, sign: Bytes -> Bytes, reportToken: Bytes, signedToken: Bytes, contentType: Bytes)
    requires Sendable(r) && IsToken(reportToken) && IsToken(signedToken)
    requires ContentTypeParam(contentType, BOUNDARY) in {None, Some(SIGNED_PREFIX + signedToken)}
    requires Clean(RStrip(sign(EncodeBody(r, REPORT_PREFIX + reportToken)), NEWLINES),
                   Marker(SIGNED_PREFIX + signedToken))
    ensures var b := REPORT_PREFIX + reportToken;
      var report := EncodeBody(r, b);
      && ParseSigned(Wire(r, sign, reportToken, signedToken), contentType)
         == Ok(Signed(report, ReportType(b), RStrip(sign(report), NEWLINES)))
      && DecodeReport(report, ReportType(b)) == Ok(Stripped(r))
  {
    var b := REPORT_PREFIX + reportToken;
    var report := EncodeBody(r, b);
    ReportTypePlain(reportToken);
    ReportCleanInside(r, reportToken, signedToken);
    hide EncodeBody, ReportType, ParseSigned, DecodeReport, RStrip, BuildSignedBody, Clean, Sendable,
         PlainValue, ContentTypeParam,
         REPORT_PREFIX, SIGNED_PREFIX, Stripped;
    SignedReadBack(report, ReportType(b), sign(report), signedToken, contentType);
    DecodeEncode(r, reportToken);
  }

  /**
   For every error code and every description, a rejected receipt read back from the
   wire carries exactly that code before the first colon, is never ok, and keeps its
   time, server and transaction ids.
   */
  lemma RejectedEndToEnd(
    serverId: Bytes, transId: nat, code: ErrorCode, description: Option<Bytes>, standard: Bytes, timeC: Bytes,
    sign: Bytes -> Bytes, reportToken: Bytes, signedToken: Bytes, contentType: Bytes
  )
    requires FieldText(serverId) && FieldText(standard) && Decimal.AllDigits(timeC)
    requires IsToken(reportToken) && IsToken(signedToken)
    requires ContentTypeParam(contentType, BOUNDARY) in {None, Some(SIGNED_PREFIX + signedToken)}
    requires
      var r := RejectedReceipt(serverId, transId, code, description, standard, timeC);
      Clean(RStrip(sign(EncodeBody(r, REPORT_PREFIX + reportToken)), NEWLINES), Marker(SIGNED_PREFIX + signedToken))
    ensures
      var r := RejectedReceipt(serverId, transId, code, description, standard, timeC);
      var parsed := ParseSigned(Wire(r, sign, reportToken, signedToken), contentType);
      && parsed.Ok?
      && parsed.value.report == EncodeBody(r, REPORT_PREFIX + reportToken)
      && parsed.value.signature == RStrip(sign(parsed.value.report), NEWLINES)
      && var got := DecodeReport(parsed.value.report, parsed.value.reportType);
      && got == Ok(Receipt(timeC, Strip(r.requestStatus), Strip(serverId), Decimal.Of(transId)))
      && StatusCode(got.value.requestStatus) == Value(code)
      && !got.value.IsOk()
      && (description.Some? && description.value != [] ==>
            StatusDescription(got.value.requestStatus) == Strip(Sanitize(description.value)))
  {
    hide *;
    var r := RejectedReceipt(serverId, transId, code, description, standard, timeC);
    StatusReadBack(code, description, standard);
    DigitsPlain(timeC);
    DigitsPlain(Decimal.Of(transId));
    RejectedReceiptIs(serverId, transId, code, description, standard, timeC);
    SendableIs(r);
    WireReadBack(r, sign, reportToken, signedToken, contentType);
    IsOkMeans(Stripped(r));
  }

  lemma RejectedReceiptIs(
    serverId: Bytes, transId: nat, code: ErrorCode, description: Option<Bytes>, standard: Bytes, timeC: Bytes)
    ensures RejectedReceipt(serverId, transId, code, description, standard, timeC)
         == Receipt(timeC, RejectedStatus(code, description, standard), serverId, Decimal.Of(transId))
  {
    hide RejectedStatus;
  }

  /** An accepted receipt always reads back as ok. */
  lemma OkEndToEnd(
    serverId: Bytes, transId: nat, timeC: Bytes,
    sign: Bytes -> Bytes, reportToken: Bytes, signedToken: Bytes, contentType: Bytes
  )
    requires FieldText(serverId) && Decimal.AllDigits(timeC)
    requires IsToken(reportToken) && IsToken(signedToken)
    requires ContentTypeParam(contentType, BOUNDARY) in {None, Some(SIGNED_PREFIX + signedToken)}
    requires
      var r := OkReceipt(serverId, transId, timeC);
      Clean(RStrip(sign(EncodeBody(r, REPORT_PREFIX + reportToken)), NEWLINES), Marker(SIGNED_PREFIX + signedToken))
    ensures
      var r := OkReceipt(serverId, transId, timeC);
      var parsed := ParseSigned(Wire(r, sign, reportToken, signedToken), contentType);
      && parsed.Ok?
      && parsed.value.report == EncodeBody(r, REPORT_PREFIX + reportToken)
      && parsed.value.signature == RStrip(sign(parsed.value.report), NEWLINES)
      && var got := DecodeReport(parsed.value.report, parsed.value.reportType);
      && got == Ok(Receipt(timeC, OK_STATUS, Strip(serverId), Decimal.Of(transId)))
      && got.value.IsOk()
  {
    hide *;
    var r := OkReceipt(serverId, transId, timeC);
    OkPlain();
    DigitsPlain(timeC);
    DigitsPlain(Decimal.Of(transId));
    OkReceiptIs(serverId, transId, timeC);
    SendableIs(r);
    WireReadBack(r, sign, reportToken, signedToken, contentType);
    IsOkMeans(Stripped(r));
  }

  lemma OkReceiptIs(serverId: Bytes, transId: nat, timeC: Bytes)
    ensures OkReceipt(serverId, transId, timeC) == Receipt(timeC, OK_STATUS, serverId, Decimal.Of(transId))
  {
  }

  lemma SendableIs(r: Receipt)
    requires FieldText(r.timeC) && FieldText(r.requestStatus) && FieldText(r.serverId) && FieldText(r.transId)
    ensures Sendable(r)
    ensures Stripped(r) == Receipt(Strip(r.timeC), Strip(r.requestStatus), Strip(r.serverId), Strip(r.transId))
  {
  }

  lemma IsOkMeans(r: Receipt)
    ensures r.IsOk() <==> r.requestStatus == OK_STATUS
  {
  }

  lemma OkPlain()
    ensures FieldText(OK_STATUS) && Strip(OK_STATUS) == OK_STATUS
  {
    hide Strip;
    assert Trimmed(OK_STATUS);
    StripTrimmed(OK_STATUS);
  }

  lemma DigitsPlain(s: Bytes)
    requires Decimal.AllDigits(s)
    ensures FieldText(s) && Strip(s) == s
  {
    hide Strip;
    if s != [] {
      assert s[0] in s && s[|s| - 1] in s;
    }
    assert Trimmed(s);
    StripTrimmed(s);
  }
}
