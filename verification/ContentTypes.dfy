/** The content-type strings the gateway writes, and how their boundary parameter is read back. */
module ContentTypes {
  import opened Wrappers
  import opened Bytes
  import opened MimeSplit
  import opened MimePrint

  const CONTENT_TYPE: Bytes := "content-type"

  lemma ContentTypePlain()
    ensures PlainName(CONTENT_TYPE)
  {
  }

  const BOUNDARY: Bytes := "boundary"
  const BOUNDARY_EQ: Bytes := "boundary="
  const QUOTE: Octet := '"'

  function HeaderOr(headers: map<Bytes, Bytes>, name: Bytes, default: Bytes): Bytes {
    if name in headers then headers[name] else default
  }

  /** The part's content type, in any case, is `media` with anything after it. */
  ghost predicate IsOfType(part: Part, media: Bytes) {
    exists rest: Bytes :: Lower(HeaderOr(part.headers, CONTENT_TYPE, [])) == media + rest
  }

  lemma TypePrefix(part: Part, media: Bytes)
    ensures IsOfType(part, media) <==> media <= Lower(HeaderOr(part.headers, CONTENT_TYPE, []))
  {
    var s := Lower(HeaderOr(part.headers, CONTENT_TYPE, []));
    hide Lower, CONTENT_TYPE;
    if media <= s {
      assert s == media + s[|media|..];
    }
  }

  /** The same bodies, under content types that differ in case only. */
  ghost predicate SameButCase(parts: seq<Part>, parts': seq<Part>) {
    && |parts'| == |parts|
    && forall i :: 0 <= i < |parts| ==>
         && parts'[i].body == parts[i].body
         && Lower(HeaderOr(parts'[i].headers, CONTENT_TYPE, [])) == Lower(HeaderOr(parts[i].headers, CONTENT_TYPE, []))
  }

  /** `secrets.token_hex`: lower-case hexadecimal digits. */
  predicate IsToken(token: Bytes) {
    forall c :: c in token ==> '0' <= c <= '9' || 'a' <= c <= 'f'
  }

  /** A boundary that can stand in a header: graphic ASCII, with no separator or quote. */
  predicate PlainBoundary(b: Bytes) {
    && b != []
    && forall c :: c in b ==> '!' <= c <= '~' && c != ';' && c != QUOTE
  }

  lemma TokenBoundary(prefix: Bytes, token: Bytes)
    requires PlainBoundary(prefix) && IsToken(token)
    ensures PlainBoundary(prefix + token) && NewlineFree(prefix + token)
  {
  }

  /** ` boundary=...` as one piece between semicolons. */
  function BoundaryPiece(value: Bytes): Bytes {
    [' '] + (BOUNDARY_EQ + value)
  }

  /** A boundary as a header may give it: in quotes, as the gateway does, or bare, as its partners do. */
  predicate Spells(value: Bytes, b: Bytes) {
    value == b || value == Quoted(b)
  }

  function Quoted(b: Bytes): Bytes {
    [QUOTE] + b + [QUOTE]
  }

  lemma {:induction false} LowerConcat(a: Bytes, b: Bytes)
    ensures Lower(a + b) == Lower(a) + Lower(b)
  {
    if a == [] {
      assert a + b == b;
    } else {
      assert (a + b)[1..] == a[1..] + b;
      LowerConcat(a[1..], b);
    }
  }

  lemma QuotedSpells(b: Bytes)
    ensures Spells(Quoted(b), b) && Spells(b, b)
  {
    hide Quoted;
  }

  lemma PlainNewlineFree(b: Bytes)
    requires PlainBoundary(b)
    ensures NewlineFree(b)
  {
  }

  lemma SpelledTrimmed(value: Bytes, b: Bytes)
    requires PlainBoundary(b) && Spells(value, b)
    ensures value != [] && Trimmed(value)
  {
    assert b[0] in b && b[|b| - 1] in b;
  }

  lemma Unquote(value: Bytes, b: Bytes)
    requires PlainBoundary(b) && Spells(value, b)
    ensures RStrip(LStrip(value, {QUOTE}), {QUOTE}) == b
  {
    hide RStrip, LStrip;
    assert b[0] in b && b[|b| - 1] in b;
    StripKeepsHead(b);
    assert Quoted(b) == [QUOTE] + (b + [QUOTE]);
    LStripPad([QUOTE], b + [QUOTE], {QUOTE});
    StripKeepsHead(b + [QUOTE]);
    RStripPad(b, [QUOTE], {QUOTE});
    StripKeepsLast(b);
  }

  lemma StripKeepsHead(s: Bytes)
    requires s != [] && s[0] != QUOTE
    ensures LStrip(s, {QUOTE}) == s
  {
  }

  lemma StripKeepsLast(s: Bytes)
    requires s != [] && s[|s| - 1] != QUOTE
    ensures RStrip(s, {QUOTE}) == s
  {
  }

  lemma BoundaryParam(value: Bytes, b: Bytes, rest: seq<Bytes>)
    requires PlainBoundary(b) && Spells(value, b)
    ensures ParamIn([BoundaryPiece(value)] + rest, BOUNDARY) == Some(b)
  {
    hide *;
    var piece := BOUNDARY_EQ + value;
    SpelledTrimmed(value, b);
    BoundaryWords();
    PieceStripped(value);
    LowerConcat(BOUNDARY_EQ, value);
    assert piece[|BOUNDARY| + 1..] == value;
    StripTrimmed(value);
    Unquote(value, b);
    NamedFirst(BoundaryPiece(value), rest, BOUNDARY);
  }

  lemma PieceStripped(value: Bytes)
    requires value != [] && Trimmed(value)
    ensures Strip(BoundaryPiece(value)) == BOUNDARY_EQ + value
  {
    var piece := BOUNDARY_EQ + value;
    BoundaryWords();
    hide BOUNDARY, BOUNDARY_EQ, Lower;
    assert piece[0] == BOUNDARY_EQ[0] && piece[|piece| - 1] == value[|value| - 1];
    StripSpace(piece);
  }

  lemma NamedFirst(piece: Bytes, rest: seq<Bytes>, name: Bytes)
    requires Lower(name) + ['='] <= Lower(Strip(piece))
    ensures |Strip(piece)| > |name|
    ensures ParamIn([piece] + rest, name) == Some(RStrip(LStrip(Strip(Strip(piece)[|name| + 1..]), {QUOTE}), {QUOTE}))
  {
    hide *;
    LongerThan(Strip(piece), name);
    assert ([piece] + rest)[0] == piece;
    NamedHead([piece] + rest, name);
  }

  lemma LongerThan(piece: Bytes, name: Bytes)
    requires Lower(name) + ['='] <= Lower(piece)
    ensures |piece| > |name|
  {
    assert |Lower(name) + ['=']| <= |Lower(piece)|;
  }

  lemma NamedHead(pieces: seq<Bytes>, name: Bytes)
    requires pieces != [] && Lower(name) + ['='] <= Lower(Strip(pieces[0])) && |Strip(pieces[0])| > |name|
    ensures ParamIn(pieces, name) ==
      Some(RStrip(LStrip(Strip(Strip(pieces[0])[|name| + 1..]), {QUOTE}), {QUOTE}))
  {
    hide Strip, RStrip, LStrip, Lower;
  }

  lemma BoundaryWords()
    ensures Lower(BOUNDARY) + ['='] == Lower(BOUNDARY_EQ) && |BOUNDARY_EQ| == |BOUNDARY| + 1
    ensures BOUNDARY_EQ[0] == 'b' == Lower(BOUNDARY)[0] && 'b' !in SPACES
    ensures ';' !in BOUNDARY_EQ
  {
    BoundaryIsLower();
    LowerFixed(BOUNDARY);
    LowerFixed(BOUNDARY_EQ);
    BoundaryEqIs();
    hide *;
  }

  lemma BoundaryIsLower()
    ensures IsLower(BOUNDARY) && IsLower(BOUNDARY_EQ)
  {
  }

  lemma BoundaryEqIs()
    ensures BOUNDARY + ['='] == BOUNDARY_EQ && |BOUNDARY_EQ| == |BOUNDARY| + 1
    ensures BOUNDARY_EQ[0] == 'b' == BOUNDARY[0] && 'b' !in SPACES
    ensures ';' !in BOUNDARY_EQ
  {
    hide Lower, LowerOctet;
  }

  /** A parameter whose name starts with another letter is passed over. */
  lemma OtherParam(piece: Bytes, rest: seq<Bytes>)
    requires piece != [] && piece[0] !in SPACES && LowerOctet(piece[0]) != 'b'
    ensures ParamIn([[' '] + piece] + rest, BOUNDARY) == ParamIn(rest, BOUNDARY)
  {
    var s := [' '] + piece;
    var stripped := Strip(s);
    OtherStripped(piece);
    BoundaryWords();
    assert ([s] + rest)[1..] == rest && ([s] + rest)[0] == s;
    assert (Lower(BOUNDARY) + ['='])[0] == 'b';
    assert Lower(stripped)[0] == LowerOctet(piece[0]);
    hide Strip, Lower, LowerOctet;
  }

  lemma OtherStripped(piece: Bytes)
    requires piece != [] && piece[0] !in SPACES
    ensures var s := Strip([' '] + piece); s != [] && s[0] == piece[0]
  {
    LStripPad([' '], piece, SPACES);
    assert piece == [piece[0]] + piece[1..];
    RStripAfter([piece[0]], piece[1..], SPACES);
  }

  lemma BoundaryWhole(value: Bytes, b: Bytes)
    requires PlainBoundary(b) && Spells(value, b)
    ensures ';' !in BoundaryPiece(value)
  {
    BoundaryWords();
  }

  lemma TwoParams(head: Bytes, p1: Bytes, p2: Bytes)
    requires ';' !in head && ';' !in p1 && ';' !in p2
    ensures ContentTypeParam(head + [';'] + (p1 + [';'] + p2), BOUNDARY) == ParamIn([p1, p2], BOUNDARY)
  {
    hide SplitOn, ParamIn;
    SplitOnCons(head, ';', p1 + [';'] + p2);
    SplitOnCons(p1, ';', p2);
    SplitOnNone(p2, ';');
    assert [p1] + [p2] == [p1, p2];
    assert ([head] + [p1, p2])[1..] == [p1, p2];
  }

  lemma BoundaryFirst(head: Bytes, value: Bytes, b: Bytes, last: Bytes)
    requires PlainBoundary(b) && Spells(value, b) && ';' !in head && ';' !in last
    ensures ContentTypeParam(head + [';'] + (BoundaryPiece(value) + [';'] + last), BOUNDARY) == Some(b)
  {
    hide *;
    BoundaryWhole(value, b);
    TwoParams(head, BoundaryPiece(value), last);
    BoundaryParam(value, b, [last]);
    assert [BoundaryPiece(value)] + [last] == [BoundaryPiece(value), last];
  }

  lemma BoundaryLast(head: Bytes, other: Bytes, value: Bytes, b: Bytes)
    requires PlainBoundary(b) && Spells(value, b) && ';' !in head && ';' !in other
    requires other != [] && other[0] !in SPACES && LowerOctet(other[0]) != 'b'
    ensures ContentTypeParam(head + [';'] + (([' '] + other) + [';'] + BoundaryPiece(value)), BOUNDARY) == Some(b)
  {
    hide *;
    var o := [' '] + other;
    BoundaryWhole(value, b);
    TwoParams(head, o, BoundaryPiece(value));
    OtherParam(other, [BoundaryPiece(value)]);
    BoundaryParam(value, b, []);
    assert [o] + [BoundaryPiece(value)] == [o, BoundaryPiece(value)];
    assert [BoundaryPiece(value)] + [] == [BoundaryPiece(value)];
  }

  // ------------------------------------------------------------------
  // Documents of two parts, flattened
  // ------------------------------------------------------------------

  lemma TwoPartDocument(e1: Entity, e2: Entity, boundary: Bytes)
    requires e1.fields != [] && e2.fields != []
    ensures var m := Marker(boundary);
      Document([e1, e2], boundary, CRLF, CRLF) ==
      m + (PieceOf(e1, CRLF) + CRLF + m + (PieceOf(e2, CRLF) + CRLF + m + (DASHES + CRLF)))
  {
    var m := Marker(boundary);
    DocumentUnfold([e1, e2], boundary, CRLF, CRLF);
    TailUnfold([e1, e2], m, CRLF, CRLF);
    assert [e1, e2][1..] == [e2];
    TailUnfold([e2], m, CRLF, CRLF);
    assert [e2][1..] == [];
  }

  /** Re-bracketing of the concatenation that all three wrappers write. */
  lemma Flatten(d: Bytes, b: Bytes, h1: Bytes, b1: Bytes, h2: Bytes, b2: Bytes)
    ensures
      d + b + CRLF + h1 + CRLF + CRLF + b1 + CRLF + d + b + CRLF + h2 + CRLF + CRLF + b2 + CRLF + d + b + d + CRLF ==
      (d + b) + ((CRLF + h1 + CRLF + CRLF + b1) + CRLF + (d + b) +
                 ((CRLF + h2 + CRLF + CRLF + b2) + CRLF + (d + b) + (d + CRLF)))
  {
    var m := d + b;
    var tail := m + (d + CRLF);
    assert m + d + CRLF == tail;
    var second := (CRLF + h2 + CRLF + CRLF + b2) + CRLF + tail;
    assert second == (CRLF + h2 + CRLF + CRLF + b2) + CRLF + m + (d + CRLF);
    var first := CRLF + h1 + CRLF + CRLF + b1;
    assert m + CRLF + h1 + CRLF + CRLF + b1 == m + first;
    var x := m + first + CRLF;
    assert x + d + b == x + m;
    assert x + m + CRLF + h2 + CRLF + CRLF + b2 == x + m + (CRLF + h2 + CRLF + CRLF + b2);
    var y := x + m + (CRLF + h2 + CRLF + CRLF + b2) + CRLF;
    assert y + d + b == y + m;
    assert y + m + d + CRLF == y + tail;
    assert y + tail == x + m + second;
    assert x + m + second == m + (first + CRLF + m + second);
  }

  // ------------------------------------------------------------------
  // Literals
  // ------------------------------------------------------------------

  predicate Printable(s: Bytes) {
    forall c :: c in s ==> ' ' <= c <= '~'
  }

  /** A lower-case field name, which cannot be mistaken for a marker. */
  predicate PlainName(name: Bytes) {
    && name != [] && name[0] != '-'
    && forall c :: c in name ==> 'a' <= c <= 'z' || c == '-'
  }

  predicate PlainValue(value: Bytes) {
    && Printable(value)
    && (value != [] ==> value[0] != ' ' && value[|value| - 1] != ' ')
  }

  predicate PlainField(f: Field) {
    PlainName(f.name) && PlainValue(f.value)
  }

  lemma PlainFieldWellFormed(f: Field, marker: Bytes)
    requires PlainField(f) && marker != [] && marker[0] == '-'
    ensures WellFormedField(f, marker)
  {
    assert FieldLine(f)[0] == f.name[0];
    assert f.name[0] in f.name && f.name[|f.name| - 1] in f.name;
    assert f.value != [] ==> f.value[0] in f.value && f.value[|f.value| - 1] in f.value;
  }

  lemma PlainLineClean(s: Bytes, marker: Bytes)
    requires NewlineFree(s) && (s == [] || s[0] != '-') && marker != [] && marker[0] == '-'
    ensures Clean(s, marker)
  {
    forall i: nat ensures !OccursAt(LFS + marker, s, i) {
      if i < |s| {
        assert s[i] in s;
        assert s[i..][0] == s[i];
      }
    }
  }

  lemma SingleHeader(name: Bytes, value: Bytes)
    ensures HeadersMap([Field(name, value)]) == map[name := value]
  {
    assert [Field(name, value)][..0] == [];
  }
}
