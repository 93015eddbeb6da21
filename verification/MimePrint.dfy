/**
 Printing a multipart body, and when the splitter reads it back unchanged.

 The printer is the shape that wrap_pgp_encrypted, encode_report_part and
 build_signed_mime all share: delimiter line, header lines, blank line, body.
 It takes the line ending as a parameter, because the splitter promises to
 tolerate bare LF.
 */
module MimePrint {
  import opened Wrappers
  import opened Bytes
  import opened MimeSplit

  datatype Field = Field(name: Bytes, value: Bytes)

  datatype Entity = Entity(fields: seq<Field>, body: Bytes)

  predicate LineEnding(nl: Bytes) {
    nl == CRLF || nl == LFS
  }

  function FieldLine(f: Field): Bytes {
    f.name + [':', ' '] + f.value
  }

  predicate WellFormedField(f: Field, marker: Bytes) {
    && f.name != [] && Trimmed(f.name) && NewlineFree(f.name) && ':' !in f.name && IsLower(f.name)
    && Trimmed(f.value) && NewlineFree(f.value)
    && !(marker <= FieldLine(f))
  }

  predicate WellFormed(e: Entity, marker: Bytes) {
    forall f :: f in e.fields ==> WellFormedField(f, marker)
  }

  function HeaderBlock(fields: seq<Field>, nl: Bytes): Bytes
    requires fields != []
  {
    if |fields| == 1 then FieldLine(fields[0])
    else FieldLine(fields[0]) + nl + HeaderBlock(fields[1..], nl)
  }

  /** What stands between an entity's delimiter and the line break before the next one. */
  function PieceOf(e: Entity, nl: Bytes): Bytes {
    if e.fields == [] then nl + nl + e.body
    else nl + HeaderBlock(e.fields, nl) + nl + nl + e.body
  }

  function Tail(es: seq<Entity>, marker: Bytes, nl: Bytes, epilogue: Bytes): Bytes {
    if es == [] then DASHES + epilogue
    else PieceOf(es[0], nl) + nl + marker + Tail(es[1..], marker, nl, epilogue)
  }

  function Document(es: seq<Entity>, boundary: Bytes, nl: Bytes, epilogue: Bytes): Bytes {
    Marker(boundary) + Tail(es, Marker(boundary), nl, epilogue)
  }

  function HeadersMap(fields: seq<Field>): map<Bytes, Bytes> {
    if fields == [] then map[]
    else HeadersMap(fields[..|fields| - 1])[fields[|fields| - 1].name := fields[|fields| - 1].value]
  }

  function Expected(e: Entity): Part {
    Part(HeadersMap(e.fields), e.body)
  }

  function ExpectedAll(es: seq<Entity>): seq<Part> {
    if es == [] then [] else [Expected(es[0])] + ExpectedAll(es[1..])
  }

  /** No line of `s` starts with the marker, `s` itself standing at a line start. */
  ghost predicate Clean(s: Bytes, marker: Bytes) {
    !(marker <= s) && !Contains(s, LFS + marker)
  }

  /** When the splitter returns an entity as it was printed. */
  ghost predicate Faithful(e: Entity, marker: Bytes, nl: Bytes) {
    && Clean(e.body, marker)
    && (nl == LFS ==> !Contains(e.body, HEADER_END) && (e.body == [] || e.body[|e.body| - 1] != CR))
    && (e.fields == [] ==> nl == LFS && (e.body == [] || e.body[0] !in NEWLINES) && !Contains(e.body, HEADER_END_LF))
  }

  /**
   The splitter returns the printed entities exactly when no body has a line that starts
   with the marker, each of them has a header and, printed with bare LF, no body contains
   CRLF CRLF or ends in CR. An entity without headers comes back only when printed with
   bare LF, if its body moreover neither starts with a newline octet nor contains LF LF.
   What follows the terminator is free.
   */
  lemma RoundTrip(es: seq<Entity>, boundary: Bytes, nl: Bytes, epilogue: Bytes)
    requires es != [] && LineEnding(nl) && NewlineFree(boundary)
    requires forall e :: e in es ==> WellFormed(e, Marker(boundary))
    ensures SplitParts(Document(es, boundary, nl, epilogue), boundary) == Ok(ExpectedAll(es))
       <==> forall e :: e in es ==> Faithful(e, Marker(boundary), nl)
  {
    hide *;
    var marker := Marker(boundary);
    MarkerNewlineFree(boundary);
    TailRoundTrip(es, marker, nl, epilogue);
    var t := Tail(es, marker, nl, epilogue);
    RawPartsAfterMarker(marker, t);
    assert Document(es, boundary, nl, epilogue) == marker + t by { DocumentUnfold(es, boundary, nl, epilogue); }
    ExpectedNonEmpty(es);
    SplitAfterMarker(marker, t, boundary);
  }

  /** Bare line feeds between lines are as good as CRLF, for parts both renderings can carry. */
  lemma LineEndingTolerance(es: seq<Entity>, boundary: Bytes, epilogue: Bytes)
    requires es != [] && NewlineFree(boundary)
    requires forall e :: e in es ==>
      e.fields != [] && WellFormed(e, Marker(boundary)) && Faithful(e, Marker(boundary), LFS)
    ensures SplitParts(Document(es, boundary, LFS, epilogue), boundary)
         == SplitParts(Document(es, boundary, CRLF, epilogue), boundary)
         == Ok(ExpectedAll(es))
  {
    hide WellFormed, Clean, Document, SplitParts, ExpectedAll, NewlineFree, Marker, Contains;
    RoundTrip(es, boundary, LFS, epilogue);
    RoundTrip(es, boundary, CRLF, epilogue);
  }

  lemma DocumentUnfold(es: seq<Entity>, boundary: Bytes, nl: Bytes, epilogue: Bytes)
    ensures Document(es, boundary, nl, epilogue) == Marker(boundary) + Tail(es, Marker(boundary), nl, epilogue)
  {
  }

  lemma MarkerNewlineFree(boundary: Bytes)
    requires NewlineFree(boundary)
    ensures NewlineFree(Marker(boundary)) && |Marker(boundary)| >= 2 && Marker(boundary)[0] == '-'
  {
  }

  lemma ExpectedNonEmpty(es: seq<Entity>)
    requires es != []
    ensures ExpectedAll(es) != []
  {
  }

  lemma SplitAfterMarker(marker: Bytes, t: Bytes, boundary: Bytes)
    requires marker == Marker(boundary)
    ensures SplitParts(marker + t, boundary).Ok? ==> SplitParts(marker + t, boundary).value != []
    ensures var ps := PartsUntilTerminator(Pieces(t, marker, []));
      && (|Pieces(t, marker, [])| >= 2 && ps != [] ==> SplitParts(marker + t, boundary) == Ok(ps))
      && (SplitParts(marker + t, boundary).Ok? ==> SplitParts(marker + t, boundary) == Ok(ps))
  {
    hide Pieces, PartsUntilTerminator, RawParts;
    RawPartsAfterMarker(marker, t);
    assert RawParts(marker + t, marker)[1..] == Pieces(t, marker, []);
  }

  lemma {:induction false} TailRoundTrip(es: seq<Entity>, marker: Bytes, nl: Bytes, epilogue: Bytes)
    requires LineEnding(nl) && NewlineFree(marker) && |marker| >= 2 && marker[0] == '-'
    requires forall e :: e in es ==> WellFormed(e, marker)
    ensures var pieces := Pieces(Tail(es, marker, nl, epilogue), marker, []);
      && (PartsUntilTerminator(pieces) == ExpectedAll(es) <==> forall e :: e in es ==> Faithful(e, marker, nl))
      && ((forall e :: e in es ==> Faithful(e, marker, nl)) ==> |pieces| > |es|)
  {
    hide *;
    if es == [] {
      TailEmpty(marker, nl, epilogue);
    } else {
      var e, rest := es[0], es[1..];
      assert forall x :: x in es <==> x == e || x in rest;
      TailRoundTrip(rest, marker, nl, epilogue);
      TailUnfold(es, marker, nl, epilogue);
      FirstPart(e, marker, nl, Tail(rest, marker, nl, epilogue));
      var pieces := Pieces(Tail(es, marker, nl, epilogue), marker, []);
      PartsUnfold(pieces);
      ConsEqual(ParsePart(pieces[0]), PartsUntilTerminator(pieces[1..]), Expected(e), ExpectedAll(rest));
    }
  }

  lemma ConsEqual<T>(x: T, xs: seq<T>, y: T, ys: seq<T>)
    ensures [x] + xs == [y] + ys <==> x == y && xs == ys
    ensures [] != [y] + ys
  {
    assert ([x] + xs)[0] == x && ([x] + xs)[1..] == xs;
    assert ([y] + ys)[0] == y && ([y] + ys)[1..] == ys;
  }

  lemma TailEmpty(marker: Bytes, nl: Bytes, epilogue: Bytes)
    requires marker != []
    ensures var pieces := Pieces(Tail([], marker, nl, epilogue), marker, []);
      PartsUntilTerminator(pieces) == ExpectedAll([]) == [] && |pieces| > 0
  {
    hide Pieces;
    TerminatorPiece(marker, epilogue);
  }

  lemma TailUnfold(es: seq<Entity>, marker: Bytes, nl: Bytes, epilogue: Bytes)
    requires es != []
    ensures Tail(es, marker, nl, epilogue) == PieceOf(es[0], nl) + nl + marker + Tail(es[1..], marker, nl, epilogue)
    ensures ExpectedAll(es) == [Expected(es[0])] + ExpectedAll(es[1..])
  {
  }

  lemma PartsUnfold(pieces: seq<Bytes>)
    requires pieces != []
    ensures PartsUntilTerminator(pieces) ==
            if DASHES <= pieces[0] then [] else [ParsePart(pieces[0])] + PartsUntilTerminator(pieces[1..])
  {
  }

  lemma TerminatorPiece(marker: Bytes, epilogue: Bytes)
    requires marker != []
    ensures DASHES <= Pieces(DASHES + epilogue, marker, [])[0]
  {
    var s := DASHES + epilogue;
    assert s[0] == '-' && s[1] == '-';
    assert s[1..][1..] == epilogue;
    PieceExtends(epilogue, marker, DASHES);
    assert [] + [s[0]] + [s[1]] == DASHES;
  }

  /** The first piece starts with what has been read of it. */
  lemma {:induction false} PieceExtends(s: Bytes, marker: Bytes, acc: Bytes)
    ensures acc <= Pieces(s, marker, acc)[0] <= acc + s
    decreases |s|
  {
    if !(CRLF + marker <= s) && !(LFS + marker <= s) && s != [] {
      PieceExtends(s[1..], marker, acc + [s[0]]);
      assert acc + [s[0]] + s[1..] == acc + s;
      PrefixTrans(acc, [s[0]], Pieces(s[1..], marker, acc + [s[0]])[0]);
    }
  }

  lemma PrefixTrans(a: Bytes, b: Bytes, s: Bytes)
    requires a + b <= s
    ensures a <= s
  {
    assert (a + b)[..|a|] == s[..|a|] == a;
  }

  /** The first part read back, and the rest of the pieces, when an entity is followed by a delimiter. */
  lemma FirstPart(e: Entity, marker: Bytes, nl: Bytes, t: Bytes)
    requires LineEnding(nl) && NewlineFree(marker) && |marker| >= 2 && marker[0] == '-'
    requires WellFormed(e, marker)
    ensures var pieces := Pieces(PieceOf(e, nl) + nl + marker + t, marker, []);
      && (Faithful(e, marker, nl) ==>
            !(DASHES <= pieces[0]) && ParsePart(pieces[0]) == Expected(e) && pieces[1..] == Pieces(t, marker, []))
      && (!Faithful(e, marker, nl) ==> ParsePart(pieces[0]) != Expected(e))
  {
    var raw := PieceOf(e, nl);
    PieceClean(e, marker, nl);
    PieceShape(e, nl);
    hide PieceOf, Pieces, ParsePart, Expected;
    var s := raw + nl + marker + t;
    if Clean(e.body, marker) && (nl == LFS ==> e.body == [] || e.body[|e.body| - 1] != CR) {
      WholePiece(raw, nl, marker, t, []);
      assert [] + raw == raw;
      if e.fields == [] && nl == CRLF {
        HeaderlessDiffers(e, marker, raw);
      } else if e.fields == [] {
        HeaderlessWhole(e);
      } else {
        WholePart(e, marker, nl);
      }
    } else {
      CutPiece(raw, nl, marker, t);
      var first := Pieces(s, marker, [])[0];
      if e.fields == [] && nl == CRLF {
        HeaderlessDiffers(e, marker, first);
      } else if e.fields == [] {
        EmptyIsClean(marker);
        HeaderlessCut(e, first);
      } else {
        CutPartDiffers(e, marker, nl, first);
      }
    }
  }

  lemma PieceShape(e: Entity, nl: Bytes)
    requires LineEnding(nl)
    ensures var raw := PieceOf(e, nl);
      && |raw| > |e.body| && raw[|raw| - |e.body|..] == e.body && raw[|raw| - |e.body| - 1] == LF
      && !(DASHES <= raw)
  {
    var raw := PieceOf(e, nl);
    assert raw[0] in NEWLINES;
  }

  // ------------------------------------------------------------------
  // Lines and markers
  // ------------------------------------------------------------------

  lemma PrefixNewline(marker: Bytes, a: Bytes, nl: Bytes, b: Bytes)
    requires LineEnding(nl) && NewlineFree(marker)
    ensures marker <= a + nl + b <==> marker <= a
  {
    var s := a + nl + b;
    if |marker| > |a| {
      assert marker[|a|] in marker;
      assert s[|a|] == nl[0];
    } else {
      assert s[..|marker|] == a[..|marker|];
    }
  }

  /** A line and what follows it: the marker starts a line exactly when it starts this one or a later one. */
  lemma LineClean(a: Bytes, nl: Bytes, b: Bytes, marker: Bytes)
    requires LineEnding(nl) && NewlineFree(marker) && NewlineFree(a)
    ensures Contains(a + nl + b, LFS + marker) <==> !Clean(b, marker)
    ensures Clean(a + nl + b, marker) <==> !(marker <= a) && Clean(b, marker)
  {
    PrefixNewline(marker, a, nl, b);
    var s := a + nl + b;
    var q := |a| + |nl|;
    forall i: nat ensures OccursAt(LFS + marker, s, i) <==>
        (i == q - 1 && marker <= b) || (i >= q && OccursAt(LFS + marker, b, i - q))
    {
      if i >= q {
        if i <= |s| {
          assert s[i..] == b[i - q..];
        }
      } else {
        assert s[i..] == [s[i]] + s[i + 1..];
        PrefixCut(LFS, marker, s[i..]);
        assert s[i..][1..] == s[i + 1..];
        if i == q - 1 {
          assert s[q..] == b;
        } else {
          assert s[i] != LF by {
            if i < |a| {
              assert a[i] in a;
            }
          }
        }
      }
    }
    if marker <= b {
      assert OccursAt(LFS + marker, s, q - 1);
    }
    if Contains(b, LFS + marker) {
      var j: nat :| OccursAt(LFS + marker, b, j);
      assert OccursAt(LFS + marker, s, j + q);
    }
  }

  lemma FieldLineFacts(f: Field, marker: Bytes)
    requires WellFormedField(f, marker)
    ensures NewlineFree(FieldLine(f)) && FieldLine(f) != [] && FieldLine(f)[0] !in SPACES
  {
    var line := FieldLine(f);
    assert line[0] == f.name[0];
    forall c | c in line ensures c != CR && c != LF {
      var i :| 0 <= i < |line| && line[i] == c;
      if i < |f.name| {
        assert f.name[i] in f.name;
      } else if i >= |f.name| + 2 {
        assert f.value[i - |f.name| - 2] in f.value;
      }
    }
  }

  lemma {:induction false} BlockClean(fields: seq<Field>, nl: Bytes, rest: Bytes, marker: Bytes)
    requires fields != [] && LineEnding(nl) && NewlineFree(marker)
    requires forall f :: f in fields ==> WellFormedField(f, marker)
    ensures Clean(HeaderBlock(fields, nl) + nl + rest, marker) <==> Clean(rest, marker)
  {
    hide Clean, WellFormedField, FieldLine;
    var line := FieldLine(fields[0]);
    assert fields[0] in fields;
    FieldLineFacts(fields[0], marker);
    assert !(marker <= line) by { FieldNotMarker(fields[0], marker); }
    if |fields| == 1 {
      LineClean(line, nl, rest, marker);
    } else {
      var block := HeaderBlock(fields[1..], nl);
      BlockClean(fields[1..], nl, rest, marker);
      LineClean(line, nl, block + nl + rest, marker);
      assert HeaderBlock(fields, nl) + nl + rest == line + nl + (block + nl + rest);
    }
  }

  lemma FieldNotMarker(f: Field, marker: Bytes)
    requires WellFormedField(f, marker)
    ensures !(marker <= FieldLine(f))
  {
  }

  /** The piece of a well-formed entity is cut by a delimiter exactly when its body is. */
  lemma PieceClean(e: Entity, marker: Bytes, nl: Bytes)
    requires LineEnding(nl) && NewlineFree(marker) && marker != [] && WellFormed(e, marker)
    ensures Contains(PieceOf(e, nl), LFS + marker) <==> !Clean(e.body, marker)
  {
    hide Clean, Contains, WellFormedField;
    var body := e.body;
    LineClean([], nl, body, marker);
    assert [] + nl + body == nl + body;
    if e.fields == [] {
      LineClean([], nl, nl + body, marker);
      assert PieceOf(e, nl) == [] + nl + (nl + body);
    } else {
      var block := HeaderBlock(e.fields, nl);
      BlockClean(e.fields, nl, nl + body, marker);
      LineClean([], nl, block + nl + (nl + body), marker);
      assert PieceOf(e, nl) == [] + nl + (block + nl + (nl + body));
    }
  }

  // ------------------------------------------------------------------
  // Pieces: whole or cut short
  // ------------------------------------------------------------------

  /** A concatenation and its tail. */
  lemma Four(a: Bytes, b: Bytes, c: Bytes, d: Bytes)
    ensures a == [] ==> a + b + c + d == b + c + d
    ensures a != [] ==> a + b + c + d != [] && (a + b + c + d)[0] == a[0] && (a + b + c + d)[1..] == a[1..] + b + c + d
  {
  }

  lemma Shift(acc: Bytes, raw: Bytes)
    requires raw != []
    ensures acc + [raw[0]] + raw[1..] == acc + raw
  {
  }

  lemma NotContained(raw: Bytes, marker: Bytes)
    requires !Contains(raw, LFS + marker)
    ensures raw != [] ==> !(LFS + marker <= raw) && !(LFS + marker <= raw[1..])
  {
    assert !OccursAt(LFS + marker, raw, 0) && !OccursAt(LFS + marker, raw, 1);
    assert raw[0..] == raw;
  }

  lemma NoMatchInside(raw: Bytes, nl: Bytes, marker: Bytes, t: Bytes)
    requires LineEnding(nl) && NewlineFree(marker) && marker != []
    requires raw != [] && !Contains(raw, LFS + marker)
    requires nl == LFS ==> raw[|raw| - 1] != CR
    ensures !(CRLF + marker <= raw + nl + marker + t) && !(LFS + marker <= raw + nl + marker + t)
  {
    NotContained(raw, marker);
    LineEndingIs(nl);
    hide *;
    var s := raw + nl + marker + t;
    Four(raw, nl, marker, t);
    assert raw[0..] == raw;
    PrefixCut(LFS, marker, s);
    PrefixCut(LFS, marker, raw);
    AfterFirst(raw, nl, marker, t);
    assert CRLF + marker == [CR] + (LFS + marker);
    PrefixCut([CR], LFS + marker, s);
    if |raw| >= 2 {
      Four(raw[1..], nl, marker, t);
      PrefixCut(LFS, marker, s[1..]);
      PrefixCut(LFS, marker, raw[1..]);
      AfterFirst(raw[1..], nl, marker, t);
    } else {
      Four(raw[1..], nl, marker, t);
      PrefixCut(LFS, marker, nl + marker + t);
      assert (nl + marker + t)[0] == nl[0];
    }
  }

  lemma LineEndingIs(nl: Bytes)
    ensures LineEnding(nl) <==> nl == CRLF || nl == LFS
  {
  }

  /** A newline-free marker after the first octet is inside the piece. */
  lemma AfterFirst(raw: Bytes, nl: Bytes, marker: Bytes, t: Bytes)
    requires LineEnding(nl) && NewlineFree(marker) && raw != []
    ensures marker <= (raw + nl + marker + t)[1..] <==> marker <= raw[1..]
  {
    hide *;
    Four(raw, nl, marker, t);
    assert raw[1..] + nl + marker + t == raw[1..] + nl + (marker + t);
    PrefixNewline(marker, raw[1..], nl, marker + t);
  }

  lemma PiecesAtDelimiter(nl: Bytes, marker: Bytes, t: Bytes, acc: Bytes)
    requires LineEnding(nl)
    ensures Pieces(nl + marker + t, marker, acc) == [acc] + Pieces(t, marker, [])
  {
    var s := nl + marker + t;
    assert s[..|nl| + |marker|] == nl + marker;
    assert s[|nl| + |marker|..] == t;
    assert nl == LFS ==> s[0] == LF;
    assert (CRLF + marker)[0] == CR;
  }

  lemma NotContainedTail(raw: Bytes, p: Bytes)
    requires raw != [] && !Contains(raw, p)
    ensures !Contains(raw[1..], p)
  {
    forall i: nat ensures !OccursAt(p, raw[1..], i) {
      if i <= |raw[1..]| {
        assert raw[1..][i..] == raw[i + 1..];
        assert !OccursAt(p, raw, i + 1);
      }
    }
  }

  lemma {:induction false} WholePiece(raw: Bytes, nl: Bytes, marker: Bytes, t: Bytes, acc: Bytes)
    requires LineEnding(nl) && NewlineFree(marker) && marker != []
    requires !Contains(raw, LFS + marker)
    requires nl == LFS && raw != [] ==> raw[|raw| - 1] != CR
    ensures Pieces(raw + nl + marker + t, marker, acc) == [acc + raw] + Pieces(t, marker, [])
    decreases |raw|
  {
    hide *;
    Four(raw, nl, marker, t);
    if raw == [] {
      assert acc + raw == acc;
      PiecesAtDelimiter(nl, marker, t, acc);
    } else {
      NoMatchInside(raw, nl, marker, t);
      PiecesElsewhere(raw + nl + marker + t, marker, acc);
      NotContainedTail(raw, LFS + marker);
      WholePiece(raw[1..], nl, marker, t, acc + [raw[0]]);
      Shift(acc, raw);
    }
  }

  /** A delimiter at `i` ends the first piece there or earlier. */
  lemma {:induction false} PieceEndsBy(s: Bytes, marker: Bytes, acc: Bytes, i: nat)
    requires OccursAt(LFS + marker, s, i) || OccursAt(CRLF + marker, s, i)
    ensures |Pieces(s, marker, acc)[0]| <= |acc| + i
    decreases |s|
  {
    assert s[0..] == s;
    if !(CRLF + marker <= s) && !(LFS + marker <= s) {
      assert i > 0;
      assert s[1..][i - 1..] == s[i..];
      PieceEndsBy(s[1..], marker, acc + [s[0]], i - 1);
    }
  }

  lemma CutPiece(raw: Bytes, nl: Bytes, marker: Bytes, t: Bytes)
    requires LineEnding(nl) && raw != []
    requires Contains(raw, LFS + marker) || (nl == LFS && raw[|raw| - 1] == CR)
    ensures var first := Pieces(raw + nl + marker + t, marker, [])[0];
      |first| < |raw| && first <= raw
  {
    hide Pieces;
    var s := raw + nl + marker + t;
    PieceExtends(s, marker, []);
    assert [] + s == s == raw + (nl + marker + t);
    CutWhere(raw, nl, marker, t);
    var i: nat :| i < |raw| && (OccursAt(LFS + marker, s, i) || OccursAt(CRLF + marker, s, i));
    PieceEndsBy(s, marker, [], i);
    PrefixOfConcat(Pieces(s, marker, [])[0], raw, nl + marker + t);
  }

  lemma CutWhere(raw: Bytes, nl: Bytes, marker: Bytes, t: Bytes)
    requires LineEnding(nl) && raw != []
    requires Contains(raw, LFS + marker) || (nl == LFS && raw[|raw| - 1] == CR)
    ensures var s := raw + nl + marker + t;
      exists i: nat :: i < |raw| && (OccursAt(LFS + marker, s, i) || OccursAt(CRLF + marker, s, i))
  {
    var s := raw + nl + marker + t;
    if Contains(raw, LFS + marker) {
      var i: nat :| OccursAt(LFS + marker, raw, i);
      assert s[i..] == raw[i..] + (nl + marker + t);
      assert OccursAt(LFS + marker, s, i);
    } else {
      var i := |raw| - 1;
      assert s[i..] == CRLF + marker + t;
      assert OccursAt(CRLF + marker, s, i);
    }
  }

  // ------------------------------------------------------------------
  // Reading one piece
  // ------------------------------------------------------------------

  /** No blank line inside the block, and no line break at its ends. */
  predicate Tight(block: Bytes) {
    && block != [] && block[0] !in NEWLINES && block[|block| - 1] !in NEWLINES
    && forall j :: 0 <= j < |block| - 1 && block[j] == LF ==> block[j + 1] !in NEWLINES
  }

  lemma {:induction false} BlockTight(fields: seq<Field>, nl: Bytes, marker: Bytes)
    requires fields != [] && LineEnding(nl)
    requires forall f :: f in fields ==> WellFormedField(f, marker)
    ensures Tight(HeaderBlock(fields, nl))
  {
    var line := FieldLine(fields[0]);
    assert fields[0] in fields;
    FieldLineFacts(fields[0], marker);
    hide FieldLine, WellFormedField;
    assert forall i :: 0 <= i < |line| ==> line[i] in line;
    if |fields| > 1 {
      BlockTight(fields[1..], nl, marker);
      var block := HeaderBlock(fields[1..], nl);
      var whole := line + nl + block;
      forall j | 0 <= j < |whole| - 1 && whole[j] == LF ensures whole[j + 1] !in NEWLINES {
        if j >= |line| + |nl| {
          assert whole[j] == block[j - |line| - |nl|];
        }
      }
    }
  }

  /** Header separators in a printed part, or in a prefix of one, end no earlier than its blank line does. */
  lemma SeparatorsLate(block: Bytes, nl: Bytes, body: Bytes, r: Bytes, i: nat)
    requires Tight(block) && LineEnding(nl) && r <= block + nl + nl + body
    ensures OccursAt(HEADER_END, r, i) ==> i >= |block| && (nl == LFS ==> i >= |block| + 2)
    ensures OccursAt(HEADER_END_LF, r, i) ==> i >= |block| && i + 2 >= |block| + 2 * |nl|
  {
    var t := block + nl + nl + body;
    if OccursAt(HEADER_END, r, i) {
      var u := r[i..];
      assert r[i] == u[0] == CR && r[i + 1] == u[1] == LF && r[i + 2] == u[2] == CR;
      assert t[i] == CR && t[i + 1] == LF && t[i + 2] == CR;
    }
    if OccursAt(HEADER_END_LF, r, i) {
      var u := r[i..];
      assert r[i] == u[0] == LF && r[i + 1] == u[1] == LF;
      assert t[i] == LF && t[i + 1] == LF;
    }
  }

  lemma DropPiece(block: Bytes, nl: Bytes, body: Bytes, first: Bytes)
    requires Tight(block) && LineEnding(nl) && first <= nl + block + nl + nl + body
    ensures DropLineEnd(first) <= block + nl + nl + body
    ensures |DropLineEnd(first)| == if |first| < |nl| then 0 else |first| - |nl|
  {
    TightHead(block);
    LineEndingIs(nl);
    hide *;
    var t := block + nl + nl + body;
    assert nl + block + nl + nl + body == nl + t && t[0] == block[0];
    if |first| < |nl| {
      assert first == [] || first == [CR];
      DropShort(first);
    } else {
      var u := first[|nl|..];
      assert first == nl + u by {
        assert forall i :: 0 <= i < |nl| ==> first[i] == (nl + t)[i];
      }
      PrefixOfConcat(first, nl, t);
      assert u <= t;
      assert u != [] ==> u[0] == block[0];
      DropNewline(nl, u);
    }
  }

  lemma TightHead(block: Bytes)
    requires Tight(block)
    ensures block != [] && block[0] !in NEWLINES
  {
  }

  lemma DropShort(first: Bytes)
    requires first == [] || first == [CR]
    ensures DropLineEnd(first) == []
  {
  }

  lemma DropNewline(nl: Bytes, u: Bytes)
    requires LineEnding(nl) && (u != [] ==> u[0] !in NEWLINES)
    ensures DropLineEnd(nl + u) == u
  {
    if nl == LFS {
      assert (nl + u)[0] == LF && (nl + u)[1..] == u;
    } else {
      assert (nl + u)[..2] == CRLF && (nl + u)[2..] == u;
    }
  }

  lemma ReplaceBlock(fields: seq<Field>, nl: Bytes, marker: Bytes)
    requires fields != [] && LineEnding(nl)
    requires forall f :: f in fields ==> WellFormedField(f, marker)
    ensures HeaderLines(HeaderBlock(fields, nl)) == seq(|fields|, i requires 0 <= i < |fields| => FieldLine(fields[i]))
  {
    var line := FieldLine(fields[0]);
    assert fields[0] in fields;
    FieldLineFacts(fields[0], marker);
    hide FieldLine, WellFormedField;
    if |fields| == 1 {
      ReplaceCrlfNone(line);
      SplitOnNone(line, LF);
    } else {
      var block := HeaderBlock(fields[1..], nl);
      ReplaceBlock(fields[1..], nl, marker);
      ReplaceCrlfLine(line, nl, block);
      SplitOnCons(line, LF, ReplaceCrlf(block));
    }
  }

  lemma {:induction false} HeadersOfLines(fields: seq<Field>, marker: Bytes)
    requires forall f :: f in fields ==> WellFormedField(f, marker)
    ensures HeadersOf(seq(|fields|, i requires 0 <= i < |fields| => FieldLine(fields[i]))) == HeadersMap(fields)
  {
    if fields != [] {
      var n := |fields| - 1;
      var lines := seq(|fields|, i requires 0 <= i < |fields| => FieldLine(fields[i]));
      assert lines[..n] == seq(n, i requires 0 <= i < n => FieldLine(fields[..n][i]));
      HeadersOfLines(fields[..n], marker);
      AddFieldLine(HeadersMap(fields[..n]), fields[n], marker);
    }
  }

  lemma AddFieldLine(headers: map<Bytes, Bytes>, f: Field, marker: Bytes)
    requires WellFormedField(f, marker)
    ensures AddHeader(headers, FieldLine(f)) == headers[f.name := f.value]
  {
    var line := FieldLine(f);
    FieldLineFacts(f, marker);
    hide RStrip, LStrip, Lower, Partition;
    assert line == f.name + [':'] + ([' '] + f.value);
    PartitionAt(f.name, ':', [' '] + f.value);
    StripSpace(f.value);
    StripTrimmed(f.name);
    LowerFixed(f.name);
    StripNonEmpty(line);
  }

  lemma StripSpace(value: Bytes)
    requires Trimmed(value)
    ensures Strip([' '] + value) == value
  {
    LStripPad([' '], value, SPACES);
    StripTrimmed(value);
  }

  lemma StripNonEmpty(s: Bytes)
    requires s != [] && s[0] !in SPACES
    ensures Strip(s) != []
  {
    assert s == [s[0]] + s[1..];
    RStripAfter([s[0]], s[1..], SPACES);
  }

  lemma HeadersNonEmpty(fields: seq<Field>)
    requires fields != []
    ensures HeadersMap(fields) != map[]
  {
    assert fields[|fields| - 1].name in HeadersMap(fields);
  }

  lemma NoHeaderText()
    ensures HeadersOf(HeaderLines([])) == map[]
  {
    var lines: seq<Bytes> := [[]];
    assert HeaderLines([]) == lines;
    assert lines[..0] == [];
  }

  /** The whole piece of an entity with headers is read back unchanged, unless the separator is found late. */
  lemma WholePart(e: Entity, marker: Bytes, nl: Bytes)
    requires LineEnding(nl) && WellFormed(e, marker) && e.fields != []
    ensures ParsePart(PieceOf(e, nl)) == Expected(e) <==> (nl == LFS ==> !Contains(e.body, HEADER_END))
  {
    hide HeadersOf, HeaderLines, HeaderBlock, Strip, AddHeader, HeadersMap;
    var block := HeaderBlock(e.fields, nl);
    BlockTight(e.fields, nl, marker);
    ReplaceBlock(e.fields, nl, marker);
    HeadersOfLines(e.fields, marker);
    var r := block + nl + nl + e.body;
    DropPiece(block, nl, e.body, PieceOf(e, nl));
    assert DropLineEnd(PieceOf(e, nl)) == r;
    WholeHeader(block, nl, e.body);
  }

  lemma WholeHeader(block: Bytes, nl: Bytes, body: Bytes)
    requires Tight(block) && LineEnding(nl)
    ensures var r := block + nl + nl + body;
      var (text, start) := HeaderSplit(r);
      if nl == LFS && Contains(body, HEADER_END) then |r[start..]| < |body|
      else text == block && r[start..] == body
  {
    var r := block + nl + nl + body;
    var k := |block|;
    assert r[k..] == nl + nl + body;
    assert r[k + 2 * |nl|..] == body && r[..k] == block;
    forall i: nat ensures OccursAt(HEADER_END, r, i) ==> i >= k && (nl == LFS ==> i >= k + 2)
      ensures OccursAt(HEADER_END_LF, r, i) ==> i >= k && i + 2 >= k + 2 * |nl|
    {
      SeparatorsLate(block, nl, body, r, i);
    }
    if nl == CRLF {
      assert HEADER_END == r[k..][..4];
      assert OccursAt(HEADER_END, r, k);
    } else {
      assert HEADER_END_LF == r[k..][..2];
      assert OccursAt(HEADER_END_LF, r, k);
      forall i: nat | i >= k + 2 ensures OccursAt(HEADER_END, r, i) <==> OccursAt(HEADER_END, body, i - (k + 2)) {
        if i <= |r| {
          assert r[i..] == body[i - (k + 2)..];
        }
      }
      if Contains(body, HEADER_END) {
        var j: nat :| OccursAt(HEADER_END, body, j);
        assert OccursAt(HEADER_END, r, j + k + 2);
      }
    }
  }

  /** A piece cut short never reads back as the entity. */
  lemma CutPartDiffers(e: Entity, marker: Bytes, nl: Bytes, first: Bytes)
    requires LineEnding(nl) && WellFormed(e, marker) && e.fields != []
    requires first <= PieceOf(e, nl) && |first| < |PieceOf(e, nl)|
    ensures ParsePart(first) != Expected(e)
  {
    hide HeadersOf, HeaderLines, HeaderBlock, HeadersMap, DropLineEnd;
    var block := HeaderBlock(e.fields, nl);
    BlockTight(e.fields, nl, marker);
    DropPiece(block, nl, e.body, first);
    var r := DropLineEnd(first);
    HeadersNonEmpty(e.fields);
    NoHeaderText();
    forall i: nat ensures OccursAt(HEADER_END, r, i) ==> i >= |block| && (nl == LFS ==> i >= |block| + 2)
      ensures OccursAt(HEADER_END_LF, r, i) ==> i >= |block| && i + 2 >= |block| + 2 * |nl|
    {
      SeparatorsLate(block, nl, e.body, r, i);
    }
  }

  /** An entity without headers never comes back: the blank line stays on the body. */
  lemma HeaderlessDiffers(e: Entity, marker: Bytes, first: Bytes)
    requires e.fields == [] && |marker| >= 2 && marker[0] == '-'
    requires first <= PieceOf(e, CRLF) && (|first| < |PieceOf(e, CRLF)| ==> !Clean(e.body, marker))
    ensures ParsePart(first) != Expected(e)
  {
    var t := CRLF + e.body;
    assert PieceOf(e, CRLF) == CRLF + t;
    HeaderlessDrop(t, first);
    hide *;
    var r := DropLineEnd(first);
    assert |first| == |CRLF + t| ==> |r| == |t|;
    HeaderlessBody(e.body, r, marker, |first| == |CRLF + t|);
    PartBody(first);
    assert Expected(e).body == e.body by { ExpectedBody(e); }
  }

  lemma EmptyIsClean(marker: Bytes)
    requires marker != []
    ensures Clean([], marker)
  {
  }

  /** Printed with bare LF it loses the newlines its body starts with, and all up to the first blank line. */
  lemma HeaderlessWhole(e: Entity)
    requires e.fields == []
    ensures ParsePart(PieceOf(e, LFS)) == Expected(e) <==>
      (e.body == [] || e.body[0] !in NEWLINES) && !Contains(e.body, HEADER_END) && !Contains(e.body, HEADER_END_LF)
  {
    var raw, r := PieceOf(e, LFS), LStrip(e.body, NEWLINES);
    LfDropped(e, raw);
    PartBody(raw);
    HeaderlessRead(raw);
    NoHeaderText();
    ExpectedHeaderless(e);
    SplitShortens(r);
    StripShortens(e.body);
    hide *;
  }

  lemma LfDropped(e: Entity, first: Bytes)
    requires e.fields == [] && first <= PieceOf(e, LFS)
    ensures first == PieceOf(e, LFS) ==> DropLineEnd(first) == LStrip(e.body, NEWLINES)
    ensures |first| < |PieceOf(e, LFS)| ==> |DropLineEnd(first)| < |e.body| || DropLineEnd(first) == []
  {
    HeaderlessPiece(e);
    hide *;
    if |first| >= 2 {
      var rest := first[2..];
      assert first == [LF, LF] + rest by {
        assert first[0] == ([LF, LF] + e.body)[0] && first[1] == ([LF, LF] + e.body)[1];
      }
      LfsDropped(rest);
      assert first == [LF, LF] + e.body ==> rest == e.body;
    } else {
      assert first == [] || first == [([LF, LF] + e.body)[0]] == [LF];
      ShortDropped(first);
    }
  }

  lemma HeaderlessPiece(e: Entity)
    requires e.fields == []
    ensures PieceOf(e, LFS) == [LF, LF] + e.body
  {
  }

  lemma LfsDropped(rest: Bytes)
    ensures DropLineEnd([LF, LF] + rest) == LStrip(rest, NEWLINES)
    ensures |DropLineEnd([LF, LF] + rest)| <= |rest|
  {
    hide *;
    assert [LF, LF] + rest == [LF] + ([LF] + rest);
    LfDroppedFirst([LF] + rest);
    StripLf([LF] + rest);
    StripLf(rest);
  }

  lemma StripLf(s: Bytes)
    ensures LStrip([LF] + s, NEWLINES) == LStrip(s, NEWLINES) && |LStrip(s, NEWLINES)| <= |s|
  {
    assert ([LF] + s)[0] == LF && ([LF] + s)[1..] == s;
  }

  lemma LfDroppedFirst(s: Bytes)
    ensures DropLineEnd([LF] + s) == LStrip([LF] + s, NEWLINES)
  {
    hide LStrip;
    assert ([LF] + s)[0] == LF && CRLF[0] == CR;
  }

  lemma ShortDropped(first: Bytes)
    requires first == [] || first == [LF]
    ensures DropLineEnd(first) == []
  {
  }

  lemma HeaderlessRead(first: Bytes)
    ensures var (text, start) := HeaderSplit(DropLineEnd(first));
      ParsePart(first) == Part(HeadersOf(HeaderLines(text)), DropLineEnd(first)[start..])
  {
    hide DropLineEnd, HeaderSplit, HeadersOf, HeaderLines;
  }

  lemma ExpectedHeaderless(e: Entity)
    requires e.fields == []
    ensures Expected(e) == Part(map[], e.body)
  {
  }

  /** A separator anywhere makes the body shorter; without one everything is body. */
  lemma SplitShortens(r: Bytes)
    ensures if Contains(r, HEADER_END) || Contains(r, HEADER_END_LF) then |r[HeaderSplit(r).1..]| < |r|
            else HeaderSplit(r) == ([], 0) && r[HeaderSplit(r).1..] == r
  {
  }

  lemma StripShortens(s: Bytes)
    ensures if s == [] || s[0] !in NEWLINES then LStrip(s, NEWLINES) == s else |LStrip(s, NEWLINES)| < |s|
  {
  }

  lemma HeaderlessCut(e: Entity, first: Bytes)
    requires e.fields == [] && e.body != [] && first <= PieceOf(e, LFS) && |first| < |PieceOf(e, LFS)|
    ensures ParsePart(first) != Expected(e)
  {
    LfDropped(e, first);
    PartBody(first);
    ExpectedHeaderless(e);
    hide *;
  }

  lemma PartBody(first: Bytes)
    ensures ParsePart(first).body == DropLineEnd(first)[HeaderSplit(DropLineEnd(first)).1..]
  {
  }

  lemma ExpectedBody(e: Entity)
    ensures Expected(e).body == e.body
  {
  }

  lemma HeaderlessBody(body: Bytes, r: Bytes, marker: Bytes, whole: bool)
    requires |marker| >= 2 && marker[0] == '-'
    requires r <= CRLF + body
    requires if whole then r == CRLF + body else !Clean(body, marker)
    ensures r[HeaderSplit(r).1..] != body
  {
    var t := CRLF + body;
    assert |r| >= 2 ==> r[0] == t[0] == CR && r[1] == t[1] == LF;
    if Find(r, HEADER_END) == None && Find(r, HEADER_END_LF) == None && !whole {
      if |body| < 4 {
        if |body| >= 2 && body[..2] != CRLF {
          assert r[0..] == r;
          assert |r| >= 2 ==> r[..2] == CRLF;
        } else {
          ShortIsClean(body, marker);
        }
      } else {
        assert !OccursAt(HEADER_END, r, 0) && r[0..] == r;
        assert |r| >= 4 ==> r[2] == t[2] == body[0] && r[3] == t[3] == body[1];
        assert |r| >= 4 ==> HEADER_END != r[..4];
      }
    } else {
      SeparatorNotFirst(r);
    }
  }

  lemma SeparatorNotFirst(r: Bytes)
    ensures r != [] && r[0] == CR ==> !OccursAt(HEADER_END_LF, r, 0)
  {
    assert r[0..] == r;
  }

  lemma HeaderlessDrop(t: Bytes, first: Bytes)
    requires first <= CRLF + t
    ensures DropLineEnd(first) <= t
    ensures |DropLineEnd(first)| == if |first| < 2 then 0 else |first| - 2
  {
    if |first| >= 2 {
      PrefixOfConcat(first, CRLF, t);
    } else {
      assert first == [] || first == [CR];
    }
  }

  lemma ShortIsClean(body: Bytes, marker: Bytes)
    requires |body| < 4 && |marker| >= 2 && marker[0] == '-'
    requires |body| >= 2 ==> body[..2] == CRLF
    ensures Clean(body, marker)
  {
    assert body[0..] == body;
    PrefixCut(LFS, marker, body);
    assert forall i: nat :: OccursAt(LFS + marker, body, i) ==> i == 0;
  }

  // ------------------------------------------------------------------
  // Two parts, as every envelope here has
  // ------------------------------------------------------------------

  lemma CleanPrefix(p: Bytes, s: Bytes, marker: Bytes)
    requires p <= s && Clean(s, marker)
    ensures Clean(p, marker)
  {
    if |marker| <= |p| {
      assert p[..|marker|] == s[..|marker|];
    }
    var n := |LFS + marker|;
    forall i: nat ensures OccursAt(LFS + marker, p, i) ==> OccursAt(LFS + marker, s, i) {
      if i + n <= |p| {
        assert p[i..][..n] == s[i..][..n];
      }
    }
  }

  /** A body with a line that starts with the marker never comes back, whatever happens to the headers. */
  lemma UncleanBodyDiffers(e: Entity, marker: Bytes, first: Bytes)
    requires NewlineFree(marker) && |marker| >= 2 && marker[0] == '-'
    requires WellFormed(e, marker) && e.fields != [] && !Clean(e.body, marker)
    requires first <= PieceOf(e, CRLF) && |first| < |PieceOf(e, CRLF)|
    ensures ParsePart(first).body != e.body
  {
    var block := HeaderBlock(e.fields, CRLF);
    BlockTight(e.fields, CRLF, marker);
    DropPiece(block, CRLF, e.body, first);
    ShortIsClean([], marker);
    BlockClean(e.fields, CRLF, CRLF, marker);
    LineClean([], CRLF, [], marker);
    assert [] + CRLF + [] == CRLF;
    PartBody(first);
    hide *;
    var r := DropLineEnd(first);
    if |r| <= |block + CRLF + CRLF| {
      assert block + CRLF + CRLF + e.body == (block + CRLF + CRLF) + e.body;
      PrefixOfConcat(r, block + CRLF + CRLF, e.body);
      CleanPrefix(r, block + CRLF + CRLF, marker);
    }
    CutBody(block, e.body, r);
  }

  /** The body read from a proper prefix of a printed part: shorter than the body, or all of a short prefix. */
  lemma CutBody(block: Bytes, body: Bytes, r: Bytes)
    requires Tight(block) && r <= block + CRLF + CRLF + body && |r| < |block + CRLF + CRLF + body|
    ensures var got := r[HeaderSplit(r).1..];
      |got| < |body| || (got == r && |r| <= |block + CRLF + CRLF|)
  {
    var k := |block|;
    forall i: nat ensures OccursAt(HEADER_END, r, i) ==> i >= k
      ensures OccursAt(HEADER_END_LF, r, i) ==> i + 2 >= k + 4
    {
      SeparatorsLate(block, CRLF, body, r, i);
    }
    if |r| > k + 4 {
      var t := block + CRLF + CRLF + body;
      assert r[k..][..4] == t[k..][..4] == HEADER_END;
      assert OccursAt(HEADER_END, r, k);
    }
  }

  /**
   A body of two entities is read back exactly when both are clean; when they are
   not, one of the two bodies is missing or different.
   */
  lemma TwoParts(e1: Entity, e2: Entity, boundary: Bytes)
    requires NewlineFree(boundary)
    requires WellFormed(e1, Marker(boundary)) && e1.fields != []
    requires WellFormed(e2, Marker(boundary)) && e2.fields != []
    ensures var r := SplitParts(Document([e1, e2], boundary, CRLF, CRLF), boundary);
      && (r.Ok? ==> r.value != [])
      && var m := Marker(boundary);
      && (Clean(e1.body, m) && Clean(e2.body, m) ==> r == Ok([Expected(e1), Expected(e2)]))
      && (!Clean(e1.body, m) ==> r.Err? || r.value[0].body != e1.body)
      && (Clean(e1.body, m) && !Clean(e2.body, m) ==> r.Err? || |r.value| != 2 || r.value[1].body != e2.body)
  {
    hide *;
    var marker := Marker(boundary);
    MarkerNewlineFree(boundary);
    CrlfEnding();
    var es := [e1, e2];
    RoundTrip(es, boundary, CRLF, CRLF);
    ExpectedPair(e1, e2);
    FaithfulCrlf(e1, marker);
    FaithfulCrlf(e2, marker);
    var t2 := Tail([e2], marker, CRLF, CRLF);
    TailUnfold(es, marker, CRLF, CRLF);
    TailUnfold([e2], marker, CRLF, CRLF);
    assert es[1..] == [e2] && [e2][1..] == [] && es[0] == e1 && es[1] == e2;
    DocumentUnfold(es, boundary, CRLF, CRLF);
    var t := Tail(es, marker, CRLF, CRLF);
    SplitAfterMarker(marker, t, boundary);
    var pieces := Pieces(t, marker, []);
    PartsUnfold(pieces);
    if !Clean(e1.body, marker) {
      UncleanPiece(e1, marker, t2);
    } else if !Clean(e2.body, marker) {
      FirstPart(e1, marker, CRLF, t2);
      UncleanPiece(e2, marker, Tail([], marker, CRLF, CRLF));
      PartsUnfold(pieces[1..]);
    }
  }

  lemma ExpectedPair(e1: Entity, e2: Entity)
    ensures ExpectedAll([e1, e2]) == [Expected(e1), Expected(e2)]
  {
    assert [e1, e2][1..] == [e2] && [e2][1..] == [];
    assert ExpectedAll([e2]) == [Expected(e2)] + ExpectedAll([]);
  }

  lemma FaithfulCrlf(e: Entity, marker: Bytes)
    requires e.fields != []
    ensures Faithful(e, marker, CRLF) <==> Clean(e.body, marker)
  {
  }

  lemma UncleanPiece(e: Entity, marker: Bytes, t: Bytes)
    requires NewlineFree(marker) && |marker| >= 2 && marker[0] == '-'
    requires WellFormed(e, marker) && e.fields != [] && !Clean(e.body, marker)
    ensures ParsePart(Pieces(PieceOf(e, CRLF) + CRLF + marker + t, marker, [])[0]).body != e.body
  {
    PieceClean(e, marker, CRLF);
    PieceShape(e, CRLF);
    hide *;
    assert LineEnding(CRLF) by { CrlfEnding(); }
    CutPiece(PieceOf(e, CRLF), CRLF, marker, t);
    UncleanBodyDiffers(e, marker, Pieces(PieceOf(e, CRLF) + CRLF + marker + t, marker, [])[0]);
  }

  lemma CrlfEnding()
    ensures LineEnding(CRLF) && CRLF != LFS
  {
  }
}
