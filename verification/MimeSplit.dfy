/**
 The byte-level multipart splitter (app/envelope/mime_split.py).

 The regular expression `(?:^|\r\n|\n)--boundary` is modelled as the scan the
 matcher performs: from each position, the alternatives in order, leftmost match
 first, and the search resumed at the end of a match.
 */
module MimeSplit {
  import opened Wrappers
  import opened Bytes

  /** One match of the boundary pattern: `data[start..end]`. */
  datatype Delimiter = Delimiter(start: nat, end: nat)

  datatype Part = Part(headers: map<Bytes, Bytes>, body: Bytes)

  datatype SplitError = BoundaryNotFound | NoParts

  const DASHES: Bytes := ['-', '-']
  const HEADER_END: Bytes := [CR, LF, CR, LF]
  const HEADER_END_LF: Bytes := [LF, LF]

  function Marker(boundary: Bytes): (m: Bytes)
    ensures |m| == 2 + |boundary| && m[0] == '-' && m[1] == '-'
  {
    DASHES + boundary
  }

  // ------------------------------------------------------------------
  // Finding the delimiters
  // ------------------------------------------------------------------

  /** The length of the pattern's match at `p`, or 0 when it does not match there. */
  function MatchLength(data: Bytes, marker: Bytes, p: nat): (n: nat)
    requires p <= |data|
    ensures p + n <= |data|
  {
    var s := data[p..];
    if p == 0 && marker <= s then |marker|
    else if CRLF + marker <= s then 2 + |marker|
    else if LFS + marker <= s then 1 + |marker|
    else 0
  }

  /** The matches found by a search that starts at `p`. */
  function Delimiters(data: Bytes, marker: Bytes, p: nat): seq<Delimiter>
    requires p <= |data|
    decreases |data| - p
  {
    var n := MatchLength(data, marker, p);
    if n > 0 then [Delimiter(p, p + n)] + Delimiters(data, marker, p + n)
    else if p == |data| then []
    else Delimiters(data, marker, p + 1)
  }

  method FindDelimiters(data: Bytes, marker: Bytes) returns (ds: seq<Delimiter>)
    ensures ds == Delimiters(data, marker, 0)
  {
    ds := [];
    var p := 0;
    while p < |data|
      invariant 0 <= p <= |data|
      invariant Delimiters(data, marker, 0) == ds + Delimiters(data, marker, p)
    {
      var n := MatchLength(data, marker, p);
      if n > 0 {
        ds := ds + [Delimiter(p, p + n)];
        p := p + n;
      } else {
        p := p + 1;
      }
    }
  }

  /** The marker stands at `m`, and `m` begins a line. */
  ghost predicate LineStartMarker(data: Bytes, marker: Bytes, m: nat) {
    OccursAt(marker, data, m) && (m == 0 || data[m - 1] == LF)
  }

  /** Where the delimiter of a line-start marker begins: its line break belongs to it, CRLF before LF. */
  ghost function LineBreakStart(data: Bytes, m: nat): nat
    requires m <= |data|
  {
    if m == 0 then 0
    else if m >= 2 && data[m - 2] == CR then m - 2
    else m - 1
  }

  ghost predicate Ascending(ds: seq<Delimiter>, lo: nat, hi: nat) {
    && (forall k :: 0 <= k < |ds| ==> lo <= ds[k].start < ds[k].end <= hi)
    && (forall j, k :: 0 <= j < k < |ds| ==> ds[j].end <= ds[k].start)
  }

  lemma {:induction false} DelimitersAscend(data: Bytes, marker: Bytes, p: nat)
    requires p <= |data|
    ensures Ascending(Delimiters(data, marker, p), p, |data|)
    decreases |data| - p
  {
    var n := MatchLength(data, marker, p);
    if n > 0 {
      DelimitersAscend(data, marker, p + n);
    } else if p < |data| {
      DelimitersAscend(data, marker, p + 1);
    }
  }

  /** The delimiter that the line-start marker at `m` should produce. */
  ghost function DelimiterOf(data: Bytes, marker: Bytes, m: nat): Delimiter
    requires m <= |data|
  {
    Delimiter(LineBreakStart(data, m), m + |marker|)
  }

  /** No delimiter is cut by starting the search at `p`. */
  ghost predicate CleanCut(data: Bytes, marker: Bytes, p: nat)
    requires p <= |data|
  {
    p > 0 && p < |data| && data[p - 1] == CR ==> !(LFS + marker <= data[p..])
  }

  /**
   The scan finds exactly the line-start markers: every one of them, nothing else,
   each with its whole line break.
   */
  lemma DelimitersExact(data: Bytes, marker: Bytes)
    requires marker != [] && NewlineFree(marker)
    ensures var ds := Delimiters(data, marker, 0);
      && Ascending(ds, 0, |data|)
      && (forall m: nat :: LineStartMarker(data, marker, m) ==> DelimiterOf(data, marker, m) in ds)
      && (forall d :: d in ds ==>
            |marker| <= d.end <= |data| &&
            var m: nat := d.end - |marker|; LineStartMarker(data, marker, m) && d == DelimiterOf(data, marker, m))
  {
    DelimitersAscend(data, marker, 0);
    forall m: nat | LineStartMarker(data, marker, m)
      ensures DelimiterOf(data, marker, m) in Delimiters(data, marker, 0)
    {
      DelimitersComplete(data, marker, 0, m);
    }
    DelimitersSound(data, marker, 0);
  }

  /** What a match at `p` says, position by position. */
  lemma MatchMeans(data: Bytes, marker: Bytes, p: nat)
    requires p <= |data| && marker != [] && NewlineFree(marker) && CleanCut(data, marker, p)
    ensures var n := MatchLength(data, marker, p);
      n > 0 ==>
        && n >= |marker|
        && LineStartMarker(data, marker, p + n - |marker|)
        && DelimiterOf(data, marker, p + n - |marker|) == Delimiter(p, p + n)
  {
    var n := MatchLength(data, marker, p);
    var s := data[p..];
    if n > 0 {
      var m := p + n - |marker|;
      if m == p {
        assert data[m..] == s;
      } else if m == p + 2 {
        PrefixCut(CRLF, marker, s);
        assert s[2..] == data[m..];
        assert data[p] == CR && data[p + 1] == LF;
      } else {
        PrefixCut(LFS, marker, s);
        assert s[1..] == data[m..];
        assert data[p] == LF;
      }
    }
  }

  lemma PrefixCut(a: Bytes, b: Bytes, s: Bytes)
    ensures a + b <= s <==> a <= s && b <= s[|a|..]
  {
    if a + b <= s {
      assert a == (a + b)[..|a|] == s[..|a|];
      assert b == (a + b)[|a|..] == s[|a|..|a| + |b|];
    }
    if a <= s && b <= s[|a|..] {
      assert s == a + s[|a|..];
      assert s[|a|..] == b + s[|a|..][|b|..];
      assert s == a + b + s[|a|..][|b|..];
    }
  }

  /** A search that may resume at `p` may resume at the position the scan takes next. */
  lemma CutStaysClean(data: Bytes, marker: Bytes, p: nat)
    requires p < |data| && marker != [] && NewlineFree(marker)
    requires CleanCut(data, marker, p)
    ensures var n := MatchLength(data, marker, p);
      CleanCut(data, marker, if n > 0 then p + n else p + 1)
  {
    var n := MatchLength(data, marker, p);
    if n > 0 {
      MatchMeans(data, marker, p);
      var m := p + n - |marker|;
      assert data[p + n - 1] == data[m..][|marker| - 1] == marker[|marker| - 1];
      assert marker[|marker| - 1] in marker;
    } else if data[p] == CR {
      BreakAfterCr(data, marker, p);
    }
  }

  lemma BreakAfterCr(data: Bytes, marker: Bytes, p: nat)
    requires p < |data| && data[p] == CR
    ensures CRLF + marker <= data[p..] <==> LFS + marker <= data[p + 1..]
  {
    assert data[p + 1..] == data[p..][1..];
    assert CRLF + marker == [CR] + (LFS + marker);
    assert [CR] <= data[p..];
    PrefixCut([CR], LFS + marker, data[p..]);
  }

  lemma DelimitersUnfold(data: Bytes, marker: Bytes, p: nat)
    requires p <= |data|
    ensures var n, ds := MatchLength(data, marker, p), Delimiters(data, marker, p);
      if n > 0 then ds == [Delimiter(p, p + n)] + Delimiters(data, marker, p + n)
      else if p == |data| then ds == [] else ds == Delimiters(data, marker, p + 1)
  {
    hide MatchLength;
  }

  lemma {:induction false} DelimitersSound(data: Bytes, marker: Bytes, p: nat)
    requires p <= |data| && marker != [] && NewlineFree(marker)
    requires CleanCut(data, marker, p)
    ensures forall d :: d in Delimiters(data, marker, p) ==>
      |marker| <= d.end <= |data| &&
      var m: nat := d.end - |marker|; LineStartMarker(data, marker, m) && d == DelimiterOf(data, marker, m)
    decreases |data| - p
  {
    hide *;
    var n := MatchLength(data, marker, p);
    MatchMeans(data, marker, p);
    DelimitersUnfold(data, marker, p);
    if n > 0 {
      CutStaysClean(data, marker, p);
      DelimitersSound(data, marker, p + n);
    } else if p < |data| {
      CutStaysClean(data, marker, p);
      DelimitersSound(data, marker, p + 1);
    }
  }

  lemma {:induction false} DelimitersComplete(data: Bytes, marker: Bytes, p: nat, m: nat)
    requires p <= |data| && marker != [] && NewlineFree(marker)
    requires CleanCut(data, marker, p)
    requires LineStartMarker(data, marker, m) && p <= LineBreakStart(data, m)
    ensures DelimiterOf(data, marker, m) in Delimiters(data, marker, p)
    decreases |data| - p
  {
    hide *;
    MarkerInRange(data, marker, m);
    CutStaysClean(data, marker, p);
    var n := MatchLength(data, marker, p);
    if n > 0 {
      AfterMatch(data, marker, p, m);
      if DelimiterOf(data, marker, m) != Delimiter(p, p + n) {
        DelimitersComplete(data, marker, p + n, m);
      }
    } else {
      MarkerMatches(data, marker, m);
      DelimitersComplete(data, marker, p + 1, m);
    }
    DelimitersStep(data, marker, p, DelimiterOf(data, marker, m));
  }

  lemma DelimitersStep(data: Bytes, marker: Bytes, p: nat, d: Delimiter)
    requires p < |data|
    ensures var n := MatchLength(data, marker, p);
      if n > 0
      then d in Delimiters(data, marker, p) <==> d == Delimiter(p, p + n) || d in Delimiters(data, marker, p + n)
      else d in Delimiters(data, marker, p) <==> d in Delimiters(data, marker, p + 1)
  {
  }

  lemma MarkerInRange(data: Bytes, marker: Bytes, m: nat)
    requires marker != [] && LineStartMarker(data, marker, m)
    ensures LineBreakStart(data, m) <= m < |data|
  {
    PrefixHead(marker, data[m..]);
  }

  /** After a match at `p`, every other line-start marker not before `p` lies beyond the match. */
  lemma AfterMatch(data: Bytes, marker: Bytes, p: nat, m: nat)
    requires p <= |data| && marker != [] && NewlineFree(marker) && CleanCut(data, marker, p)
    requires LineStartMarker(data, marker, m) && p <= LineBreakStart(data, m)
    ensures var n := MatchLength(data, marker, p);
      n > 0 ==> DelimiterOf(data, marker, m) == Delimiter(p, p + n) || p + n <= LineBreakStart(data, m)
  {
    var n := MatchLength(data, marker, p);
    if n > 0 {
      MatchMeans(data, marker, p);
      var k := p + n - |marker|;
      if m != k {
        NextMarkerBeyond(data, marker, k, m);
      }
    }
  }

  /** The scan matches where a line-start marker's delimiter begins. */
  lemma MarkerMatches(data: Bytes, marker: Bytes, m: nat)
    requires marker != [] && LineStartMarker(data, marker, m)
    ensures MatchLength(data, marker, LineBreakStart(data, m)) > 0
  {
    var p := LineBreakStart(data, m);
    var s := data[p..];
    if m > 0 {
      assert s[m - p..] == data[m..];
      if p + 2 == m {
        PrefixCut(CRLF, marker, s);
      } else {
        PrefixCut(LFS, marker, s);
      }
    }
  }

  /** Delimiters of different line-start markers do not overlap. */
  lemma NextMarkerBeyond(data: Bytes, marker: Bytes, k: nat, m: nat)
    requires marker != [] && NewlineFree(marker)
    requires LineStartMarker(data, marker, k) && LineStartMarker(data, marker, m)
    requires LineBreakStart(data, k) <= LineBreakStart(data, m) && k != m
    ensures k + |marker| <= LineBreakStart(data, m)
  {
    forall i | k <= i < k + |marker| ensures data[i] != LF && data[i] != CR {
      assert data[i] == data[k..][i - k] == marker[i - k];
      assert marker[i - k] in marker;
    }
    if m < k {
      assert LineBreakStart(data, m) <= m;
      assert data[k - 1] == LF;
      forall i | m <= i < m + |marker| ensures data[i] != LF && data[i] != CR {
        assert data[i] == data[m..][i - m] == marker[i - m];
        assert marker[i - m] in marker;
      }
    }
  }

  // ------------------------------------------------------------------
  // The pieces between the delimiters
  // ------------------------------------------------------------------

  /** `pattern.split(data)`, from `lo` on: what lies between consecutive delimiters. */
  function Slices(data: Bytes, ds: seq<Delimiter>, lo: nat): seq<Bytes>
    requires lo <= |data| && Ascending(ds, lo, |data|)
    decreases |ds|
  {
    if ds == [] then [data[lo..]]
    else [data[lo..ds[0].start]] + Slices(data, ds[1..], ds[0].end)
  }

  /** Where the piece after delimiter `k` ends. */
  function PieceEnd(data: Bytes, ds: seq<Delimiter>, k: nat): nat
    requires k < |ds|
  {
    if k + 1 < |ds| then ds[k + 1].start else |data|
  }

  lemma {:induction false} SlicesAt(data: Bytes, ds: seq<Delimiter>, lo: nat)
    requires lo <= |data| && Ascending(ds, lo, |data|)
    ensures |Slices(data, ds, lo)| == |ds| + 1
    ensures forall k :: 0 <= k < |ds| ==>
      ds[k].end <= PieceEnd(data, ds, k) <= |data|
      && Slices(data, ds, lo)[k + 1] == data[ds[k].end..PieceEnd(data, ds, k)]
    decreases |ds|
  {
    if ds != [] {
      var rest := ds[1..];
      assert forall k :: 0 <= k < |rest| ==> rest[k] == ds[k + 1];
      SlicesAt(data, rest, ds[0].end);
      forall k | 0 <= k < |ds|
        ensures ds[k].end <= PieceEnd(data, ds, k) <= |data|
        ensures Slices(data, ds, lo)[k + 1] == data[ds[k].end..PieceEnd(data, ds, k)]
      {
        if k == 0 {
          assert Slices(data, ds, lo)[1] == Slices(data, rest, ds[0].end)[0];
        } else {
          assert PieceEnd(data, ds, k) == PieceEnd(data, rest, k - 1);
        }
      }
    }
  }

  function RawParts(data: Bytes, marker: Bytes): (r: seq<Bytes>) {
    DelimitersAscend(data, marker, 0);
    Slices(data, Delimiters(data, marker, 0), 0)
  }

  /**
   The same pieces computed on suffixes, after the position 0 has been dealt with:
   `acc` is the piece being read. The round-trip proofs follow this form.
   */
  function Pieces(s: Bytes, marker: Bytes, acc: Bytes): (r: seq<Bytes>)
    ensures |r| >= 1
    decreases |s|
  {
    if CRLF + marker <= s then [acc] + Pieces(s[2 + |marker|..], marker, [])
    else if LFS + marker <= s then [acc] + Pieces(s[1 + |marker|..], marker, [])
    else if s == [] then [acc]
    else Pieces(s[1..], marker, acc + [s[0]])
  }

  lemma PiecesElsewhere(s: Bytes, marker: Bytes, acc: Bytes)
    requires s != [] && !(CRLF + marker <= s) && !(LFS + marker <= s)
    ensures Pieces(s, marker, acc) == Pieces(s[1..], marker, acc + [s[0]])
  {
  }

  lemma PiecesFollowMatch(data: Bytes, marker: Bytes, p: nat, acc: Bytes)
    requires p <= |data| && (p > 0 || !(marker <= data))
    ensures var n := MatchLength(data, marker, p);
      && (n > 0 ==> Pieces(data[p..], marker, acc) == [acc] + Pieces(data[p + n..], marker, []))
      && (n == 0 && p < |data| ==> Pieces(data[p..], marker, acc) == Pieces(data[p + 1..], marker, acc + [data[p]]))
      && (p == |data| && n == 0 ==> Pieces(data[p..], marker, acc) == [acc])
  {
    assert data[0..] == data;
    var n, s := MatchLength(data, marker, p), data[p..];
    if n > 0 {
      assert s[n..] == data[p + n..];
    } else if p < |data| {
      assert s[1..] == data[p + 1..] && s[0] == data[p];
      NoMatchNoPrefix(data, marker, p);
      PiecesElsewhere(s, marker, acc);
    } else {
      assert s == [];
    }
  }

  lemma NoMatchNoPrefix(data: Bytes, marker: Bytes, p: nat)
    requires p <= |data| && MatchLength(data, marker, p) == 0 && (p > 0 || !(marker <= data))
    ensures !(CRLF + marker <= data[p..]) && !(LFS + marker <= data[p..])
  {
    assert data[0..] == data;
  }

  lemma {:induction false} SlicesArePieces(data: Bytes, marker: Bytes, lo: nat, p: nat)
    requires marker != [] && lo <= p <= |data|
    requires p > 0 || !(marker <= data)
    ensures Ascending(Delimiters(data, marker, p), lo, |data|)
    ensures Slices(data, Delimiters(data, marker, p), lo) == Pieces(data[p..], marker, data[lo..p])
    decreases |data| - p
  {
    hide *;
    DelimitersAscend(data, marker, p);
    AscendingFrom(Delimiters(data, marker, p), p, lo, |data|);
    DelimitersUnfold(data, marker, p);
    PiecesFollowMatch(data, marker, p, data[lo..p]);
    var n := MatchLength(data, marker, p);
    if n > 0 {
      SlicesFirst(data, Delimiters(data, marker, p), lo, Delimiter(p, p + n), Delimiters(data, marker, p + n));
      SlicesArePieces(data, marker, p + n, p + n);
      assert data[p + n..p + n] == [];
    } else if p < |data| {
      SlicesArePieces(data, marker, lo, p + 1);
      assert data[lo..p] + [data[p]] == data[lo..p + 1];
    } else {
      assert data[lo..] == data[lo..p];
    }
  }

  lemma SlicesFirst(data: Bytes, ds: seq<Delimiter>, lo: nat, d: Delimiter, rest: seq<Delimiter>)
    requires lo <= |data| && Ascending(ds, lo, |data|) && ds == [d] + rest
    ensures lo <= d.start <= d.end <= |data| && Ascending(rest, d.end, |data|)
    ensures Slices(data, ds, lo) == [data[lo..d.start]] + Slices(data, rest, d.end)
  {
    assert ds[0] == d && ds[1..] == rest;
  }

  lemma AscendingFrom(ds: seq<Delimiter>, p: nat, lo: nat, hi: nat)
    requires Ascending(ds, p, hi) && lo <= p
    ensures Ascending(ds, lo, hi)
    ensures forall data: Bytes :: |data| == hi && ds == [] && lo <= hi ==> Slices(data, ds, lo) == [data[lo..]]
  {
  }

  /** A body that opens with the marker: an empty preamble, then the pieces of what follows. */
  lemma RawPartsAfterMarker(marker: Bytes, s: Bytes)
    requires marker != []
    ensures RawParts(marker + s, marker) == [[]] + Pieces(s, marker, [])
  {
    var data := marker + s;
    DelimitersAscend(data, marker, 0);
    assert data[0..] == data;
    SlicesArePieces(data, marker, |marker|, |marker|);
    assert data[|marker|..] == s;
    assert data[|marker|..|marker|] == [];
    assert Delimiters(data, marker, 0)[1..] == Delimiters(data, marker, |marker|);
    assert data[0..0] == [];
  }

  // ------------------------------------------------------------------
  // Parts
  // ------------------------------------------------------------------

  function AddHeader(headers: map<Bytes, Bytes>, line: Bytes): map<Bytes, Bytes> {
    if Strip(line) == [] || ':' !in line then headers
    else
      var (key, value) := Partition(line, ':');
      headers[Lower(Strip(key)) := Strip(value)]
  }

  function HeadersOf(lines: seq<Bytes>): map<Bytes, Bytes> {
    if lines == [] then map[]
    else AddHeader(HeadersOf(lines[..|lines| - 1]), lines[|lines| - 1])
  }

  function HeaderLines(text: Bytes): seq<Bytes> {
    SplitOn(ReplaceCrlf(text), LF)
  }

  /**
   The line names the header `key`: it is not blank, and `key` is what is before its first
   colon, stripped and lower-cased.
   */
  predicate NamesHeader(line: Bytes, key: Bytes) {
    Strip(line) != [] && ':' in line && Lower(Strip(Partition(line, ':').0)) == key
  }

  lemma {:induction false} UnnamedHeader(lines: seq<Bytes>, key: Bytes)
    requires forall i :: 0 <= i < |lines| ==> !NamesHeader(lines[i], key)
    ensures key !in HeadersOf(lines)
  {
    if lines != [] {
      var last := |lines| - 1;
      UnnamedHeader(lines[..last], key);
      AddHeaderReadOff(HeadersOf(lines[..last]), lines[last], key);
      hide AddHeader, NamesHeader;
    }
  }

  lemma {:induction false} HeaderOfLastLine(lines: seq<Bytes>, i: nat, key: Bytes)
    requires i < |lines| && NamesHeader(lines[i], key)
    requires forall k :: i < k < |lines| ==> !NamesHeader(lines[k], key)
    ensures key in HeadersOf(lines) && HeadersOf(lines)[key] == Strip(Partition(lines[i], ':').1)
  {
    hide *;
    var last := |lines| - 1;
    HeadersUnfold(lines);
    AddHeaderReadOff(HeadersOf(lines[..last]), lines[last], key);
    if i < last {
      assert forall k :: 0 <= k < last ==> lines[..last][k] == lines[k];
      HeaderOfLastLine(lines[..last], i, key);
      NamingHasColon(lines[i], key);
    }
  }

  lemma NoLines()
    ensures HeadersOf([]) == map[]
  {
  }

  lemma HeadersUnfold(lines: seq<Bytes>)
    requires lines != []
    ensures HeadersOf(lines) == AddHeader(HeadersOf(lines[..|lines| - 1]), lines[|lines| - 1])
  {
    hide AddHeader;
  }

  lemma NamingHasColon(line: Bytes, key: Bytes)
    requires NamesHeader(line, key)
    ensures ':' in line
  {
    hide Strip, Lower;
  }

  lemma {:induction false} LastNaming(lines: seq<Bytes>, key: Bytes) returns (i: nat)
    requires exists k :: 0 <= k < |lines| && NamesHeader(lines[k], key)
    ensures i < |lines| && NamesHeader(lines[i], key) && forall k :: i < k < |lines| ==> !NamesHeader(lines[k], key)
  {
    hide NamesHeader;
    var last := |lines| - 1;
    if NamesHeader(lines[last], key) {
      i := last;
    } else {
      var k :| 0 <= k < |lines| && NamesHeader(lines[k], key);
      assert NamesHeader(lines[..last][k], key);
      i := LastNaming(lines[..last], key);
      assert forall k :: i < k < last ==> lines[..last][k] == lines[k];
    }
  }

  /**
   A header is there if and only if some line names it, and its value is what follows the
   first colon, stripped, of the last such line.
   */
  ghost predicate ReadOff(headers: map<Bytes, Bytes>, lines: seq<Bytes>, key: Bytes) {
    && (key in headers <==> exists i :: 0 <= i < |lines| && NamesHeader(lines[i], key))
    && (key in headers ==>
          exists i ::
            && 0 <= i < |lines| && NamesHeader(lines[i], key)
            && (forall k :: i < k < |lines| ==> !NamesHeader(lines[k], key))
            && headers[key] == Strip(Partition(lines[i], ':').1))
  }

  lemma HeadersReadOff(lines: seq<Bytes>, key: Bytes)
    ensures ReadOff(HeadersOf(lines), lines, key)
  {
    hide NamesHeader, HeadersOf, Strip, Partition;
    if exists i :: 0 <= i < |lines| && NamesHeader(lines[i], key) {
      var i := LastNaming(lines, key);
      HeaderOfLastLine(lines, i, key);
    } else {
      UnnamedHeader(lines, key);
    }
  }

  lemma AddHeaderReadOff(headers: map<Bytes, Bytes>, line: Bytes, key: Bytes)
    ensures var after := AddHeader(headers, line);
      if NamesHeader(line, key) then key in after && after[key] == Strip(Partition(line, ':').1)
      else (key in after <==> key in headers) && (key in headers ==> after[key] == headers[key])
  {
    hide Strip, Partition, Lower;
  }

  method ParseHeaders(text: Bytes) returns (headers: map<Bytes, Bytes>)
    ensures headers == HeadersOf(HeaderLines(text))
    ensures forall key :: ReadOff(headers, HeaderLines(text), key)
  {
    hide *;
    NoLines();
    headers := map[];
    var lines := HeaderLines(text);
    for i := 0 to |lines|
      invariant headers == HeadersOf(lines[..i])
    {
      assert lines[..i + 1][..i] == lines[..i];
      HeadersUnfold(lines[..i + 1]);
      headers := AddHeader(headers, lines[i]);
    }
    assert lines[..|lines|] == lines;
    forall key ensures ReadOff(headers, lines, key) {
      HeadersReadOff(lines, key);
    }
  }

  /** What remains of a piece after the rest of its delimiter line is dropped. */
  function DropLineEnd(raw: Bytes): Bytes {
    if CRLF <= raw then raw[2..] else LStrip(raw, NEWLINES)
  }

  /** The header block, if the piece has one, and where the body starts. */
  function HeaderSplit(raw: Bytes): (r: (Bytes, nat))
    ensures r.1 <= |raw|
  {
    match Find(raw, HEADER_END)
    case Some(i) => (raw[..i], i + 4)
    case None =>
      match Find(raw, HEADER_END_LF)
      case Some(i) => (raw[..i], i + 2)
      case None => ([], 0)
  }

  function ParsePart(raw: Bytes): Part {
    var r := DropLineEnd(raw);
    var (text, start) := HeaderSplit(r);
    Part(HeadersOf(HeaderLines(text)), r[start..])
  }

  lemma BodyEndsPiece(raw: Bytes)
    ensures var body := ParsePart(raw).body; |body| <= |raw| && body == raw[|raw| - |body|..]
  {
    var r := DropLineEnd(raw);
    assert r == raw[|raw| - |r|..];
    var start := HeaderSplit(r).1;
    assert r[start..] == raw[|raw| - |r| + start..];
  }

  function PartsUntilTerminator(raws: seq<Bytes>): (ps: seq<Part>)
    ensures |ps| <= |raws|
  {
    if raws == [] || DASHES <= raws[0] then []
    else [ParsePart(raws[0])] + PartsUntilTerminator(raws[1..])
  }

  lemma PartsStep(raws: seq<Bytes>, k: nat)
    requires k < |raws|
    ensures PartsUntilTerminator(raws[k..]) ==
            if DASHES <= raws[k] then [] else [ParsePart(raws[k])] + PartsUntilTerminator(raws[k + 1..])
  {
    assert raws[k..][0] == raws[k];
    assert raws[k..][1..] == raws[k + 1..];
  }

  lemma {:induction false} PartsAt(raws: seq<Bytes>)
    ensures var ps := PartsUntilTerminator(raws);
      && (forall k :: 0 <= k < |ps| ==> !(DASHES <= raws[k]) && ps[k] == ParsePart(raws[k]))
      && (|ps| < |raws| ==> DASHES <= raws[|ps|])
  {
    hide ParsePart;
    if raws != [] && !(DASHES <= raws[0]) {
      PartsAt(raws[1..]);
    }
  }

  lemma RawPartAt(data: Bytes, marker: Bytes, k: nat)
    requires k < |Delimiters(data, marker, 0)|
    ensures var ds := Delimiters(data, marker, 0);
      && |RawParts(data, marker)| == |ds| + 1
      && ds[k].end <= PieceEnd(data, ds, k) <= |data|
      && RawParts(data, marker)[1..][k] == data[ds[k].end..PieceEnd(data, ds, k)]
  {
    DelimitersAscend(data, marker, 0);
    SlicesAt(data, Delimiters(data, marker, 0), 0);
  }

  function SplitParts(data: Bytes, boundary: Bytes): Result<seq<Part>, SplitError> {
    var raws := RawParts(data, Marker(boundary));
    if |raws| < 3 then Err(BoundaryNotFound)
    else
      var parts := PartsUntilTerminator(raws[1..]);
      if parts == [] then Err(NoParts) else Ok(parts)
  }

  method ParseOne(raw: Bytes) returns (part: Part)
    ensures part == ParsePart(raw)
  {
    var r := DropLineEnd(raw);
    var (text, start) := HeaderSplit(r);
    var headers := ParseHeaders(text);
    part := Part(headers, r[start..]);
  }

  method SplitMimeParts(data: Bytes, boundary: Bytes) returns (r: Result<seq<Part>, SplitError>)
    ensures r == SplitParts(data, boundary)
  {
    hide PartsUntilTerminator, ParsePart, Delimiters, Slices;
    var marker := Marker(boundary);
    var ds := FindDelimiters(data, marker);
    DelimitersAscend(data, marker, 0);
    SlicesAt(data, ds, 0);
    if |ds| + 1 < 3 {
      return Err(BoundaryNotFound);
    }
    ghost var raws := RawParts(data, marker)[1..];
    var parts: seq<Part> := [];
    var k := 0;
    while k < |ds|
      invariant 0 <= k <= |ds| == |raws|
      invariant PartsUntilTerminator(raws) == parts + PartsUntilTerminator(raws[k..])
    {
      var raw := data[ds[k].end..PieceEnd(data, ds, k)];
      RawPartAt(data, marker, k);
      PartsStep(raws, k);
      if DASHES <= raw {
        break;
      }
      var part := ParseOne(raw);
      parts := parts + [part];
      k := k + 1;
    }
    assert PartsUntilTerminator(raws) == parts;
    if parts == [] {
      return Err(NoParts);
    }
    return Ok(parts);
  }

  /** The body is the end of the piece between delimiter `k` and the next one, which is not a terminator. */
  ghost predicate BodyLies(data: Bytes, ds: seq<Delimiter>, k: nat, body: Bytes) {
    && k < |ds|
    && ds[k].end <= PieceEnd(data, ds, k) <= |data|
    && var hi := PieceEnd(data, ds, k);
    && |body| <= hi - ds[k].end
    && body == data[hi - |body|..hi]
    && !(DASHES <= data[ds[k].end..hi])
  }

  ghost predicate PieceIsTerminator(data: Bytes, ds: seq<Delimiter>, k: nat) {
    && k < |ds|
    && ds[k].end <= PieceEnd(data, ds, k) <= |data|
    && DASHES <= data[ds[k].end..PieceEnd(data, ds, k)]
  }

  /**
   Every body is a slice of the input lying between two consecutive delimiters, so
   the bodies are disjoint and in order; and nothing from the first terminator on
   is returned.
   */
  lemma BodiesAreSlices(data: Bytes, boundary: Bytes, parts: seq<Part>)
    requires SplitParts(data, boundary) == Ok(parts)
    ensures var ds := Delimiters(data, Marker(boundary), 0);
      && 1 <= |parts| <= |ds|
      && Ascending(ds, 0, |data|)
      && (forall k :: 0 <= k < |parts| ==> BodyLies(data, ds, k, parts[k].body))
      && (|parts| < |ds| ==> PieceIsTerminator(data, ds, |parts|))
  {
    hide PartsUntilTerminator, ParsePart, Delimiters, Slices, PieceEnd;
    var marker := Marker(boundary);
    var ds := Delimiters(data, marker, 0);
    DelimitersAscend(data, marker, 0);
    SlicesAt(data, ds, 0);
    var raws := RawParts(data, marker)[1..];
    assert |raws| == |ds|;
    PartsAt(raws);
    forall k | 0 <= k < |parts| ensures BodyLies(data, ds, k, parts[k].body) {
      RawPartAt(data, marker, k);
      var lo, hi := ds[k].end, PieceEnd(data, ds, k);
      BodyOfSlice(data, lo, hi);
      assert parts[k] == ParsePart(data[lo..hi]);
    }
    if |parts| < |ds| {
      RawPartAt(data, marker, |parts|);
    }
  }

  lemma BodyOfSlice(data: Bytes, lo: nat, hi: nat)
    requires lo <= hi <= |data|
    ensures var body := ParsePart(data[lo..hi]).body; |body| <= hi - lo && body == data[hi - |body|..hi]
  {
    hide *;
    var raw := data[lo..hi];
    var body := ParsePart(raw).body;
    BodyEndsPiece(raw);
    assert raw[|raw| - |body|..] == data[hi - |body|..hi];
  }

  // ------------------------------------------------------------------
  // Boundary parameters
  // ------------------------------------------------------------------

  function ParamIn(pieces: seq<Bytes>, name: Bytes): Option<Bytes> {
    if pieces == [] then None
    else
      var piece := Strip(pieces[0]);
      if Lower(name) + ['='] <= Lower(piece) then
        var value := Strip(piece[|name| + 1..]);
        Some(RStrip(LStrip(value, {'"'}), {'"'}))
      else ParamIn(pieces[1..], name)
  }

  function ContentTypeParam(contentType: Bytes, name: Bytes): Option<Bytes> {
    ParamIn(SplitOn(contentType, ';')[1..], name)
  }

  /** The piece gives the parameter: stripped, it starts with the name and `=`, in any case. */
  ghost predicate Names(piece: Bytes, name: Bytes) {
    Lower(name) + ['='] <= Lower(Strip(piece))
  }

  /** The text between the quotes that `value` begins and ends with, if it does. */
  ghost predicate Unquotes(value: Bytes, answer: Bytes) {
    && (answer != [] ==> answer[0] != '"' && answer[|answer| - 1] != '"')
    && exists i: nat, j: nat ::
      && i <= j <= |value| && value[i..j] == answer
      && (forall k :: 0 <= k < i ==> value[k] == '"') && (forall k :: j <= k < |value| ==> value[k] == '"')
  }

  /**
   A parameter is there if and only if some piece after the first semicolon names it, and its
   value is what follows the `=`, stripped and without the quotes around it, of the first
   such piece.
   */
  lemma ParamReadOff(contentType: Bytes, name: Bytes)
    ensures var pieces, r := SplitOn(contentType, ';'), ContentTypeParam(contentType, name);
      && (r.None? <==> forall i :: 1 <= i < |pieces| ==> !Names(pieces[i], name))
      && (r.Some? ==>
            exists i ::
              && 1 <= i < |pieces| && Names(pieces[i], name)
              && (forall k :: 1 <= k < i ==> !Names(pieces[k], name))
              && |Strip(pieces[i])| > |name|
              && Unquotes(Strip(Strip(pieces[i])[|name| + 1..]), r.value))
  {
    var pieces := SplitOn(contentType, ';');
    hide SplitOn, Names, ParamIn, Strip, Unquotes;
    ParamInReadOff(pieces[1..], name);
    forall i | 1 <= i < |pieces| ensures pieces[i] == pieces[1..][i - 1] {
    }
    if r: Bytes :| ContentTypeParam(contentType, name) == Some(r) {
      var i :|
        && 0 <= i < |pieces[1..]| && Names(pieces[1..][i], name)
        && (forall k :: 0 <= k < i ==> !Names(pieces[1..][k], name))
        && |Strip(pieces[1..][i])| > |name|
        && Unquotes(Strip(Strip(pieces[1..][i])[|name| + 1..]), r);
      assert pieces[i + 1] == pieces[1..][i];
      assert forall k :: 1 <= k < i + 1 ==> pieces[k] == pieces[1..][k - 1];
    }
  }

  lemma {:induction false} ParamInReadOff(pieces: seq<Bytes>, name: Bytes)
    ensures var r := ParamIn(pieces, name);
      && (r.None? <==> forall i :: 0 <= i < |pieces| ==> !Names(pieces[i], name))
      && (r.Some? ==>
            exists i ::
              && 0 <= i < |pieces| && Names(pieces[i], name)
              && (forall k :: 0 <= k < i ==> !Names(pieces[k], name))
              && |Strip(pieces[i])| > |name|
              && Unquotes(Strip(Strip(pieces[i])[|name| + 1..]), r.value))
  {
    hide *;
    ParamInUnfold(pieces, name);
    if pieces == [] {
    } else if Names(pieces[0], name) {
    } else {
      ParamInReadOff(pieces[1..], name);
      forall i | 1 <= i < |pieces| ensures pieces[i] == pieces[1..][i - 1] {
      }
      if r: Bytes :| ParamIn(pieces[1..], name) == Some(r) {
        var i :|
          && 0 <= i < |pieces[1..]| && Names(pieces[1..][i], name)
          && (forall k :: 0 <= k < i ==> !Names(pieces[1..][k], name))
          && |Strip(pieces[1..][i])| > |name|
          && Unquotes(Strip(Strip(pieces[1..][i])[|name| + 1..]), r);
        assert pieces[i + 1] == pieces[1..][i];
      }
    }
  }

  lemma ParamInUnfold(pieces: seq<Bytes>, name: Bytes)
    ensures pieces == [] ==> ParamIn(pieces, name) == None
    ensures pieces != [] && !Names(pieces[0], name) ==> ParamIn(pieces, name) == ParamIn(pieces[1..], name)
    ensures pieces != [] && Names(pieces[0], name) ==>
      && |Strip(pieces[0])| > |name| && ParamIn(pieces, name).Some?
      && Unquotes(Strip(Strip(pieces[0])[|name| + 1..]), ParamIn(pieces, name).value)
  {
    if pieces != [] && Names(pieces[0], name) {
      var piece := Strip(pieces[0]);
      assert |Lower(name) + ['=']| <= |Lower(piece)|;
      hide Strip, Lower, LStrip, RStrip;
      QuotesStripped(Strip(piece[|name| + 1..]));
    }
    hide Strip, Lower, LStrip, RStrip;
  }

  lemma QuotesStripped(value: Bytes)
    ensures Unquotes(value, RStrip(LStrip(value, {'"'}), {'"'}))
  {
    hide LStrip, RStrip;
    var left := LStrip(value, {'"'});
    var answer := RStrip(left, {'"'});
    var i := |value| - |left|;
    var j := i + |answer|;
    assert value[i..j] == answer;
    assert answer != [] ==> answer[0] == left[0];
    forall k | j <= k < |value| ensures value[k] == '"' {
      assert value[k] == left[k - i];
    }
  }

  predicate IsAscii(s: Bytes) {
    forall c :: c in s ==> c as int < 128
  }

  function SniffBoundary(data: Bytes): Option<Bytes> {
    var stripped := LStrip(data, NEWLINES);
    if !(DASHES <= stripped) then None
    else
      var line := match Find(stripped, LFS) {
                    case Some(end) => assert stripped[end..][0] == LF; stripped[2..end]
                    case None => stripped[2..]
                  };
      var token := RStrip(line, {CR});
      if token == [] || !IsAscii(token) then None else Some(token)
  }

  /**
   `data` opens, after CR and LF octets, with a line `--b`, ended by LF with or without CRs
   before it, or by the end of the data.
   */
  ghost predicate OpensWith(data: Bytes, b: Bytes) {
    exists lead: Bytes, crs: Bytes, rest: Bytes ::
      && data == lead + (DASHES + (b + crs) + rest)
      && (forall c :: c in lead ==> c in NEWLINES) && (forall c :: c in crs ==> c == CR)
      && (rest == [] || rest[0] == LF)
  }

  predicate LineToken(b: Bytes) {
    b != [] && b[|b| - 1] != CR && LF !in b && IsAscii(b)
  }

  /** The boundary read off a body is exactly the ASCII token its opening delimiter line shows. */
  lemma SniffReadOff(data: Bytes, b: Bytes)
    ensures SniffBoundary(data) == Some(b) <==> LineToken(b) && OpensWith(data, b)
  {
    if SniffBoundary(data) == Some(b) {
      SniffOpens(data, b);
    }
    if LineToken(b) && OpensWith(data, b) {
      var lead: Bytes, crs: Bytes, rest: Bytes :|
        && data == lead + (DASHES + (b + crs) + rest)
        && (forall c :: c in lead ==> c in NEWLINES) && (forall c :: c in crs ==> c == CR)
        && (rest == [] || rest[0] == LF);
      OpensSniffs(lead, b, crs, rest);
    }
  }

  lemma SniffOpens(data: Bytes, b: Bytes)
    requires SniffBoundary(data) == Some(b)
    ensures LineToken(b) && OpensWith(data, b)
  {
    hide *;
    var stripped := LStrip(data, NEWLINES);
    var end := LineEnd(stripped);
    SniffIs(data);
    LineEndIs(stripped);
    var lead, line, rest := data[..|data| - |stripped|], stripped[2..end], stripped[end..];
    LineParts(data, stripped, end);
    LineOpens(data, lead, stripped, line, rest, b);
    TokenOf(stripped, end, b);
  }

  lemma LineParts(data: Bytes, stripped: Bytes, end: nat)
    requires |stripped| <= |data| && stripped == data[|data| - |stripped|..] && 2 <= end <= |stripped|
    ensures data == data[..|data| - |stripped|] + stripped
    ensures stripped == stripped[..2] + stripped[2..end] + stripped[end..]
  {
  }

  /** Where the first line ends. */
  function LineEnd(s: Bytes): nat {
    match Find(s, LFS) case Some(i) => i case None => |s|
  }

  lemma LineEndIs(s: Bytes)
    ensures LineEnd(s) <= |s| && (s[LineEnd(s)..] == [] || s[LineEnd(s)..][0] == LF)
    ensures forall k :: 0 <= k < LineEnd(s) ==> s[k] != LF
    ensures DASHES <= s ==> LineEnd(s) >= 2
  {
    hide Find;
    NoBreakBefore(s, LineEnd(s));
  }

  lemma SniffIs(data: Bytes)
    ensures var stripped := LStrip(data, NEWLINES);
      SniffBoundary(data).Some? ==>
        && DASHES <= stripped && 2 <= LineEnd(stripped) <= |stripped|
        && RStrip(stripped[2..LineEnd(stripped)], {CR}) == SniffBoundary(data).value
        && SniffBoundary(data).value != [] && IsAscii(SniffBoundary(data).value)
  {
    var stripped := LStrip(data, NEWLINES);
    LineEndIs(stripped);
    hide LStrip, RStrip, Find, IsAscii;
    assert |stripped| >= 2 ==> stripped[2..] == stripped[2..|stripped|];
  }

  lemma TokenOf(s: Bytes, end: nat, b: Bytes)
    requires 2 <= end <= |s| && RStrip(s[2..end], {CR}) == b && b != [] && IsAscii(b)
    requires forall k :: 0 <= k < end ==> s[k] != LF
    ensures LineToken(b)
  {
    hide RStrip, IsAscii;
    forall c | c in b ensures c != LF {
      var k :| 0 <= k < |b| && b[k] == c;
      assert s[2..end][k] == s[k + 2];
    }
  }

  lemma NoBreakBefore(s: Bytes, end: nat)
    requires end <= |s| && forall k: nat :: k < end ==> !OccursAt(LFS, s, k)
    ensures forall k :: 0 <= k < end ==> s[k] != LF
  {
    forall k: nat | k < end ensures s[k] != LF {
      assert !OccursAt(LFS, s, k);
      assert s[k..][0] == s[k];
    }
  }

  lemma LineOpens(data: Bytes, lead: Bytes, stripped: Bytes, line: Bytes, rest: Bytes, b: Bytes)
    requires data == lead + stripped && DASHES <= stripped && stripped == stripped[..2] + line + rest
    requires forall c :: c in lead ==> c in NEWLINES
    requires RStrip(line, {CR}) == b && (rest == [] || rest[0] == LF)
    ensures OpensWith(data, b)
  {
    hide RStrip;
    var crs := line[|b|..];
    assert stripped[..2] == DASHES && line == b + crs;
    assert data == lead + (DASHES + (b + crs) + rest);
    forall c | c in crs ensures c == CR {
      var k :| 0 <= k < |crs| && crs[k] == c;
      assert line[|b| + k] == c;
    }
  }

  lemma OpensSniffs(lead: Bytes, b: Bytes, crs: Bytes, rest: Bytes)
    requires LineToken(b) && (forall c :: c in lead ==> c in NEWLINES) && (forall c :: c in crs ==> c == CR)
    requires rest == [] || rest[0] == LF
    ensures SniffBoundary(lead + (DASHES + (b + crs) + rest)) == Some(b)
  {
    hide *;
    LineTokenIs(b);
    NoBreakIn(b, crs);
    TokenEnds(b, crs);
    OpeningLine(lead, b + crs, rest);
    SniffComputes(lead + (DASHES + (b + crs) + rest), DASHES + (b + crs) + rest, b);
  }

  lemma TokenEnds(b: Bytes, crs: Bytes)
    requires b != [] && b[|b| - 1] != CR && forall c :: c in crs ==> c == CR
    ensures RStrip(b + crs, {CR}) == b
  {
    hide RStrip;
    RStripPad(b, crs, {CR});
    AlreadyEnded(b, {CR});
  }

  lemma OpeningLine(lead: Bytes, line: Bytes, rest: Bytes)
    requires (forall c :: c in lead ==> c in NEWLINES) && LF !in line && (rest == [] || rest[0] == LF)
    ensures var s := DASHES + line + rest;
      && LStrip(lead + s, NEWLINES) == s && DASHES <= s
      && 2 <= 2 + |line| == LineEnd(s) <= |s| && s[2..2 + |line|] == line
  {
    hide *;
    DashesAre();
    LineCut(DASHES, line, rest);
    OpeningAt(lead, DASHES + line + rest, 2 + |line|);
  }

  lemma OpeningAt(lead: Bytes, s: Bytes, end: nat)
    requires (forall c :: c in lead ==> c in NEWLINES) && s != [] && s[0] !in NEWLINES
    requires end <= |s| && (end < |s| ==> s[end] == LF) && forall k :: 0 <= k < end ==> s[k] != LF
    ensures LStrip(lead + s, NEWLINES) == s && LineEnd(s) == end
  {
    hide *;
    LStripPad(lead, s, NEWLINES);
    AlreadyStripped(s, NEWLINES);
    LineEndAt(s, end);
  }

  lemma DashesAre()
    ensures DASHES == ['-', '-'] && '-' !in NEWLINES && LF !in DASHES
  {
  }

  lemma NoBreakIn(b: Bytes, crs: Bytes)
    requires LF !in b && forall c :: c in crs ==> c == CR
    ensures LF !in b + crs
  {
  }

  lemma LineCut(dashes: Bytes, line: Bytes, rest: Bytes)
    requires LF !in dashes && LF !in line && |dashes| == 2
    ensures var s := dashes + line + rest;
      && dashes <= s && s[2..2 + |line|] == line && (rest != [] ==> s[2 + |line|] == rest[0])
      && |s| == 2 + |line| + |rest| && s[0] == dashes[0]
      && forall k :: 0 <= k < 2 + |line| ==> s[k] != LF
  {
    var s := dashes + line + rest;
    assert s[..2] == dashes && s[2..2 + |line|] == line;
    forall k | 0 <= k < 2 + |line| ensures s[k] != LF {
      assert s[k] == if k < 2 then dashes[k] else line[k - 2];
    }
  }

  lemma LineTokenIs(b: Bytes)
    ensures LineToken(b) <==> b != [] && b[|b| - 1] != CR && LF !in b && IsAscii(b)
  {
    hide IsAscii;
  }

  lemma LineEndAt(s: Bytes, end: nat)
    requires end <= |s| && (end < |s| ==> s[end] == LF) && forall k :: 0 <= k < end ==> s[k] != LF
    ensures LineEnd(s) == end
  {
    FirstBreak(s, end);
    hide Find;
  }

  lemma SniffComputes(data: Bytes, stripped: Bytes, b: Bytes)
    requires LStrip(data, NEWLINES) == stripped && DASHES <= stripped && 2 <= LineEnd(stripped) <= |stripped|
    requires RStrip(stripped[2..LineEnd(stripped)], {CR}) == b && b != [] && IsAscii(b)
    ensures SniffBoundary(data) == Some(b)
  {
    hide LStrip, RStrip, Find, IsAscii;
    assert stripped[2..] == stripped[2..|stripped|];
  }

  lemma AlreadyStripped(s: Bytes, cs: set<Octet>)
    requires s != [] && s[0] !in cs
    ensures LStrip(s, cs) == s
  {
  }

  lemma AlreadyEnded(s: Bytes, cs: set<Octet>)
    requires s != [] && s[|s| - 1] !in cs
    ensures RStrip(s, cs) == s
  {
  }

  lemma FirstBreak(s: Bytes, end: nat)
    requires end <= |s| && (end < |s| ==> s[end] == LF) && forall k :: 0 <= k < end ==> s[k] != LF
    ensures Find(s, LFS) == if end < |s| then Some(end) else None
  {
    hide Find;
    if end < |s| {
      assert s[end..][0] == LF;
      assert OccursAt(LFS, s, end);
    }
    forall k: nat | k < end || end == |s| ensures !OccursAt(LFS, s, k) {
      if k < end {
        assert s[k..][0] == s[k];
      }
    }
  }
}
