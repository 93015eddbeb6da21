/**
 Octet sequences and the handful of bytes/str operations the envelope code is
 written with: find, partition, split on one separator, strip, lower, and the
 newline normalisation `replace("\r\n", "\n")`.
 Text is modelled already encoded, so one type serves both.
 */
module Bytes {
  import opened Wrappers

  type Octet = c: char | c as int < 256 witness 'a'
  type Bytes = seq<Octet>

  const CR: Octet := '\r'
  const LF: Octet := '\n'
  const CRLF: Bytes := [CR, LF]
  const LFS: Bytes := [LF]

  /** The ASCII characters that `str.strip()` removes. */
  const SPACES: set<Octet> := {'\t', '\n', '\U{0B}', '\U{0C}', '\r', '\U{1C}', '\U{1D}', '\U{1E}', '\U{1F}', ' '}
  const NEWLINES: set<Octet> := {CR, LF}

  predicate NewlineFree(s: Bytes) {
    CR !in s && LF !in s
  }

  ghost predicate OccursAt(p: Bytes, s: Bytes, i: nat) {
    i <= |s| && p <= s[i..]
  }

  /** The first position at which `p` occurs in `s`. */
  function Find(s: Bytes, p: Bytes): (r: Option<nat>)
    ensures r.Some? ==> OccursAt(p, s, r.value) && forall j: nat :: j < r.value ==> !OccursAt(p, s, j)
    ensures r.None? ==> forall j: nat :: !OccursAt(p, s, j)
  {
    if p <= s then
      assert s[0..] == s;
      Some(0)
    else if s == [] then
      assert forall j: nat :: OccursAt(p, s, j) ==> p == s;
      None
    else
      var r := Find(s[1..], p);
      assert forall j: nat :: 0 < j <= |s| ==> s[j..] == s[1..][j - 1..];
      assert forall j: nat :: 0 < j && OccursAt(p, s, j) ==> OccursAt(p, s[1..], j - 1);
      assert s[0..] == s;
      match r
      case None => None
      case Some(i) => assert s[i + 1..] == s[1..][i..]; Some(i + 1)
  }

  ghost predicate Contains(s: Bytes, p: Bytes) {
    exists i: nat :: OccursAt(p, s, i)
  }

  /** The text before and after the first `c`, as `partition` cuts it. */
  function Partition(s: Bytes, c: Octet): (r: (Bytes, Bytes))
    requires c in s
    ensures s == r.0 + [c] + r.1 && c !in r.0
  {
    if s[0] == c then ([], s[1..]) else
      var (a, b) := Partition(s[1..], c);
      ([s[0]] + a, b)
  }

  lemma {:induction false} PartitionAt(a: Bytes, c: Octet, b: Bytes)
    requires c !in a
    ensures c in a + [c] + b && Partition(a + [c] + b, c) == (a, b)
  {
    var s := a + [c] + b;
    assert s[|a|] == c;
    if a == [] {
      assert s[1..] == b;
    } else {
      assert s[0] == a[0];
      assert s[1..] == a[1..] + [c] + b;
      PartitionAt(a[1..], c, b);
      assert a == [a[0]] + a[1..];
    }
  }

  /** `s.split(c)` for a separator of one character. */
  function SplitOn(s: Bytes, c: Octet): (r: seq<Bytes>)
    ensures |r| >= 1
    ensures forall i :: 0 <= i < |r| ==> c !in r[i]
  {
    if s == [] then [[]]
    else
      var rest := SplitOn(s[1..], c);
      if s[0] == c then [[]] + rest else [[s[0]] + rest[0]] + rest[1..]
  }

  lemma {:induction false} SplitOnNone(a: Bytes, c: Octet)
    requires c !in a
    ensures SplitOn(a, c) == [a]
  {
    if a != [] {
      SplitOnNone(a[1..], c);
      assert a == [a[0]] + a[1..];
    }
  }

  lemma {:induction false} SplitOnCons(a: Bytes, c: Octet, b: Bytes)
    requires c !in a
    ensures SplitOn(a + [c] + b, c) == [a] + SplitOn(b, c)
  {
    var s := a + [c] + b;
    if a == [] {
      assert s[1..] == b;
    } else {
      SplitOnCons(a[1..], c, b);
      assert s[1..] == a[1..] + [c] + b;
      assert s[0] == a[0] && a == [a[0]] + a[1..];
    }
  }

  /** `s.replace("\r\n", "\n")`. */
  function ReplaceCrlf(s: Bytes): Bytes {
    if s == [] then []
    else if CRLF <= s then [LF] + ReplaceCrlf(s[2..])
    else [s[0]] + ReplaceCrlf(s[1..])
  }

  lemma {:induction false} ReplaceCrlfLine(a: Bytes, nl: Bytes, b: Bytes)
    requires NewlineFree(a) && (nl == CRLF || nl == LFS)
    ensures ReplaceCrlf(a + nl + b) == a + [LF] + ReplaceCrlf(b)
  {
    var s := a + nl + b;
    if a == [] {
      assert s == nl + b;
      if nl == CRLF {
        assert s[2..] == b;
      } else {
        assert s[1..] == b;
      }
    } else {
      assert s[0] == a[0];
      assert s[1..] == a[1..] + nl + b;
      ReplaceCrlfLine(a[1..], nl, b);
    }
  }

  lemma {:induction false} ReplaceCrlfNone(a: Bytes)
    requires NewlineFree(a)
    ensures ReplaceCrlf(a) == a
  {
    if a != [] {
      assert a[0] in a;
      ReplaceCrlfNone(a[1..]);
    }
  }

  function LStrip(s: Bytes, cs: set<Octet>): (r: Bytes)
    ensures |r| <= |s| && r == s[|s| - |r|..]
    ensures r != [] ==> r[0] !in cs
    ensures forall i :: 0 <= i < |s| - |r| ==> s[i] in cs
  {
    if s != [] && s[0] in cs then LStrip(s[1..], cs) else s
  }

  function RStrip(s: Bytes, cs: set<Octet>): (r: Bytes)
    ensures |r| <= |s| && r == s[..|r|]
    ensures r != [] ==> r[|r| - 1] !in cs
    ensures forall i :: |r| <= i < |s| ==> s[i] in cs
  {
    if s != [] && s[|s| - 1] in cs then RStrip(s[..|s| - 1], cs) else s
  }

  /** `str.strip()`. */
  function Strip(s: Bytes): Bytes {
    RStrip(LStrip(s, SPACES), SPACES)
  }

  predicate Trimmed(s: Bytes) {
    s != [] ==> s[0] !in SPACES && s[|s| - 1] !in SPACES
  }

  lemma StripTrimmed(s: Bytes)
    ensures Trimmed(s) ==> Strip(s) == s
    ensures Trimmed(Strip(s))
  {
  }

  lemma {:induction false} LStripPad(pad: Bytes, s: Bytes, cs: set<Octet>)
    requires forall c :: c in pad ==> c in cs
    ensures LStrip(pad + s, cs) == LStrip(s, cs)
  {
    if pad == [] {
      assert pad + s == s;
    } else {
      assert (pad + s)[1..] == pad[1..] + s;
      LStripPad(pad[1..], s, cs);
    }
  }

  lemma {:induction false} RStripAfter(a: Bytes, s: Bytes, cs: set<Octet>)
    requires a == [] || a[|a| - 1] !in cs
    ensures RStrip(a + s, cs) == a + RStrip(s, cs)
    decreases |s|
  {
    if s == [] {
      assert a + s == a;
    } else if s[|s| - 1] in cs {
      assert (a + s)[..|a + s| - 1] == a + s[..|s| - 1];
      RStripAfter(a, s[..|s| - 1], cs);
    }
  }

  lemma {:induction false} RStripPad(s: Bytes, pad: Bytes, cs: set<Octet>)
    requires forall c :: c in pad ==> c in cs
    ensures RStrip(s + pad, cs) == RStrip(s, cs)
    decreases |pad|
  {
    if pad == [] {
      assert s + pad == s;
    } else {
      assert (s + pad)[..|s + pad| - 1] == s + pad[..|pad| - 1];
      RStripPad(s, pad[..|pad| - 1], cs);
    }
  }

  lemma AllStripped(s: Bytes)
    requires forall c :: c in s ==> c in SPACES
    ensures Strip(s) == []
  {
    LStripPad(s, [], SPACES);
    assert s + [] == s;
  }

  lemma {:induction false} LStripBefore(s: Bytes, t: Bytes)
    requires LStrip(s, SPACES) != []
    ensures LStrip(s + t, SPACES) == LStrip(s, SPACES) + t
  {
    if s[0] in SPACES {
      assert (s + t)[1..] == s[1..] + t;
      LStripBefore(s[1..], t);
    }
  }

  lemma StripUnfold(s: Bytes, t: Bytes, c: Octet)
    requires s == t + [c] && c in SPACES
    ensures RStrip(s, SPACES) == RStrip(t, SPACES)
    ensures LStrip(t, SPACES) == [] ==> forall d :: d in t ==> d in SPACES
  {
    assert s[..|s| - 1] == t;
  }

  /** Stripping the right end first changes nothing. */
  lemma {:induction false} StripAfterRStrip(s: Bytes)
    ensures Strip(RStrip(s, SPACES)) == Strip(s)
  {
    if s != [] && s[|s| - 1] in SPACES {
      var t, c := s[..|s| - 1], s[|s| - 1];
      assert s == t + [c];
      StripAfterRStrip(t);
      StripUnfold(s, t, c);
      hide RStrip, LStrip;
      if LStrip(t, SPACES) == [] {
        assert forall d :: d in s ==> d in SPACES;
        AllStripped(s);
      } else {
        LStripBefore(t, [c]);
        RStripPad(LStrip(t, SPACES), [c], SPACES);
      }
    }
  }

  function LowerOctet(c: Octet): Octet {
    if 'A' <= c <= 'Z' then (c as int + 32) as char else c
  }

  /** `str.lower()` on ASCII. */
  function Lower(s: Bytes): (r: Bytes)
    ensures |r| == |s| && forall i :: 0 <= i < |s| ==> r[i] == LowerOctet(s[i])
  {
    if s == [] then [] else [LowerOctet(s[0])] + Lower(s[1..])
  }

  predicate IsLower(s: Bytes) {
    forall c :: c in s ==> !('A' <= c <= 'Z')
  }

  lemma LowerFixed(s: Bytes)
    requires IsLower(s)
    ensures Lower(s) == s
  {
    forall i | 0 <= i < |s| ensures Lower(s)[i] == s[i] {
      assert s[i] in s;
    }
  }

  /** Two sequences with different first elements are not prefixes of one another. */
  lemma PrefixHead(p: Bytes, s: Bytes)
    requires p != [] && p <= s
    ensures s != [] && s[0] == p[0]
  {
  }

  lemma PrefixOfConcat(p: Bytes, a: Bytes, b: Bytes)
    requires p <= a + b
    ensures |p| <= |a| ==> p <= a
    ensures |a| <= |p| ==> a <= p && p[|a|..] <= b
  {
    if |p| <= |a| {
      assert p == (a + b)[..|p|] == a[..|p|];
    } else {
      assert a == (a + b)[..|a|] == p[..|a|];
      assert p[|a|..] == (a + b)[|a|..|p|] == b[..|p| - |a|];
    }
  }
}
