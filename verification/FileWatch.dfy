/** Files dropped for the outbound poller: names, listing and moving (app/outbound/filewatch.py). */
module FileWatch {
  import opened Wrappers
  import opened Bytes
  import Decimal

  type Name = Bytes
  type Time = int

  const DOT: Octet := '.'
  const HYPHEN: Octet := '-'
  const PROCESSED: Bytes := "processed"
  const ERROR: Bytes := "error"
  const IGNORED_SUFFIXES: set<Bytes> := {".tmp", ".part", ".swp", ".crdownload"}

  /** A regular file; `inode` is its identity, which a rename keeps. */
  datatype File = File(inode: nat, bytes: Bytes, modified: Time)

  datatype Path = Path(duns: Bytes, name: Name)

  // ------------------------------------------------------------------
  // Names: pathlib's stem and suffix
  // ------------------------------------------------------------------

  /** The position of the last dot, or the length when there is none. */
  function LastDot(name: Name): (i: nat)
    ensures i <= |name|
    ensures i < |name| ==> name[i] == DOT
    ensures forall k :: i < k < |name| ==> name[k] != DOT
    ensures i == |name| ==> forall k :: 0 <= k < |name| ==> name[k] != DOT
  {
    if name == [] then 0
    else if name[|name| - 1] == DOT then |name| - 1
    else
      var init := name[..|name| - 1];
      var i := LastDot(init);
      assert forall k :: 0 <= k < |init| ==> init[k] == name[k];
      if i == |init| then |name| else i
  }

  /** The suffix starts at the last dot, unless that is the first or the last octet of the name. */
  function StemLength(name: Name): (i: nat)
    ensures i <= |name|
  {
    var i := LastDot(name);
    if 0 < i < |name| - 1 then i else |name|
  }

  function Stem(name: Name): Name {
    name[..StemLength(name)]
  }

  function Suffix(name: Name): Name {
    name[StemLength(name)..]
  }

  predicate Ignorable(name: Name) {
    (name != [] && name[0] == DOT) || Suffix(name) in IGNORED_SUFFIXES
  }

  // ------------------------------------------------------------------
  // A free name
  // ------------------------------------------------------------------

  /** `f"{stem}-{n}{suffix}"`. */
  function Numbered(name: Name, n: nat): Name {
    Stem(name) + [HYPHEN] + Decimal.Of(n) + Suffix(name)
  }

  lemma NumberedInjective(name: Name, m: nat, n: nat)
    requires Numbered(name, m) == Numbered(name, n)
    ensures m == n
  {
    var before, after := Stem(name) + [HYPHEN], Suffix(name);
    var a, b := Decimal.Of(m), Decimal.Of(n);
    assert Numbered(name, m) == before + a + after && Numbered(name, n) == before + b + after;
    hide *;
    assert |a| == |b|;
    assert (before + a + after)[|before|..|before| + |a|] == a;
    assert (before + b + after)[|before|..|before| + |b|] == b;
    Decimal.Injective(m, n);
  }

  /** The first `n` numbered names. */
  function NumberedUpTo(name: Name, n: nat): set<Name> {
    set k: nat | 1 <= k <= n :: Numbered(name, k)
  }

  lemma {:induction false} NumberedCount(name: Name, n: nat)
    ensures |NumberedUpTo(name, n)| == n
  {
    hide Numbered;
    if n == 0 {
      assert NumberedUpTo(name, 0) == {};
    } else {
      NumberedCount(name, n - 1);
      assert Numbered(name, n) !in NumberedUpTo(name, n - 1) by {
        if Numbered(name, n) in NumberedUpTo(name, n - 1) {
          var k: nat :| 1 <= k <= n - 1 && Numbered(name, k) == Numbered(name, n);
          NumberedInjective(name, k, n);
        }
      }
      assert NumberedUpTo(name, n) == NumberedUpTo(name, n - 1) + {Numbered(name, n)};
    }
  }

  /** A finite directory cannot hold more numbered names than it has entries. */
  lemma Pigeonhole(taken: set<Name>, name: Name, n: nat)
    requires NumberedUpTo(name, n) <= taken
    ensures n <= |taken|
  {
    NumberedCount(name, n);
    SubsetSize(NumberedUpTo(name, n), taken);
  }

  lemma {:induction false} SubsetSize<T>(a: set<T>, b: set<T>)
    requires a <= b
    ensures |a| <= |b|
  {
    if a != {} {
      var x :| x in a;
      SubsetSize(a - {x}, b - {x});
    }
  }

  /** Where a file of that name goes: its own name if that is free, else the least free number from 1. */
  predicate FreeName(taken: set<Name>, name: Name, free: Name) {
    && free !in taken
    && if name !in taken then free == name
       else exists n: nat ::
         && 1 <= n <= |taken| + 1 && free == Numbered(name, n)
         && forall k: nat :: 1 <= k < n ==> Numbered(name, k) in taken
  }

  /** There is exactly one such name. */
  lemma FreeNameUnique(taken: set<Name>, name: Name, a: Name, b: Name)
    requires FreeName(taken, name, a) && FreeName(taken, name, b)
    ensures a == b
  {
    hide Numbered;
    if name in taken {
      var m: nat :|
        && 1 <= m <= |taken| + 1 && a == Numbered(name, m)
        && forall k: nat :: 1 <= k < m ==> Numbered(name, k) in taken;
      var n: nat :|
        && 1 <= n <= |taken| + 1 && b == Numbered(name, n)
        && forall k: nat :: 1 <= k < n ==> Numbered(name, k) in taken;
      assert m == n;
    }
  }

  function FirstFree(taken: set<Name>, name: Name, n: nat): Name
    requires 1 <= n && NumberedUpTo(name, n - 1) <= taken
    decreases |taken| + 1 - n
  {
    if Numbered(name, n) in taken then
      UpToNext(taken, name, n);
      FirstFree(taken, name, n + 1)
    else Numbered(name, n)
  }

  lemma UpToNext(taken: set<Name>, name: Name, n: nat)
    requires 1 <= n && NumberedUpTo(name, n - 1) <= taken && Numbered(name, n) in taken
    ensures NumberedUpTo(name, n) <= taken && n <= |taken|
  {
    Pigeonhole(taken, name, n);
    hide Numbered;
  }

  function Destination(taken: set<Name>, name: Name): Name {
    if name in taken then FirstFree(taken, name, 1) else name
  }

  lemma {:induction false} FirstFreeIs(taken: set<Name>, name: Name, n: nat)
    requires 1 <= n && NumberedUpTo(name, n - 1) <= taken
    ensures exists m: nat ::
      && n <= m <= |taken| + 1 && FirstFree(taken, name, n) == Numbered(name, m)
      && Numbered(name, m) !in taken && NumberedUpTo(name, m - 1) <= taken
    decreases |taken| + 1 - n
  {
    if Numbered(name, n) in taken {
      UpToNext(taken, name, n);
      FirstFreeIs(taken, name, n + 1);
    } else {
      Pigeonhole(taken, name, n - 1);
    }
  }

  lemma DestinationIsFree(taken: set<Name>, name: Name)
    ensures FreeName(taken, name, Destination(taken, name))
  {
    hide Numbered;
    if name in taken {
      assert NumberedUpTo(name, 0) == {};
      FirstFreeIs(taken, name, 1);
      var m: nat :|
        && 1 <= m <= |taken| + 1 && FirstFree(taken, name, 1) == Numbered(name, m)
        && Numbered(name, m) !in taken && NumberedUpTo(name, m - 1) <= taken;
      forall k: nat | 1 <= k < m ensures Numbered(name, k) in taken {
        assert Numbered(name, k) in NumberedUpTo(name, m - 1);
      }
    }
  }

  /** The loop ends on every directory, after at most one try more than it has entries. */
  method UniqueDestination(taken: set<Name>, name: Name) returns (free: Name)
    ensures free == Destination(taken, name)
  {
    hide Numbered;
    if name !in taken {
      return name;
    }
    var n: nat := 1;
    free := Numbered(name, n);
    Pigeonhole(taken, name, 0);
    while free in taken
      invariant 1 <= n <= |taken| + 1 && free == Numbered(name, n)
      invariant NumberedUpTo(name, n - 1) <= taken
      invariant FirstFree(taken, name, n) == FirstFree(taken, name, 1)
      decreases |taken| + 1 - n
    {
      UpToNext(taken, name, n);
      n := n + 1;
      free := Numbered(name, n);
    }
  }

  /**
   A numbered name keeps the suffix of the original, so what may be listed stays so, unless
   the original ends in a dot: then the number becomes a suffix.
   */
  lemma NumberedSuffix(name: Name, n: nat)
    ensures Suffix(Numbered(name, n)) == Suffix(name) <==> |name| <= 1 || name[|name| - 1] != DOT
    ensures Stem(name) <= Numbered(name, n)
  {
    var middle := [HYPHEN] + Decimal.Of(n);
    var numbered, i, k := Numbered(name, n), LastDot(name), StemLength(name);
    assert numbered == Stem(name) + middle + Suffix(name);
    forall c | c in middle ensures c != DOT {
      assert c in Decimal.Of(n) || c == HYPHEN;
    }
    hide Decimal.Of, Numbered;
    if k < |name| {
      var at := k + |middle|;
      assert numbered[at..] == Suffix(name) == name[k..];
      assert numbered[at] == name[k] == DOT;
      forall j | at < j < |numbered| ensures numbered[j] != DOT {
        assert numbered[j] == name[j - |middle|];
      }
      assert LastDot(numbered) == at;
    } else {
      assert numbered == name + middle;
      forall j | |name| <= j < |numbered| ensures numbered[j] != DOT {
        assert numbered[j] == middle[j - |name|] && middle[j - |name|] in middle;
      }
      assert forall j :: 0 <= j < |name| ==> numbered[j] == name[j];
      assert LastDot(numbered) == if i < |name| then i else |numbered|;
    }
  }

  // ------------------------------------------------------------------
  // Listing
  // ------------------------------------------------------------------

  /** Old enough to have been written out, and not a name that says it has not been. */
  predicate Stable(name: Name, file: File, quietPeriod: int, now: Time) {
    name != PROCESSED && name != ERROR && !Ignorable(name) && now - file.modified >= quietPeriod
  }

  predicate EndsWith(name: Name, ending: Bytes) {
    |ending| <= |name| && name[|name| - |ending|..] == ending
  }

  /**
   A file is stable if and only if its name is neither of the gateway's own folders', starts
   with no dot, and ends in none of the suffixes of files still being written, and it has not
   been modified for the quiet period.
   */
  lemma StableIff(name: Name, file: File, quietPeriod: int, now: Time)
    ensures Stable(name, file, quietPeriod, now) <==>
      && name != PROCESSED && name != ERROR
      && (name == [] || name[0] != '.') && (forall ending :: ending in IGNORED_SUFFIXES ==> !EndsWith(name, ending))
      && file.modified + quietPeriod <= now
  {
    SuffixesAreDotted();
    hide IGNORED_SUFFIXES, PROCESSED, ERROR;
    if name == [] || name[0] != '.' {
      forall ending | ending in IGNORED_SUFFIXES ensures EndsWith(name, ending) <==> Suffix(name) == ending {
        SuffixIs(name, ending);
      }
    }
  }

  predicate Dotted(ending: Bytes) {
    |ending| >= 2 && ending[0] == DOT && forall k :: 1 <= k < |ending| ==> ending[k] != DOT
  }

  lemma SuffixesAreDotted()
    ensures forall ending :: ending in IGNORED_SUFFIXES ==> Dotted(ending)
  {
  }

  lemma SuffixIs(name: Name, ending: Bytes)
    requires Dotted(ending) && (name == [] || name[0] != DOT)
    ensures EndsWith(name, ending) <==> Suffix(name) == ending
  {
    if EndsWith(name, ending) {
      var i := |name| - |ending|;
      assert name[i] == ending[0] == DOT;
      forall k | i < k < |name| ensures name[k] != DOT {
        assert name[k] == ending[k - i];
      }
      assert LastDot(name) == i;
    }
  }

  /** The order of `sorted`: octet by octet, a prefix first. */
  predicate Below(a: Name, b: Name) {
    if b == [] then false
    else if a == [] then true
    else a[0] < b[0] || (a[0] == b[0] && Below(a[1..], b[1..]))
  }

  lemma {:induction false} BelowTotal(a: Name, b: Name)
    ensures a == b || Below(a, b) || Below(b, a)
    decreases |a|
  {
    if a != [] && b != [] && a[0] == b[0] {
      BelowTotal(a[1..], b[1..]);
      assert a == [a[0]] + a[1..] && b == [b[0]] + b[1..];
    }
  }

  lemma {:induction false} BelowTransitive(a: Name, b: Name, c: Name)
    requires Below(a, b) && Below(b, c)
    ensures Below(a, c)
    decreases |a|
  {
    if a != [] && a[0] == b[0] == c[0] {
      BelowTransitive(a[1..], b[1..], c[1..]);
    }
  }

  method Least(names: set<Name>) returns (least: Name)
    requires names != {}
    ensures least in names && forall n :: n in names && n != least ==> Below(least, n)
  {
    hide *;
    least :| least in names;
    var rest := names - {least};
    while rest != {}
      invariant rest <= names && least in names && least !in rest
      invariant forall n :: n in names - rest && n != least ==> Below(least, n)
      decreases |rest|
    {
      var n :| n in rest;
      BelowTotal(n, least);
      if Below(n, least) {
        forall m | m in names - rest && m != least ensures Below(n, m) {
          BelowTransitive(n, least, m);
        }
        least := n;
      }
      rest := rest - {n};
    }
  }

  predicate Sorted(names: seq<Name>) {
    forall i, k :: 0 <= i < k < |names| ==> Below(names[i], names[k])
  }

  /** Exactly the stable files, in order, each once. */
  method ListStableFiles(entries: map<Name, File>, quietPeriod: int, now: Time) returns (names: seq<Name>)
    ensures forall n :: n in names <==> n in entries && Stable(n, entries[n], quietPeriod, now)
    ensures Sorted(names)
  {
    hide Below, Stable;
    var rest := set n | n in entries && Stable(n, entries[n], quietPeriod, now);
    names := [];
    while rest != {}
      invariant forall n :: n in names || n in rest <==> n in entries && Stable(n, entries[n], quietPeriod, now)
      invariant Sorted(names)
      invariant forall n, m :: n in names && m in rest ==> Below(n, m)
      decreases |rest|
    {
      var n := Least(rest);
      names := names + [n];
      rest := rest - {n};
    }
  }

  /** A sorted list names nothing twice. */
  lemma {:induction false} SortedDistinct(names: seq<Name>, i: nat, k: nat)
    requires Sorted(names) && i < k < |names|
    ensures names[i] != names[k]
  {
    assert Below(names[i], names[k]);
    NotBelowItself(names[i]);
  }

  lemma {:induction false} NotBelowItself(a: Name)
    ensures !Below(a, a)
    decreases |a|
  {
    if a != [] {
      NotBelowItself(a[1..]);
    }
  }
}
