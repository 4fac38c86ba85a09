/**
  The path registrar of the ZIP extractor, and the tree its accepted paths publish.

  A registrar sees one entry at a time and decides from four collections of joined, case-folded
  strings.  Its reference is pairwise and speaks of component lists only: entries are compatible
  when they name different folded paths, spell every shared folded prefix alike, and no file is a
  proper prefix of the other.
 */
module ArchivePaths {
  import opened PathText

  datatype Entry = Entry(parts: seq<string>, directory: bool)

  // ----- Joined spellings and folded identities

  /** Case folding replaces each character on its own; the Unicode table is a parameter. */
  function Casefold(fold: char -> string, s: string): string {
    if s == [] then [] else fold(s[0]) + Casefold(fold, s[1..])
  }

  /** The separator folds to itself and no other character folds to something containing it. */
  ghost predicate KeepsSeparator(fold: char -> string) {
    fold('/') == "/" && forall c: char :: c != '/' ==> '/' !in fold(c)
  }

  predicate PathParts(parts: seq<string>) {
    parts != [] && forall i :: 0 <= i < |parts| ==> '/' !in parts[i]
  }

  function Identity(fold: char -> string, parts: seq<string>): string {
    Casefold(fold, Join(parts))
  }

  /** The folded components: a path on a file system that ignores case. */
  function Folded(fold: char -> string, parts: seq<string>): (r: seq<string>)
    ensures |r| == |parts|
  {
    if parts == [] then [] else [Casefold(fold, parts[0])] + Folded(fold, parts[1..])
  }

  lemma {:induction false} CasefoldConcat(fold: char -> string, a: string, b: string)
    ensures Casefold(fold, a + b) == Casefold(fold, a) + Casefold(fold, b)
  {
    if a == [] {
      assert a + b == b;
    } else {
      assert (a + b)[1..] == a[1..] + b;
      CasefoldConcat(fold, a[1..], b);
    }
  }

  lemma {:induction false} CasefoldNoSeparator(fold: char -> string, s: string)
    requires KeepsSeparator(fold) && '/' !in s
    ensures '/' !in Casefold(fold, s)
  {
    if s != [] { CasefoldNoSeparator(fold, s[1..]); }
  }

  lemma {:induction false} FoldedIsPath(fold: char -> string, parts: seq<string>)
    requires KeepsSeparator(fold) && PathParts(parts)
    ensures PathParts(Folded(fold, parts))
    ensures Identity(fold, parts) == Join(Folded(fold, parts))
  {
    CasefoldNoSeparator(fold, parts[0]);
    if |parts| > 1 {
      var rest := parts[1..];
      FoldedIsPath(fold, rest);
      CasefoldConcat(fold, parts[0] + "/", Join(rest));
      CasefoldConcat(fold, parts[0], "/");
      assert Casefold(fold, "/") == "/" by { assert "/"[1..] == ""; }
    }
  }

  lemma {:induction false} FoldedPrefix(fold: char -> string, parts: seq<string>, k: nat)
    requires k <= |parts|
    ensures Folded(fold, parts[..k]) == Folded(fold, parts)[..k]
  {
    if k > 0 {
      assert parts[..k][1..] == parts[1..][..k - 1];
      FoldedPrefix(fold, parts[1..], k - 1);
    }
  }

  lemma HeadOfConcat(a: string, x: string)
    ensures a == "" ==> a + x == x
    ensures a != "" ==> |a + x| > 0 && (a + x)[0] == a[0] && a[0] in a
  {
  }

  /** A separator-free head is recovered from a joined string. */
  lemma {:induction false} SplitHead(a: string, b: string, x: string, y: string)
    requires '/' !in a && '/' !in b
    requires x == "" || x[0] == '/'
    requires y == "" || y[0] == '/'
    requires a + x == b + y
    ensures a == b && x == y
  {
    HeadOfConcat(a, x);
    HeadOfConcat(b, y);
    if a != "" && b != "" {
      assert (a + x)[1..] == a[1..] + x && (b + y)[1..] == b[1..] + y;
      SplitHead(a[1..], b[1..], x, y);
      assert a == [a[0]] + a[1..] && b == [b[0]] + b[1..];
    }
  }

  lemma {:induction false} JoinInjective(a: seq<string>, b: seq<string>)
    requires PathParts(a) && PathParts(b)
    requires Join(a) == Join(b)
    ensures a == b
  {
    var x := if |a| == 1 then "" else "/" + Join(a[1..]);
    var y := if |b| == 1 then "" else "/" + Join(b[1..]);
    assert a[0] + x == Join(a) && b[0] + y == Join(b);
    SplitHead(a[0], b[0], x, y);
    assert a == [a[0]] + a[1..] && b == [b[0]] + b[1..];
    if x != "" {
      assert x[1..] == Join(a[1..]) && y[1..] == Join(b[1..]);
      JoinInjective(a[1..], b[1..]);
    }
  }

  /** Two paths share an identity string exactly when they fold to the same components. */
  lemma IdentityIsFoldedPath(fold: char -> string, a: seq<string>, b: seq<string>)
    requires KeepsSeparator(fold) && PathParts(a) && PathParts(b)
    ensures Identity(fold, a) == Identity(fold, b) <==> Folded(fold, a) == Folded(fold, b)
  {
    FoldedIsPath(fold, a);
    FoldedIsPath(fold, b);
    if Identity(fold, a) == Identity(fold, b) {
      JoinInjective(Folded(fold, a), Folded(fold, b));
    }
  }

  // ----- The reference: pairwise compatible entries

  ghost predicate SpelledAlike(fold: char -> string, a: seq<string>, b: seq<string>) {
    forall k :: 0 <= k <= |a| && k <= |b| && Folded(fold, a)[..k] == Folded(fold, b)[..k]
      ==> a[..k] == b[..k]
  }

  ghost predicate Compatible(fold: char -> string, a: Entry, b: Entry) {
    && Folded(fold, a.parts) != Folded(fold, b.parts)
    && SpelledAlike(fold, a.parts, b.parts)
    && (!a.directory ==> !(Folded(fold, a.parts) < Folded(fold, b.parts)))
    && (!b.directory ==> !(Folded(fold, b.parts) < Folded(fold, a.parts)))
  }

  ghost predicate Acceptable(fold: char -> string, entries: seq<Entry>) {
    forall i, j :: 0 <= i < j < |entries| ==> Compatible(fold, entries[i], entries[j])
  }

  lemma CompatibleSymmetric(fold: char -> string, a: Entry, b: Entry)
    ensures Compatible(fold, a, b) <==> Compatible(fold, b, a)
  {
  }

  /** An element that occurs twice has two positions. */
  lemma {:induction false} TwoPositions<T>(xs: seq<T>, x: T) returns (i: nat, j: nat)
    requires multiset(xs)[x] >= 2
    ensures i < j < |xs| && xs[i] == x && xs[j] == x
  {
    assert xs == [xs[0]] + xs[1..];
    if xs[0] == x {
      assert x in xs[1..];
      var k :| 0 <= k < |xs[1..]| && xs[1..][k] == x;
      i, j := 0, k + 1;
    } else {
      var p, q := TwoPositions(xs[1..], x);
      i, j := p + 1, q + 1;
    }
  }

  lemma {:induction false} CountTwo<T>(xs: seq<T>, i: nat, j: nat)
    requires i < j < |xs| && xs[i] == xs[j]
    ensures multiset(xs)[xs[i]] >= 2
  {
    assert xs == xs[..j] + xs[j..];
    assert xs[i] in xs[..j] && xs[j..][0] in xs[j..];
  }

  /** The order in which archives list their members never decides acceptance. */
  lemma AcceptanceIgnoresOrder(fold: char -> string, a: seq<Entry>, b: seq<Entry>)
    requires multiset(a) == multiset(b)
    ensures Acceptable(fold, a) <==> Acceptable(fold, b)
  {
    if Acceptable(fold, a) { AcceptableReordered(fold, a, b); }
    if Acceptable(fold, b) { AcceptableReordered(fold, b, a); }
  }

  lemma AcceptableReordered(fold: char -> string, a: seq<Entry>, b: seq<Entry>)
    requires multiset(a) == multiset(b) && Acceptable(fold, a)
    ensures Acceptable(fold, b)
  {
    forall i, j | 0 <= i < j < |b| ensures Compatible(fold, b[i], b[j]) {
      if b[i] == b[j] {
        CountTwo(b, i, j);
        var p, q := TwoPositions(a, b[i]);
        assert Compatible(fold, a[p], a[q]);
      } else {
        assert b[i] in multiset(a) && b[j] in multiset(a);
        var p :| 0 <= p < |a| && a[p] == b[i];
        var q :| 0 <= q < |a| && a[q] == b[j];
        CompatibleSymmetric(fold, a[p], a[q]);
      }
    }
  }

  // ----- What the registrar remembers of a history

  function DirectoryDepth(e: Entry): int {
    if e.directory then |e.parts| else |e.parts| - 1
  }

  /** The identity and the spelling of the first k components. */
  function PrefixIdentity(fold: char -> string, parts: seq<string>, k: nat): string
    requires k <= |parts|
  {
    Identity(fold, parts[..k])
  }

  function PrefixSpelling(parts: seq<string>, k: nat): string
    requires k <= |parts|
  {
    Join(parts[..k])
  }

  ghost function PrefixIdentities(fold: char -> string, parts: seq<string>, n: nat): set<string>
    requires n <= |parts|
  {
    set k | 1 <= k <= n :: PrefixIdentity(fold, parts, k)
  }

  ghost function Spellings(fold: char -> string, parts: seq<string>, n: nat): map<string, string>
    requires n <= |parts|
  {
    if n == 0 then map[] else Spellings(fold, parts, n - 1)[PrefixIdentity(fold, parts, n) := PrefixSpelling(parts, n)]
  }

  ghost function EntryIds(fold: char -> string, h: seq<Entry>): set<string> {
    set e | e in h :: Identity(fold, e.parts)
  }

  ghost function FileIds(fold: char -> string, h: seq<Entry>): set<string> {
    set e | e in h && !e.directory :: Identity(fold, e.parts)
  }

  ghost function DirectoryIds(fold: char -> string, h: seq<Entry>): set<string>
    requires WellFormed(h)
  {
    if h == [] then {}
    else
      var last := h[|h| - 1];
      DirectoryIds(fold, h[..|h| - 1]) + PrefixIdentities(fold, last.parts, DirectoryDepth(last))
  }

  ghost function AllSpellings(fold: char -> string, h: seq<Entry>): map<string, string>
    requires WellFormed(h)
  {
    if h == [] then map[]
    else
      var last := h[|h| - 1];
      AllSpellings(fold, h[..|h| - 1]) + Spellings(fold, last.parts, |last.parts|)
  }

  /** The four collections a registrar keeps. */
  datatype Record = Record(
    entries: set<string>, files: set<string>, directories: set<string>, spellings: map<string, string>)

  ghost function RecordOf(fold: char -> string, h: seq<Entry>): Record
    requires WellFormed(h)
  {
    Record(EntryIds(fold, h), FileIds(fold, h), DirectoryIds(fold, h), AllSpellings(fold, h))
  }

  /** The collections after one more entry. */
  ghost function Extended(fold: char -> string, r: Record, e: Entry): Record
    requires PathParts(e.parts)
  {
    Record(
      r.entries + {Identity(fold, e.parts)},
      r.files + (if e.directory then {} else {Identity(fold, e.parts)}),
      r.directories + PrefixIdentities(fold, e.parts, DirectoryDepth(e)),
      r.spellings + Spellings(fold, e.parts, |e.parts|))
  }

  ghost predicate WellFormed(h: seq<Entry>) {
    forall i :: 0 <= i < |h| ==> PathParts(h[i].parts)
  }

  /** Prefix identities as folded prefixes, the bridge from strings to components. */
  lemma PrefixIsFoldedPrefix(fold: char -> string, a: seq<string>, k: nat, b: seq<string>, l: nat)
    requires KeepsSeparator(fold) && PathParts(a) && PathParts(b)
    requires 1 <= k <= |a| && 1 <= l <= |b|
    ensures PrefixIdentity(fold, a, k) == PrefixIdentity(fold, b, l)
      <==> k == l && Folded(fold, a)[..k] == Folded(fold, b)[..l]
  {
    IdentityIsFoldedPath(fold, a[..k], b[..l]);
    FoldedPrefix(fold, a, k);
    FoldedPrefix(fold, b, l);
  }

  lemma {:induction false} SpellingsContents(fold: char -> string, parts: seq<string>, n: nat)
    requires KeepsSeparator(fold) && PathParts(parts) && n <= |parts|
    ensures Spellings(fold, parts, n).Keys == PrefixIdentities(fold, parts, n)
    ensures forall k :: 1 <= k <= n ==>
      && PrefixIdentity(fold, parts, k) in Spellings(fold, parts, n)
      && Spellings(fold, parts, n)[PrefixIdentity(fold, parts, k)] == PrefixSpelling(parts, k)
  {
    if n > 0 {
      SpellingsContents(fold, parts, n - 1);
      forall k | 1 <= k < n ensures PrefixIdentity(fold, parts, k) != PrefixIdentity(fold, parts, n) {
        PrefixIsFoldedPrefix(fold, parts, k, parts, n);
      }
    }
  }

  lemma SpellingsStep(fold: char -> string, known: map<string, string>, parts: seq<string>, n: nat)
    requires KeepsSeparator(fold) && PathParts(parts) && 1 <= n <= |parts|
    ensures PrefixIdentity(fold, parts, n) !in Spellings(fold, parts, n - 1)
    ensures (known + Spellings(fold, parts, n - 1))[PrefixIdentity(fold, parts, n) := PrefixSpelling(parts, n)]
         == known + Spellings(fold, parts, n)
  {
    SpellingsContents(fold, parts, n - 1);
    forall k | 1 <= k < n ensures PrefixIdentity(fold, parts, k) != PrefixIdentity(fold, parts, n) {
      PrefixIsFoldedPrefix(fold, parts, k, parts, n);
    }
  }

  /** The next prefix is looked up among what was known before the path, and then entered. */
  lemma NextPrefix(
    fold: char -> string, known: map<string, string>, now: map<string, string>, parts: seq<string>, n: nat)
    requires KeepsSeparator(fold) && PathParts(parts) && 1 <= n <= |parts|
    requires now == known + Spellings(fold, parts, n - 1)
    ensures PrefixIdentity(fold, parts, n) == Casefold(fold, Join(parts[..n]))
    ensures PrefixSpelling(parts, n) == Join(parts[..n])
    ensures PrefixIdentity(fold, parts, n) in now <==> PrefixIdentity(fold, parts, n) in known
    ensures PrefixIdentity(fold, parts, n) in known ==>
      now[PrefixIdentity(fold, parts, n)] == known[PrefixIdentity(fold, parts, n)]
    ensures now[PrefixIdentity(fold, parts, n) := PrefixSpelling(parts, n)] == known + Spellings(fold, parts, n)
  {
    SpellingsStep(fold, known, parts, n);
  }

  lemma {:induction false} DirectoryIdsContents(fold: char -> string, h: seq<Entry>, id: string)
    requires WellFormed(h)
    ensures id in DirectoryIds(fold, h)
      <==> exists i :: 0 <= i < |h| && id in PrefixIdentities(fold, h[i].parts, DirectoryDepth(h[i]))
  {
    if h != [] {
      var init := h[..|h| - 1];
      DirectoryIdsContents(fold, init, id);
      assert forall i :: 0 <= i < |init| ==> init[i] == h[i];
    }
  }

  /** In an acceptable history every prefix identity has exactly one spelling on record. */
  lemma {:induction false} AllSpellingsContents(fold: char -> string, h: seq<Entry>, id: string)
    requires KeepsSeparator(fold) && WellFormed(h) && Acceptable(fold, h)
    ensures id in AllSpellings(fold, h)
      <==> exists i :: 0 <= i < |h| && id in PrefixIdentities(fold, h[i].parts, |h[i].parts|)
    ensures forall i, k :: 0 <= i < |h| && 1 <= k <= |h[i].parts| && id == PrefixIdentity(fold, h[i].parts, k) ==>
      && id in AllSpellings(fold, h)
      && AllSpellings(fold, h)[id] == PrefixSpelling(h[i].parts, k)
  {
    if h != [] {
      var init, last := h[..|h| - 1], h[|h| - 1];
      AllSpellingsContents(fold, init, id);
      SpellingsContents(fold, last.parts, |last.parts|);
      assert forall i :: 0 <= i < |init| ==> init[i] == h[i];
      forall i, k | 0 <= i < |h| && 1 <= k <= |h[i].parts| && id == PrefixIdentity(fold, h[i].parts, k)
        ensures id in AllSpellings(fold, h) && AllSpellings(fold, h)[id] == PrefixSpelling(h[i].parts, k)
      {
        if i < |init| && id in PrefixIdentities(fold, last.parts, |last.parts|) {
          var l :| 1 <= l <= |last.parts| && id == PrefixIdentity(fold, last.parts, l);
          PrefixIsFoldedPrefix(fold, h[i].parts, k, last.parts, l);
          assert Compatible(fold, h[i], last);
        }
      }
    }
  }

  // ----- The four checks of one registration, over the collections it keeps

  ghost predicate SpellingsMatch(fold: char -> string, known: map<string, string>, parts: seq<string>) {
    forall k :: 1 <= k <= |parts| && PrefixIdentity(fold, parts, k) in known
      ==> known[PrefixIdentity(fold, parts, k)] == PrefixSpelling(parts, k)
  }

  ghost predicate Passes(fold: char -> string, r: Record, e: Entry)
    requires PathParts(e.parts)
  {
    && SpellingsMatch(fold, r.spellings, e.parts)
    && Identity(fold, e.parts) !in r.entries
    && PrefixIdentities(fold, e.parts, DirectoryDepth(e)) !! r.files
    && (!e.directory ==> Identity(fold, e.parts) !in r.directories)
  }

  lemma WholePrefix<T>(xs: seq<T>)
    ensures xs[..|xs|] == xs
  {
  }

  lemma PassesImpliesSpelledAlike(fold: char -> string, h: seq<Entry>, e: Entry, i: nat)
    requires KeepsSeparator(fold) && WellFormed(h) && PathParts(e.parts) && Acceptable(fold, h) && i < |h|
    requires SpellingsMatch(fold, AllSpellings(fold, h), e.parts)
    ensures SpelledAlike(fold, h[i].parts, e.parts)
  {
    var p, q := h[i].parts, e.parts;
    forall k | 0 <= k <= |p| && k <= |q| && Folded(fold, p)[..k] == Folded(fold, q)[..k]
      ensures p[..k] == q[..k]
    {
      if k > 0 {
        PrefixIsFoldedPrefix(fold, p, k, q, k);
        AllSpellingsContents(fold, h, PrefixIdentity(fold, q, k));
        JoinInjective(p[..k], q[..k]);
      }
    }
  }

  /** A folded proper prefix shows up among the proper prefix identities. */
  lemma FoldedPrefixIsRecorded(fold: char -> string, p: seq<string>, q: seq<string>)
    requires KeepsSeparator(fold) && PathParts(p) && PathParts(q)
    requires Folded(fold, p) < Folded(fold, q)
    ensures Identity(fold, p) in PrefixIdentities(fold, q, |q| - 1)
  {
    WholePrefix(p);
    PrefixIsFoldedPrefix(fold, p, |p|, q, |p|);
    WholePrefix(Folded(fold, p));
    assert PrefixIdentity(fold, q, |p|) in PrefixIdentities(fold, q, |q| - 1);
  }

  lemma PassesImpliesCompatible(fold: char -> string, h: seq<Entry>, e: Entry, i: nat)
    requires KeepsSeparator(fold) && WellFormed(h) && PathParts(e.parts) && Acceptable(fold, h)
    requires Passes(fold, RecordOf(fold, h), e) && i < |h|
    ensures Compatible(fold, h[i], e)
  {
    var p := h[i].parts;
    PassesImpliesSpelledAlike(fold, h, e, i);
    IdentityIsFoldedPath(fold, p, e.parts);
    assert Identity(fold, p) in EntryIds(fold, h);
    if !h[i].directory {
      assert Identity(fold, p) in FileIds(fold, h);
      if Folded(fold, p) < Folded(fold, e.parts) { FoldedPrefixIsRecorded(fold, p, e.parts); }
    }
    if !e.directory {
      DirectoryIdsContents(fold, h, Identity(fold, e.parts));
      if Folded(fold, e.parts) < Folded(fold, p) { FoldedPrefixIsRecorded(fold, e.parts, p); }
    }
  }

  lemma CompatibleImpliesSpellingsMatch(fold: char -> string, h: seq<Entry>, e: Entry)
    requires KeepsSeparator(fold) && WellFormed(h) && PathParts(e.parts) && Acceptable(fold, h)
    requires forall i :: 0 <= i < |h| ==> SpelledAlike(fold, h[i].parts, e.parts)
    ensures SpellingsMatch(fold, AllSpellings(fold, h), e.parts)
  {
    forall k | 1 <= k <= |e.parts| && PrefixIdentity(fold, e.parts, k) in AllSpellings(fold, h)
      ensures AllSpellings(fold, h)[PrefixIdentity(fold, e.parts, k)] == PrefixSpelling(e.parts, k)
    {
      var id := PrefixIdentity(fold, e.parts, k);
      AllSpellingsContents(fold, h, id);
      var i :| 0 <= i < |h| && id in PrefixIdentities(fold, h[i].parts, |h[i].parts|);
      var l :| 1 <= l <= |h[i].parts| && id == PrefixIdentity(fold, h[i].parts, l);
      PrefixIsFoldedPrefix(fold, h[i].parts, l, e.parts, k);
    }
  }

  /** Conversely, a recorded proper prefix identity is a folded proper prefix. */
  lemma RecordedIsFoldedPrefix(fold: char -> string, p: seq<string>, q: seq<string>, n: nat)
    requires KeepsSeparator(fold) && PathParts(p) && PathParts(q) && n <= |q|
    requires Identity(fold, p) in PrefixIdentities(fold, q, n)
    ensures Folded(fold, p) <= Folded(fold, q) && |p| <= n
  {
    var k :| 1 <= k <= n && Identity(fold, p) == PrefixIdentity(fold, q, k);
    WholePrefix(p);
    WholePrefix(Folded(fold, p));
    PrefixIsFoldedPrefix(fold, p, |p|, q, k);
  }

  lemma CompatibleImpliesPasses(fold: char -> string, h: seq<Entry>, e: Entry)
    requires KeepsSeparator(fold) && WellFormed(h) && PathParts(e.parts) && Acceptable(fold, h)
    requires forall i :: 0 <= i < |h| ==> Compatible(fold, h[i], e)
    ensures Passes(fold, RecordOf(fold, h), e)
  {
    CompatibleImpliesSpellingsMatch(fold, h, e);
    forall i | 0 <= i < |h| ensures Identity(fold, h[i].parts) != Identity(fold, e.parts) {
      IdentityIsFoldedPath(fold, h[i].parts, e.parts);
    }
    forall i | 0 <= i < |h| && !h[i].directory
      ensures Identity(fold, h[i].parts) !in PrefixIdentities(fold, e.parts, DirectoryDepth(e))
    {
      if Identity(fold, h[i].parts) in PrefixIdentities(fold, e.parts, DirectoryDepth(e)) {
        RecordedIsFoldedPrefix(fold, h[i].parts, e.parts, DirectoryDepth(e));
      }
    }
    DirectoryIdsContents(fold, h, Identity(fold, e.parts));
    forall i | 0 <= i < |h| && !e.directory
      ensures Identity(fold, e.parts) !in PrefixIdentities(fold, h[i].parts, DirectoryDepth(h[i]))
    {
      if Identity(fold, e.parts) in PrefixIdentities(fold, h[i].parts, DirectoryDepth(h[i])) {
        RecordedIsFoldedPrefix(fold, e.parts, h[i].parts, DirectoryDepth(h[i]));
      }
    }
  }

  /** The four checks hold exactly when the longer history is still acceptable. */
  lemma ChecksDecideAcceptance(fold: char -> string, h: seq<Entry>, e: Entry)
    requires KeepsSeparator(fold) && WellFormed(h) && PathParts(e.parts) && Acceptable(fold, h)
    ensures Passes(fold, RecordOf(fold, h), e) <==> Acceptable(fold, h + [e])
  {
    var longer := h + [e];
    assert forall i :: 0 <= i < |h| ==> longer[i] == h[i];
    assert longer[|h|] == e;
    if Passes(fold, RecordOf(fold, h), e) {
      forall i, j | 0 <= i < j < |longer| ensures Compatible(fold, longer[i], longer[j]) {
        if j == |h| { PassesImpliesCompatible(fold, h, e, i); }
      }
    }
    if Acceptable(fold, longer) {
      forall i | 0 <= i < |h| ensures Compatible(fold, h[i], e) {
        assert Compatible(fold, longer[i], longer[|h|]);
      }
      CompatibleImpliesPasses(fold, h, e);
    }
  }

  // ----- The registrar

  class Registrar {
    const fold: char -> string
    var entryIdentities: set<string>
    var pathIdentities: set<string>
    var directoryIdentities: set<string>
    var pathSpellings: map<string, string>
    ghost var accepted: seq<Entry>

    ghost function Kept(): Record
      reads this
    {
      Record(entryIdentities, pathIdentities, directoryIdentities, pathSpellings)
    }

    ghost predicate Valid()
      reads this
    {
      && KeepsSeparator(fold)
      && WellFormed(accepted)
      && Acceptable(fold, accepted)
      && Kept() == RecordOf(fold, accepted)
    }

    constructor (fold: char -> string)
      requires KeepsSeparator(fold)
      ensures Valid() && accepted == [] && this.fold == fold
    {
      this.fold := fold;
      entryIdentities, pathIdentities, directoryIdentities, pathSpellings := {}, {}, {}, map[];
      accepted := [];
    }

    /** Enters every prefix of a path, unless one is already on record with another spelling. */
    method RecordPrefixes(parts: seq<string>) returns (ok: bool, identities: seq<string>)
      requires KeepsSeparator(fold) && PathParts(parts)
      modifies this`pathSpellings
      ensures ok <==> SpellingsMatch(fold, old(pathSpellings), parts)
      ensures ok ==> pathSpellings == old(pathSpellings) + Spellings(fold, parts, |parts|)
      ensures ok ==> |identities| == |parts|
      ensures ok ==> forall k :: 1 <= k <= |parts| ==> identities[k - 1] == PrefixIdentity(fold, parts, k)
    {
      ghost var known := pathSpellings;
      identities := [];
      var length := 1;
      while length <= |parts|
        invariant 1 <= length <= |parts| + 1 && |identities| == length - 1
        invariant forall k :: 1 <= k < length ==> identities[k - 1] == PrefixIdentity(fold, parts, k)
        invariant forall k :: 1 <= k < length && PrefixIdentity(fold, parts, k) in known ==>
          known[PrefixIdentity(fold, parts, k)] == PrefixSpelling(parts, k)
        invariant pathSpellings == known + Spellings(fold, parts, length - 1)
      {
        var spelling := Join(parts[..length]);
        var identity := Casefold(fold, spelling);
        NextPrefix(fold, known, pathSpellings, parts, length);
        if identity in pathSpellings && pathSpellings[identity] != spelling {
          return false, identities;
        }
        pathSpellings := pathSpellings[identity := spelling];
        identities := identities + [identity];
        length := length + 1;
      }
      return true, identities;
    }

    /** The checks and updates of one registration, in the order the extractor makes them. */
    method Enter(e: Entry) returns (ok: bool)
      requires KeepsSeparator(fold) && PathParts(e.parts)
      requires pathIdentities <= entryIdentities
      modifies this`entryIdentities, this`pathIdentities, this`directoryIdentities, this`pathSpellings
      ensures ok <==> Passes(fold, old(Kept()), e)
      ensures ok ==> Kept() == Extended(fold, old(Kept()), e)
    {
      WholePrefix(e.parts);
      var spelledAlike, identities := RecordPrefixes(e.parts);
      if !spelledAlike {
        return false;
      }
      var identity := identities[|identities| - 1];
      if identity in entryIdentities {
        return false;
      }
      entryIdentities := entryIdentities + {identity};
      var directoryParts := if e.directory then identities else identities[..|identities| - 1];
      var directorySet := set id | id in directoryParts;
      IdentitiesAsSet(fold, e.parts, directoryParts, DirectoryDepth(e));
      if directorySet * pathIdentities != {} {
        return false;
      }
      directoryIdentities := directoryIdentities + directorySet;
      if e.directory {
        return true;
      }
      OwnPrefixesDiffer(fold, e.parts);
      if identity in pathIdentities || identity in directoryIdentities {
        return false;
      }
      pathIdentities := pathIdentities + {identity};
      return true;
    }

    /** Accepts exactly the entries that keep the whole history acceptable. */
    method Register(e: Entry) returns (ok: bool)
      requires Valid() && PathParts(e.parts)
      modifies this
      ensures ok <==> Acceptable(fold, old(accepted) + [e])
      ensures ok ==> Valid() && accepted == old(accepted) + [e]
    {
      ChecksDecideAcceptance(fold, accepted, e);
      RecordExtended(fold, accepted, e);
      FilesAreEntries(fold, accepted);
      ok := Enter(e);
      accepted := accepted + [e];
    }
  }

  lemma IdentitiesAsSet(fold: char -> string, parts: seq<string>, ids: seq<string>, n: nat)
    requires n <= |parts| && |ids| == n
    requires forall k :: 1 <= k <= n ==> ids[k - 1] == PrefixIdentity(fold, parts, k)
    ensures (set id | id in ids) == PrefixIdentities(fold, parts, n)
  {
    forall id | id in ids ensures id in PrefixIdentities(fold, parts, n) {
      var i :| 0 <= i < n && ids[i] == id;
      assert ids[(i + 1) - 1] == PrefixIdentity(fold, parts, i + 1);
    }
    forall k | 1 <= k <= n ensures PrefixIdentity(fold, parts, k) in ids {
      assert ids[k - 1] in ids;
    }
  }

  /** A path never collides with its own parents. */
  lemma OwnPrefixesDiffer(fold: char -> string, parts: seq<string>)
    requires KeepsSeparator(fold) && PathParts(parts)
    ensures Identity(fold, parts) !in PrefixIdentities(fold, parts, |parts| - 1)
  {
    WholePrefix(parts);
    forall k | 1 <= k < |parts| ensures PrefixIdentity(fold, parts, k) != Identity(fold, parts) {
      PrefixIsFoldedPrefix(fold, parts, k, parts, |parts|);
    }
  }

  lemma FilesAreEntries(fold: char -> string, h: seq<Entry>)
    ensures FileIds(fold, h) <= EntryIds(fold, h)
  {
  }

  lemma RecordExtended(fold: char -> string, h: seq<Entry>, e: Entry)
    requires WellFormed(h) && PathParts(e.parts)
    ensures WellFormed(h + [e])
    ensures RecordOf(fold, h + [e]) == Extended(fold, RecordOf(fold, h), e)
  {
    assert (h + [e])[..|h|] == h;
    assert forall x :: x in h + [e] <==> x in h || x == e;
  }
}
