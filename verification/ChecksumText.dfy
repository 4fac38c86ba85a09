/**
  The text of a checksum set: one line per member, ascending by path.

  The text is a sequence of code points; UTF-8 decoding is left to the host.  Which paths may be
  members, which paths collide and how many members there may be are the rules of a format.
 */
module ChecksumText {
  import opened Digests
  import opened Ordering
  import opened Wrappers

  datatype Record = Record(path: string, digest: string)

  datatype Rules = Rules(member: string -> bool, fold: string -> string, limit: nat)

  // ----- Lines

  /** The characters at which the host's line splitting breaks a text without carriage returns. */
  predicate IsBreak(c: char) {
    || c == '\n' || c == '\r' || c == '\U{0B}' || c == '\U{0C}' || c == '\U{1C}' || c == '\U{1D}' || c == '\U{1E}'
    || c == '\U{85}' || c == '\U{2028}' || c == '\U{2029}'
  }

  predicate Unbroken(s: string) {
    forall k :: 0 <= k < |s| ==> !IsBreak(s[k])
  }

  function FirstBreak(s: string): (k: nat)
    ensures k <= |s| && Unbroken(s[..k])
    ensures k < |s| ==> IsBreak(s[k])
  {
    if s == [] || IsBreak(s[0]) then 0
    else
      var k := FirstBreak(s[1..]);
      assert s[..k + 1] == [s[0]] + s[1..][..k];
      k + 1
  }

  function SplitLines(s: string): seq<string> {
    if s == [] then []
    else
      var k := FirstBreak(s);
      [s[..k]] + if k == |s| then [] else SplitLines(s[k + 1..])
  }

  lemma {:induction false} FirstBreakAt(line: string, b: char, rest: string)
    requires Unbroken(line) && IsBreak(b)
    ensures FirstBreak(line + [b] + rest) == |line|
    decreases |line|
  {
    var s := line + [b] + rest;
    if line != [] {
      assert s[1..] == line[1..] + [b] + rest;
      FirstBreakAt(line[1..], b, rest);
    }
  }

  lemma SplitFirst(line: string, b: char, rest: string)
    requires Unbroken(line) && IsBreak(b)
    ensures SplitLines(line + [b] + rest) == [line] + SplitLines(rest)
  {
    var s := line + [b] + rest;
    FirstBreakAt(line, b, rest);
    assert s[..|line|] == line && s[|line| + 1..] == rest;
  }

  function Breaks(s: string): nat {
    if s == [] then 0 else Breaks(s[..|s| - 1]) + if IsBreak(s[|s| - 1]) then 1 else 0
  }

  lemma {:induction false} BreaksConcat(a: string, b: string)
    ensures Breaks(a + b) == Breaks(a) + Breaks(b)
    decreases |b|
  {
    if b == [] {
      assert a + b == a;
    } else {
      BreaksConcat(a, b[..|b| - 1]);
      assert (a + b)[..|a + b| - 1] == a + b[..|b| - 1];
    }
  }

  lemma {:induction false} UnbrokenHasNone(s: string)
    ensures Unbroken(s) <==> Breaks(s) == 0
    decreases |s|
  {
    if s != [] {
      var front := s[..|s| - 1];
      UnbrokenHasNone(front);
      assert Unbroken(s) <==> Unbroken(front) && !IsBreak(s[|s| - 1]) by {
        assert s == front + [s[|s| - 1]];
        if Unbroken(s) { assert forall k :: 0 <= k < |front| ==> front[k] == s[k]; }
      }
    }
  }

  lemma BreaksOfOne(c: char)
    requires IsBreak(c)
    ensures Breaks([c]) == 1
  {
    assert [c][..0] == [];
  }

  lemma BreaksAround(line: string, c: char, rest: string)
    requires Unbroken(line) && IsBreak(c)
    ensures Breaks(line + [c] + rest) == 1 + Breaks(rest)
  {
    UnbrokenHasNone(line);
    BreaksOfOne(c);
    BreaksConcat(line, [c]);
    BreaksConcat(line + [c], rest);
  }

  /** A text that ends in a break has a line for each break. */
  lemma {:induction false} LinePerBreak(s: string)
    requires s != [] ==> IsBreak(s[|s| - 1])
    ensures |SplitLines(s)| == Breaks(s)
    decreases |s|
  {
    if s != [] {
      var k := FirstBreak(s);
      assert !Unbroken(s) && s[..|s|] == s;
      assert s == s[..k] + [s[k]] + s[k + 1..];
      BreaksAround(s[..k], s[k], s[k + 1..]);
      LinePerBreak(s[k + 1..]);
    }
  }

  // ----- One line

  predicate IsLine(line: string) {
    && |line| > 66
    && (forall k :: 0 <= k < 64 ==> IsHex(line[k]))
    && line[64] == ' ' && line[65] == ' '
    && (forall k :: 66 <= k < |line| ==> line[k] != '\r' && line[k] != '\n')
  }

  predicate AllLines(lines: seq<string>) {
    forall k :: 0 <= k < |lines| ==> IsLine(lines[k])
  }

  function Entry(line: string): Record
    requires IsLine(line)
  {
    Record(line[66..], PREFIX + line[..64])
  }

  function Line(r: Record): string
    requires IsDigest(r.digest)
  {
    r.digest[7..] + "  " + r.path
  }

  /** A printed line: the 64 hexadecimal digits of the digest, two spaces, the path. */
  lemma LineShape(r: Record, k: nat)
    requires IsDigest(r.digest) && k < |Line(r)|
    ensures |Line(r)| == 66 + |r.path|
    ensures Line(r)[k] == if k < 64 then r.digest[7 + k] else if k < 66 then ' ' else r.path[k - 66]
  {
  }

  predicate LineOk(rules: Rules, line: string) {
    IsLine(line) && rules.member(Entry(line).path)
  }

  lemma EntryOfLine(r: Record)
    requires IsDigest(r.digest) && r.path != "" && Unbroken(r.path)
    ensures IsLine(Line(r)) && Entry(Line(r)) == r && Unbroken(Line(r))
  {
    var line := Line(r);
    assert line[66..] == r.path && line[..64] == r.digest[7..];
    assert r.digest == r.digest[..7] + r.digest[7..];
    forall k | 0 <= k < |line| ensures !IsBreak(line[k]) && (k < 64 ==> IsHex(line[k])) {
      if k < 64 { assert line[k] == r.digest[k + 7]; } else if k >= 66 { assert line[k] == r.path[k - 66]; }
    }
  }

  lemma LineOfEntry(line: string)
    requires IsLine(line)
    ensures IsDigest(Entry(line).digest) && Line(Entry(line)) == line
  {
    var r := Entry(line);
    assert r.digest[..7] == PREFIX && r.digest[7..] == line[..64];
    forall k | 7 <= k < 71 ensures IsHex(r.digest[k]) { assert r.digest[k] == line[k - 7]; }
    assert line == line[..64] + "  " + line[66..];
  }

  // ----- Printing

  function PathKey(r: Record): Key {
    [r.path]
  }

  function Joined(rs: seq<Record>): string
    requires forall k :: 0 <= k < |rs| ==> IsDigest(rs[k].digest)
  {
    if rs == [] then "" else Line(rs[0]) + "\n" + Joined(rs[1..])
  }

  predicate Digested(rs: seq<Record>) {
    forall k :: 0 <= k < |rs| ==> IsDigest(rs[k].digest)
  }

  function SortedRecords(rs: seq<Record>): (r: seq<Record>)
    ensures |r| == |rs| && multiset(r) == multiset(rs)
    ensures Digested(rs) ==> Digested(r)
  {
    var r := SortBy(rs, PathKey);
    assert forall k :: 0 <= k < |r| ==> r[k] in multiset(r);
    r
  }

  /** The text of a set of records. */
  function Printed(rs: seq<Record>): string
    requires Digested(rs)
  {
    Joined(SortedRecords(rs))
  }

  // ----- Parsing

  function Folds(rules: Rules, lines: seq<string>): set<string>
    requires AllLines(lines)
  {
    set k | 0 <= k < |lines| :: rules.fold(Entry(lines[k]).path)
  }

  /** Every line is a member's, later lines sort after earlier ones, and no two paths collide. */
  ghost predicate Canonical(rules: Rules, lines: seq<string>) {
    && AllLines(lines) && (forall k :: 0 <= k < |lines| ==> rules.member(Entry(lines[k]).path))
    && (forall i, j :: 0 <= i < j < |lines| ==> Before(Entry(lines[i]).path, Entry(lines[j]).path))
    && (forall i, j :: 0 <= i < j < |lines| ==>
          rules.fold(Entry(lines[i]).path) != rules.fold(Entry(lines[j]).path))
  }

  function Entries(lines: seq<string>): (r: seq<Record>)
    requires AllLines(lines)
    ensures |r| == |lines| && forall k :: 0 <= k < |r| ==> r[k] == Entry(lines[k])
  {
    if lines == [] then [] else Entries(lines[..|lines| - 1]) + [Entry(lines[|lines| - 1])]
  }

  function AsMap(rs: seq<Record>): map<string, string> {
    if rs == [] then map[] else AsMap(rs[..|rs| - 1])[rs[|rs| - 1].path := rs[|rs| - 1].digest]
  }

  ghost predicate Parses(rules: Rules, text: string) {
    && text != "" && text[|text| - 1] == '\n' && '\r' !in text
    && |SplitLines(text)| <= rules.limit && Canonical(rules, SplitLines(text))
  }

  /** The map from member path to digest that a checksum text stands for. */
  ghost function Parsed(rules: Rules, text: string): Option<map<string, string>> {
    if Parses(rules, text) then Some(AsMap(Entries(SplitLines(text)))) else None
  }

  // ----- One more line

  /** What is checked of a line, given the line before it and the folded paths before it. */
  ghost predicate Extends(rules: Rules, lines: seq<string>, line: string)
    requires Canonical(rules, lines)
  {
    && LineOk(rules, line)
    && (lines != [] ==> Before(Entry(lines[|lines| - 1]).path, Entry(line).path))
    && rules.fold(Entry(line).path) !in Folds(rules, lines)
  }

  lemma CanonicalOneMore(rules: Rules, lines: seq<string>, line: string)
    requires Canonical(rules, lines)
    ensures Canonical(rules, lines + [line]) <==> Extends(rules, lines, line)
  {
    var longer := lines + [line];
    if Canonical(rules, longer) {
      assert AllLines(lines) && rules.member(Entry(longer[|lines|]).path);
      assert lines != [] ==> longer[|lines| - 1] == lines[|lines| - 1];
      forall k | 0 <= k < |lines| ensures rules.fold(Entry(lines[k]).path) != rules.fold(Entry(line).path) {
        assert longer[k] == lines[k] && longer[|lines|] == line;
      }
    } else if Extends(rules, lines, line) {
      forall i, j | 0 <= i < j < |longer|
        ensures Before(Entry(longer[i]).path, Entry(longer[j]).path)
        ensures rules.fold(Entry(longer[i]).path) != rules.fold(Entry(longer[j]).path)
      {
        if j == |lines| && i < |lines| - 1 {
          BeforeTransitive(Entry(lines[i]).path, Entry(lines[|lines| - 1]).path, Entry(line).path);
        }
      }
    }
  }

  lemma CanonicalPrefix(rules: Rules, lines: seq<string>, n: nat)
    requires n <= |lines| && Canonical(rules, lines)
    ensures Canonical(rules, lines[..n])
  {
  }

  lemma FoldsOneMore(rules: Rules, lines: seq<string>, line: string)
    requires AllLines(lines)
    requires IsLine(line)
    ensures Folds(rules, lines + [line]) == Folds(rules, lines) + {rules.fold(Entry(line).path)}
  {
    var longer := lines + [line];
    forall f | f in Folds(rules, lines) ensures f in Folds(rules, longer) {
      var k :| 0 <= k < |lines| && rules.fold(Entry(lines[k]).path) == f;
      assert longer[k] == lines[k];
    }
    assert longer[|lines|] == line;
  }

  lemma EntriesOneMore(lines: seq<string>, line: string)
    requires AllLines(lines)
    requires IsLine(line)
    ensures Entries(lines + [line]) == Entries(lines) + [Entry(line)]
  {
    assert (lines + [line])[..|lines|] == lines;
  }

  lemma AsMapOneMore(rs: seq<Record>, r: Record)
    ensures AsMap(rs + [r]) == AsMap(rs)[r.path := r.digest]
  {
    assert (rs + [r])[..|rs|] == rs;
  }

  lemma {:induction false} AsMapKeys(rs: seq<Record>, path: string)
    ensures path in AsMap(rs) <==> exists k :: 0 <= k < |rs| && rs[k].path == path
    decreases |rs|
  {
    if rs != [] {
      var front := rs[..|rs| - 1];
      AsMapKeys(front, path);
      if path in AsMap(front) {
        var k :| 0 <= k < |front| && front[k].path == path;
        assert rs[k].path == path;
      } else if exists k :: 0 <= k < |rs| && rs[k].path == path {
        var k :| 0 <= k < |rs| && rs[k].path == path;
        if k < |front| { assert front[k].path == path; }
      }
    }
  }

  ghost predicate DistinctPaths(rs: seq<Record>) {
    forall i, j :: 0 <= i < j < |rs| ==> rs[i].path != rs[j].path
  }

  /** With distinct paths the map has one key per record. */
  lemma {:induction false} AsMapSize(rs: seq<Record>)
    requires DistinctPaths(rs)
    ensures |AsMap(rs)| == |rs|
    decreases |rs|
  {
    if rs != [] {
      var front, last := rs[..|rs| - 1], rs[|rs| - 1];
      AsMapSize(front);
      AsMapKeys(front, last.path);
      assert AsMap(rs).Keys == AsMap(front).Keys + {last.path};
    }
  }

  /** With distinct paths the map holds exactly the records. */
  lemma {:induction false} AsMapHolds(rs: seq<Record>, path: string, digest: string)
    requires DistinctPaths(rs)
    ensures (path in AsMap(rs) && AsMap(rs)[path] == digest) <==> Record(path, digest) in rs
    decreases |rs|
  {
    if rs != [] {
      var front, last := rs[..|rs| - 1], rs[|rs| - 1];
      AsMapHolds(front, path, digest);
      assert rs == front + [last];
      forall r | r in front ensures r.path != last.path {
        var k :| 0 <= k < |front| && front[k] == r;
        assert rs[k] == r;
      }
      assert path == last.path ==> Record(path, digest) !in front;
    }
  }

  lemma AsMapWithin(a: seq<Record>, b: seq<Record>, path: string)
    requires DistinctPaths(a) && DistinctPaths(b) && multiset(a) == multiset(b)
    ensures path in AsMap(a) ==> path in AsMap(b) && AsMap(b)[path] == AsMap(a)[path]
  {
    if path in AsMap(a) {
      var r := Record(path, AsMap(a)[path]);
      AsMapHolds(a, path, r.digest);
      AsMapHolds(b, path, r.digest);
      assert r in multiset(a) <==> r in multiset(b);
    }
  }

  /** The map does not depend on the order of the records. */
  lemma AsMapPermuted(a: seq<Record>, b: seq<Record>)
    requires DistinctPaths(a) && DistinctPaths(b) && multiset(a) == multiset(b)
    ensures AsMap(a) == AsMap(b)
  {
    forall path
      ensures path in AsMap(a) <==> path in AsMap(b)
      ensures path in AsMap(a) && path in AsMap(b) ==> AsMap(a)[path] == AsMap(b)[path]
    {
      AsMapWithin(a, b, path);
      AsMapWithin(b, a, path);
    }
  }
}
