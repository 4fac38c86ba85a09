/**
  Printing and parsing checksum sets undo each other, and exactly when they do.
 */
module ChecksumLaws {
  import opened Wrappers
  import opened Ordering
  import opened ChecksumText
  import opened Digests
  import Collections

  ghost predicate DistinctFolds(rules: Rules, rs: seq<Record>) {
    forall i, j :: 0 <= i < j < |rs| ==> rules.fold(rs[i].path) != rules.fold(rs[j].path)
  }

  /** Records a format may store: some, not too many, all members, no two colliding. */
  ghost predicate Storable(rules: Rules, rs: seq<Record>) {
    && 0 < |rs| <= rules.limit && Digested(rs)
    && (forall k :: 0 <= k < |rs| ==> rules.member(rs[k].path))
    && DistinctFolds(rules, rs)
  }

  ghost predicate AllUnbroken(rs: seq<Record>) {
    forall k :: 0 <= k < |rs| ==> Unbroken(rs[k].path)
  }

  lemma FoldsDistinguish(rules: Rules, rs: seq<Record>)
    requires DistinctFolds(rules, rs)
    ensures DistinctPaths(rs)
  {
  }

  // ----- Sorted records

  lemma KeyOfPath(a: string, b: string)
    ensures KeyBefore([a], [b]) <==> Before(a, b)
  {
  }

  lemma SortedAscends(rs: seq<Record>)
    requires DistinctPaths(rs)
    ensures Ascending(SortedRecords(rs), PathKey) && DistinctPaths(SortedRecords(rs))
  {
    var sorted := SortedRecords(rs);
    SortBySorted(rs, PathKey);
    DistinctPermuted(rs, sorted);
    SortedDistinctAscending(sorted, PathKey);
  }

  function PathOf(r: Record): string {
    r.path
  }

  /** Distinctness of paths is a property of the collection, not of its order. */
  lemma DistinctPermuted(a: seq<Record>, b: seq<Record>)
    requires DistinctPaths(a) && multiset(a) == multiset(b)
    ensures DistinctPaths(b)
  {
    assert forall i, j :: 0 <= i < j < |a| ==> PathOf(a[i]) != PathOf(a[j]);
    Collections.DistinctAlong(PathOf, a, b);
    forall i, j | 0 <= i < j < |b| ensures b[i].path != b[j].path {
      assert PathOf(b[i]) != PathOf(b[j]);
    }
  }

  lemma MembersKept(rs: seq<Record>, r: Record)
    ensures r in SortedRecords(rs) <==> r in rs
  {
    var sorted := SortedRecords(rs);
    assert r in sorted <==> r in multiset(sorted);
    assert r in rs <==> r in multiset(rs);
  }

  lemma SortedMembers(rs: seq<Record>)
    ensures forall r :: r in SortedRecords(rs) <==> r in rs
  {
    forall r ensures r in SortedRecords(rs) <==> r in rs { MembersKept(rs, r); }
  }

  // ----- The order of the records does not matter

  /** The printed text depends on the collection of records alone. */
  lemma PrintIgnoresOrder(a: seq<Record>, b: seq<Record>)
    requires Digested(a) && Digested(b) && DistinctPaths(a) && multiset(a) == multiset(b)
    ensures Printed(a) == Printed(b)
  {
    DistinctPermuted(a, b);
    SortedAscends(a);
    SortedAscends(b);
    forall r ensures r in Elements(SortedRecords(a)) <==> r in Elements(SortedRecords(b)) {
      MembersKept(a, r);
      MembersKept(b, r);
      assert r in a <==> r in multiset(a);
      assert r in b <==> r in multiset(b);
    }
    AscendingUnique(SortedRecords(a), SortedRecords(b), PathKey);
  }

  // ----- Parsing what was printed

  function Lines(rs: seq<Record>): seq<string>
    requires Digested(rs)
  {
    if rs == [] then [] else [Line(rs[0])] + Lines(rs[1..])
  }

  lemma {:induction false} LinesAt(rs: seq<Record>, k: nat)
    requires Digested(rs)
    ensures |Lines(rs)| == |rs| && (k < |rs| ==> Lines(rs)[k] == Line(rs[k]))
  {
    if rs != [] { LinesAt(rs[1..], if k == 0 then 0 else k - 1); }
  }

  lemma {:induction false} SplitJoined(rs: seq<Record>)
    requires Digested(rs) && AllUnbroken(rs) && forall k :: 0 <= k < |rs| ==> rs[k].path != ""
    ensures SplitLines(Joined(rs)) == Lines(rs)
  {
    if rs != [] {
      SplitJoined(rs[1..]);
      EntryOfLine(rs[0]);
      SplitFirst(Line(rs[0]), '\n', Joined(rs[1..]));
      assert Joined(rs) == Line(rs[0]) + ['\n'] + Joined(rs[1..]);
    }
  }

  lemma {:induction false} JoinedEnds(rs: seq<Record>)
    requires Digested(rs)
    ensures rs != [] ==> Joined(rs) != "" && Joined(rs)[|Joined(rs)| - 1] == '\n'
  {
    if |rs| > 1 { JoinedEnds(rs[1..]); }
  }

  lemma {:induction false} JoinedHasNoReturn(rs: seq<Record>)
    requires Digested(rs) && AllUnbroken(rs)
    ensures '\r' !in Joined(rs)
  {
    if rs != [] {
      JoinedHasNoReturn(rs[1..]);
      LineBreaks(rs[0]);
      UnbrokenHasNone(rs[0].path);
      UnbrokenHasNone(Line(rs[0]));
      assert '\r' !in Line(rs[0]) + "\n";
    }
  }

  /** A printed line breaks where its path does. */
  lemma LineBreaks(r: Record)
    requires IsDigest(r.digest)
    ensures Breaks(Line(r)) == Breaks(r.path)
  {
    var hex := r.digest[7..] + "  ";
    forall k | 0 <= k < |hex| ensures !IsBreak(hex[k]) {
      if k < 64 { assert hex[k] == r.digest[k + 7]; }
    }
    UnbrokenHasNone(hex);
    BreaksConcat(hex, r.path);
  }

  predicate Listed(rules: Rules, rs: seq<Record>) {
    forall k :: 0 <= k < |rs| ==> rs[k].path != "" && rules.member(rs[k].path)
  }

  lemma EntriesOfLines(rs: seq<Record>)
    requires Digested(rs) && AllUnbroken(rs) && forall k :: 0 <= k < |rs| ==> rs[k].path != ""
    ensures |Lines(rs)| == |rs| && AllLines(Lines(rs)) && Entries(Lines(rs)) == rs
  {
    LinesAt(rs, 0);
    forall k | 0 <= k < |rs| ensures IsLine(Lines(rs)[k]) && Entry(Lines(rs)[k]) == rs[k] {
      LinesAt(rs, k);
      EntryOfLine(rs[k]);
    }
  }

  lemma CanonicalLines(rules: Rules, rs: seq<Record>)
    requires Digested(rs) && AllUnbroken(rs) && Ascending(rs, PathKey) && DistinctFolds(rules, rs)
    requires Listed(rules, rs)
    ensures Canonical(rules, Lines(rs)) && Entries(Lines(rs)) == rs
  {
    EntriesOfLines(rs);
    var lines := Lines(rs);
    assert forall k :: 0 <= k < |rs| ==> Entry(lines[k]) == Entries(lines)[k];
    forall i, j | 0 <= i < j < |rs| ensures Before(Entry(lines[i]).path, Entry(lines[j]).path) {
      KeyOfPath(rs[i].path, rs[j].path);
    }
  }

  /** Sorting keeps what makes records storable. */
  lemma StorableSorted(rules: Rules, rs: seq<Record>)
    requires Storable(rules, rs)
    ensures Storable(rules, SortedRecords(rs)) && (AllUnbroken(rs) <==> AllUnbroken(SortedRecords(rs)))
  {
    var sorted := SortedRecords(rs);
    FoldsDistinguish(rules, rs);
    DistinctPermuted(rs, sorted);
    forall k | 0 <= k < |sorted| ensures sorted[k] in rs { MembersKept(rs, sorted[k]); }
    forall k | 0 <= k < |rs| ensures rs[k] in sorted { MembersKept(rs, rs[k]); }
    forall i, j | 0 <= i < j < |sorted| ensures rules.fold(sorted[i].path) != rules.fold(sorted[j].path) {
      FoldsApart(rules, rs, sorted[i], sorted[j]);
    }
  }

  lemma FoldsApart(rules: Rules, rs: seq<Record>, r: Record, s: Record)
    requires DistinctFolds(rules, rs) && r in rs && s in rs && r.path != s.path
    ensures rules.fold(r.path) != rules.fold(s.path)
  {
  }

  lemma ParsesUnbroken(rules: Rules, rs: seq<Record>)
    requires Storable(rules, rs) && AllUnbroken(rs) && !rules.member("")
    ensures Parsed(rules, Printed(rs)) == Some(AsMap(rs))
  {
    var sorted := SortedRecords(rs);
    StorableSorted(rules, rs);
    FoldsDistinguish(rules, rs);
    SortedAscends(rs);
    SplitJoined(sorted);
    LinesAt(sorted, 0);
    CanonicalLines(rules, sorted);
    JoinedEnds(sorted);
    JoinedHasNoReturn(sorted);
    AsMapPermuted(sorted, rs);
  }

  // ----- When a path breaks

  /** A text has at least a break per record, and more exactly when some path breaks. */
  lemma {:induction false} JoinedBreaks(rs: seq<Record>)
    requires Digested(rs)
    ensures Breaks(Joined(rs)) >= |rs|
    ensures Breaks(Joined(rs)) == |rs| <==> AllUnbroken(rs)
  {
    if rs != [] {
      var rest := rs[1..];
      JoinedBreaks(rest);
      LineBreaks(rs[0]);
      UnbrokenHasNone(rs[0].path);
      BreaksOfOne('\n');
      BreaksConcat(Line(rs[0]), "\n");
      BreaksConcat(Line(rs[0]) + "\n", Joined(rest));
      assert AllUnbroken(rs) <==> Unbroken(rs[0].path) && AllUnbroken(rest) by {
        if Unbroken(rs[0].path) && AllUnbroken(rest) {
          forall k | 0 <= k < |rs| ensures Unbroken(rs[k].path) {
            if k > 0 { assert rest[k - 1] == rs[k]; }
          }
        }
        if AllUnbroken(rs) { assert forall k :: 0 <= k < |rest| ==> rest[k] == rs[k + 1]; }
      }
    }
  }

  lemma CanonicalDistinct(rules: Rules, lines: seq<string>)
    requires Canonical(rules, lines)
    ensures DistinctPaths(Entries(lines))
  {
    var rs := Entries(lines);
    forall i, j | 0 <= i < j < |rs| ensures rs[i].path != rs[j].path {
      assert Before(Entry(lines[i]).path, Entry(lines[j]).path);
      BeforeIrreflexive(rs[i].path);
    }
  }

  /** An accepted text has one member per break. */
  lemma MembersAreBreaks(rules: Rules, text: string)
    requires Parses(rules, text)
    ensures |Parsed(rules, text).value| == Breaks(text)
  {
    var lines := SplitLines(text);
    LinePerBreak(text);
    CanonicalDistinct(rules, lines);
    AsMapSize(Entries(lines));
  }

  /**
    Parsing a printed set gives back the set exactly when no path contains a line-breaking character.
   */
  lemma ParseOfPrint(rules: Rules, rs: seq<Record>)
    requires Storable(rules, rs) && !rules.member("")
    ensures Parsed(rules, Printed(rs)) == Some(AsMap(rs)) <==> AllUnbroken(rs)
  {
    if AllUnbroken(rs) {
      ParsesUnbroken(rules, rs);
    } else if Parsed(rules, Printed(rs)) == Some(AsMap(rs)) {
      MembersAreBreaks(rules, Printed(rs));
      FoldsDistinguish(rules, rs);
      AsMapSize(rs);
      StorableSorted(rules, rs);
      JoinedBreaks(SortedRecords(rs));
    }
  }

  // ----- Printing what was parsed

  predicate OnlyFeeds(text: string) {
    forall k :: 0 <= k < |text| && IsBreak(text[k]) ==> text[k] == '\n'
  }

  function JoinLines(lines: seq<string>): string {
    if lines == [] then "" else lines[0] + "\n" + JoinLines(lines[1..])
  }

  lemma {:induction false} JoinOfSplit(text: string)
    requires text == "" || text[|text| - 1] == '\n'
    ensures JoinLines(SplitLines(text)) == text <==> OnlyFeeds(text)
    ensures |JoinLines(SplitLines(text))| == |text|
    decreases |text|
  {
    if text != "" {
      var k := FirstBreak(text);
      assert !Unbroken(text) && text[..|text|] == text;
      var line, rest := text[..k], text[k + 1..];
      assert text == line + [text[k]] + rest;
      JoinOfSplit(rest);
      assert SplitLines(text) == [line] + SplitLines(rest);
      var joined := JoinLines(SplitLines(text));
      assert joined == line + "\n" + JoinLines(SplitLines(rest));
      FeedsApart(line, text[k], rest);
      if joined == text {
        assert joined[k] == '\n' && joined[k + 1..] == JoinLines(SplitLines(rest));
      }
    }
  }

  lemma FeedsApart(line: string, c: char, rest: string)
    requires Unbroken(line) && IsBreak(c)
    ensures OnlyFeeds(line + [c] + rest) <==> c == '\n' && OnlyFeeds(rest)
  {
    var text := line + [c] + rest;
    if OnlyFeeds(text) {
      assert text[|line|] == c;
      forall k | 0 <= k < |rest| && IsBreak(rest[k]) ensures rest[k] == '\n' {
        assert text[|line| + 1 + k] == rest[k];
      }
    }
  }

  lemma {:induction false} JoinedEntries(rules: Rules, lines: seq<string>)
    requires Canonical(rules, lines)
    ensures Digested(Entries(lines)) && Joined(Entries(lines)) == JoinLines(lines)
    decreases |lines|
  {
    forall k | 0 <= k < |lines| ensures IsDigest(Entries(lines)[k].digest) {
      LineOfEntry(lines[k]);
    }
    if lines != [] {
      LineOfEntry(lines[0]);
      assert Entries(lines)[1..] == Entries(lines[1..]);
      JoinedEntries(rules, lines[1..]);
    }
  }

  /**
    Printing the members of an accepted text gives back the text exactly when line feeds are its only
    line breaks.
   */
  lemma PrintOfParse(rules: Rules, text: string)
    requires Parses(rules, text)
    ensures Digested(Entries(SplitLines(text)))
    ensures Printed(Entries(SplitLines(text))) == text <==> OnlyFeeds(text)
  {
    var lines := SplitLines(text);
    var rs := Entries(lines);
    JoinedEntries(rules, lines);
    JoinOfSplit(text);
    forall i, j | 0 <= i < j < |rs| ensures !KeyBefore(PathKey(rs[j]), PathKey(rs[i])) {
      assert Before(Entry(lines[i]).path, Entry(lines[j]).path);
      KeyOfPath(rs[j].path, rs[i].path);
      if Before(rs[j].path, rs[i].path) {
        BeforeTransitive(rs[j].path, rs[i].path, rs[j].path);
        BeforeIrreflexive(rs[j].path);
      }
    }
    SortOfSorted(rs, PathKey);
  }

  // ----- Steps of the host's loops

  lemma {:induction false} JoinedOneMore(rs: seq<Record>, r: Record)
    requires Digested(rs) && IsDigest(r.digest)
    ensures Digested(rs + [r]) && Joined(rs + [r]) == Joined(rs) + Line(r) + "\n"
  {
    if rs == [] {
      assert [r][1..] == [];
    } else {
      JoinedOneMore(rs[1..], r);
      assert (rs + [r])[1..] == rs[1..] + [r];
    }
  }

  /** What reading line `n` adds to what the lines before it have shown. */
  lemma OneMoreLine(rules: Rules, lines: seq<string>, n: nat)
    requires n < |lines| && Canonical(rules, lines[..n])
    ensures !Extends(rules, lines[..n], lines[n]) ==> !Canonical(rules, lines)
    ensures Extends(rules, lines[..n], lines[n]) ==>
      && Canonical(rules, lines[..n + 1])
      && AsMap(Entries(lines[..n + 1])) == AsMap(Entries(lines[..n]))[Entry(lines[n]).path := Entry(lines[n]).digest]
      && |AsMap(Entries(lines[..n + 1]))| == n + 1
      && Folds(rules, lines[..n + 1]) == Folds(rules, lines[..n]) + {rules.fold(Entry(lines[n]).path)}
  {
    var front, line := lines[..n], lines[n];
    assert lines[..n + 1] == front + [line];
    CanonicalOneMore(rules, front, line);
    if Extends(rules, front, line) {
      EntriesOneMore(front, line);
      AsMapOneMore(Entries(front), Entry(line));
      FoldsOneMore(rules, front, line);
      CanonicalDistinct(rules, front + [line]);
      AsMapSize(Entries(front + [line]));
    } else if Canonical(rules, lines) {
      CanonicalPrefix(rules, lines, n + 1);
    }
  }
}
