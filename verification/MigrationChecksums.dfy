/**
  The checksum set of a migration bundle: its closed member paths, its printer and its parser.
 */
module MigrationChecksums {
  import opened Wrappers
  import opened Ordering
  import opened ChecksumText
  import opened Digests
  import opened ChecksumLaws
  import opened MigrationMembers

  const MAX_MEMBER_COUNT := 10000

  /** Paths collide only when they are equal. */
  function MigrationRules(): (rules: Rules)
    ensures !rules.member("")
  {
    Rules(Member, (path: string) => path, MAX_MEMBER_COUNT)
  }

  /** A record of the source side, with the size the manifest needs. */
  datatype Sized = Sized(record: Record, sizeBytes: int)

  function Records(sized: seq<Sized>): (r: seq<Record>)
    ensures |r| == |sized| && forall k :: 0 <= k < |r| ==> r[k] == sized[k].record
  {
    if sized == [] then [] else [sized[0].record] + Records(sized[1..])
  }

  function SizedKey(s: Sized): Key {
    PathKey(s.record)
  }

  /** What the printer asks of one record. */
  predicate RecordOk(member: string -> bool, s: Sized) {
    member(s.record.path) && IsDigest(s.record.digest) && s.sizeBytes >= 0
  }

  /** What the printer asks of the records together. */
  ghost predicate Printable(member: string -> bool, sized: seq<Sized>) {
    (forall s :: s in sized ==> RecordOk(member, s)) && DistinctPaths(Records(sized))
  }

  ghost predicate Ordered(member: string -> bool, sorted: seq<Sized>) {
    && (forall k :: 0 <= k < |sorted| ==> RecordOk(member, sorted[k]))
    && (forall i, j :: 0 <= i < j < |sorted| ==> Before(sorted[i].record.path, sorted[j].record.path))
  }

  /** After sorting, ascending paths say that the records had distinct paths. */
  lemma OrderedMeansPrintable(member: string -> bool, sized: seq<Sized>)
    ensures Ordered(member, SortBy(sized, SizedKey)) <==> Printable(member, sized)
  {
    var sorted := SortBy(sized, SizedKey);
    SameMembers(sized, sorted);
    RecordsSorted(sized);
    if Ordered(member, sorted) {
      OrderedDistinct(member, sorted);
      DistinctPermuted(Records(sorted), Records(sized));
    }
    if Printable(member, sized) {
      DistinctPermuted(Records(sized), Records(sorted));
      DistinctOrdered(sized);
    }
  }

  lemma SameMembers(a: seq<Sized>, b: seq<Sized>)
    requires multiset(a) == multiset(b)
    ensures forall s :: s in a <==> s in b
  {
    forall s ensures s in a <==> s in b {
      assert s in a <==> s in multiset(a);
      assert s in b <==> s in multiset(b);
    }
  }

  lemma DistinctOrdered(sized: seq<Sized>)
    requires DistinctPaths(Records(SortBy(sized, SizedKey)))
    ensures var sorted := SortBy(sized, SizedKey);
      forall i, j :: 0 <= i < j < |sorted| ==> Before(sorted[i].record.path, sorted[j].record.path)
  {
    var sorted := SortBy(sized, SizedKey);
    SortBySorted(sized, SizedKey);
    forall i, j | 0 <= i < j < |sorted| ensures Before(sorted[i].record.path, sorted[j].record.path) {
      assert Records(sorted)[i].path != Records(sorted)[j].path;
      assert !KeyBefore(SizedKey(sorted[j]), SizedKey(sorted[i]));
      KeyOfPath(sorted[j].record.path, sorted[i].record.path);
      BeforeTotal(sorted[i].record.path, sorted[j].record.path);
    }
  }

  lemma PrintableDigested(member: string -> bool, sized: seq<Sized>)
    requires Printable(member, sized)
    ensures Digested(Records(sized))
  {
    forall k | 0 <= k < |sized| ensures IsDigest(Records(sized)[k].digest) {
      assert RecordOk(member, sized[k]);
    }
  }

  lemma OrderedDistinct(member: string -> bool, sorted: seq<Sized>)
    requires Ordered(member, sorted)
    ensures DistinctPaths(Records(sorted))
  {
    forall i, j | 0 <= i < j < |sorted| ensures Records(sorted)[i].path != Records(sorted)[j].path {
      BeforeIrreflexive(sorted[i].record.path);
    }
  }

  /** Sorting the sized records sorts the records they carry. */
  lemma {:induction false} RecordsSorted(sized: seq<Sized>)
    ensures Records(SortBy(sized, SizedKey)) == SortedRecords(Records(sized))
    ensures multiset(Records(SortBy(sized, SizedKey))) == multiset(Records(sized))
  {
    if sized != [] {
      RecordsSorted(sized[1..]);
      RecordsInserted(sized[0], SortBy(sized[1..], SizedKey));
    }
  }

  lemma RecordsCons(s: Sized, rest: seq<Sized>)
    ensures Records([s] + rest) == [s.record] + Records(rest)
  {
    assert ([s] + rest)[1..] == rest;
  }

  lemma {:induction false} RecordsOneMore(sized: seq<Sized>, s: Sized)
    ensures Records(sized + [s]) == Records(sized) + [s.record]
  {
    if sized == [] {
      RecordsCons(s, []);
    } else {
      RecordsOneMore(sized[1..], s);
      assert sized + [s] == [sized[0]] + (sized[1..] + [s]);
      RecordsCons(sized[0], sized[1..] + [s]);
    }
  }

  lemma {:induction false} RecordsInserted(s: Sized, sorted: seq<Sized>)
    ensures Records(Insert(s, sorted, SizedKey)) == Insert(s.record, Records(sorted), PathKey)
  {
    if sorted != [] {
      RecordsInserted(s, sorted[1..]);
      var records := Records(sorted);
      assert records[0] == sorted[0].record && records[1..] == Records(sorted[1..]);
      assert SizedKey(s) == PathKey(s.record) && SizedKey(sorted[0]) == PathKey(records[0]);
      if KeyBefore(SizedKey(sorted[0]), SizedKey(s)) {
        RecordsCons(sorted[0], Insert(s, sorted[1..], SizedKey));
      } else {
        RecordsCons(s, sorted);
      }
    }
  }

  /** Whether the next record may be printed, and what its line adds to the text. */
  lemma NextPrints(member: string -> bool, sorted: seq<Sized>, n: nat)
    requires n < |sorted| && Ordered(member, sorted[..n]) && Digested(Records(sorted[..n]))
    ensures
      var fits := RecordOk(member, sorted[n]) && (n > 0 ==> Before(sorted[n - 1].record.path, sorted[n].record.path));
      && (fits <==> Ordered(member, sorted[..n + 1])) && (Ordered(member, sorted) ==> fits)
      && (fits ==> Digested(Records(sorted[..n + 1])))
      && (fits ==>
            Joined(Records(sorted[..n + 1])) == Joined(Records(sorted[..n])) + Line(sorted[n].record) + "\n")
  {
    OrderedOneMore(member, sorted, n);
    if IsDigest(sorted[n].record.digest) { TextOneMore(sorted, n); }
  }

  method PrintChecksums(member: string -> bool, sized: seq<Sized>) returns (r: Result<string, string>)
    ensures r.Ok? <==> Printable(member, sized)
    ensures r.Ok? ==> Digested(Records(sized)) && r.value == ChecksumText.Printed(Records(sized))
  {
    var sorted := SortBy(sized, SizedKey);
    OrderedMeansPrintable(member, sized);
    RecordsSorted(sized);
    var text := "";
    for k := 0 to |sorted|
      invariant Ordered(member, sorted[..k])
      invariant Digested(Records(sorted[..k])) && text == Joined(Records(sorted[..k]))
    {
      NextPrints(member, sorted, k);
      var step := CheckRecord(member, sorted, k);
      if step.Err? {
        return Err(step.error);
      }
      text := text + Line(sorted[k].record) + "\n";
    }
    assert sorted[..|sorted|] == sorted;
    PrintableDigested(member, sized);
    return Ok(text);
  }

  lemma TextOneMore(sorted: seq<Sized>, n: nat)
    requires n < |sorted| && Digested(Records(sorted[..n])) && IsDigest(sorted[n].record.digest)
    ensures Digested(Records(sorted[..n + 1]))
    ensures Joined(Records(sorted[..n + 1])) == Joined(Records(sorted[..n])) + Line(sorted[n].record) + "\n"
  {
    assert sorted[..n + 1] == sorted[..n] + [sorted[n]];
    RecordsOneMore(sorted[..n], sorted[n]);
    JoinedOneMore(Records(sorted[..n]), sorted[n].record);
  }

  method CheckRecord(member: string -> bool, sorted: seq<Sized>, k: nat) returns (r: Result<(), string>)
    requires k < |sorted|
    ensures r.Ok? <==>
      && RecordOk(member, sorted[k])
      && (k > 0 ==> Before(sorted[k - 1].record.path, sorted[k].record.path))
  {
    var record := sorted[k].record;
    if !member(record.path) {
      return Err("MIGRATION_MEMBER_PATH_INVALID");
    }
    if !IsDigest(record.digest) || sorted[k].sizeBytes < 0 {
      return Err("MIGRATION_MEMBER_RECORD_INVALID");
    }
    if k > 0 && !Before(sorted[k - 1].record.path, record.path) {
      return Err("MIGRATION_MEMBER_RECORD_INVALID");
    }
    return Ok(());
  }

  lemma OrderedOneMore(member: string -> bool, sorted: seq<Sized>, n: nat)
    requires n < |sorted| && Ordered(member, sorted[..n])
    ensures Ordered(member, sorted[..n + 1]) <==>
      && RecordOk(member, sorted[n])
      && (n > 0 ==> Before(sorted[n - 1].record.path, sorted[n].record.path))
    ensures Ordered(member, sorted) ==> Ordered(member, sorted[..n + 1])
  {
    var longer := sorted[..n + 1];
    assert longer[..n] == sorted[..n] && longer[n] == sorted[n];
    if n > 0 && Before(sorted[n - 1].record.path, sorted[n].record.path) {
      forall i | 0 <= i < n ensures Before(longer[i].record.path, longer[n].record.path) {
        if i < n - 1 {
          assert Before(sorted[..n][i].record.path, sorted[..n][n - 1].record.path);
          BeforeTransitive(longer[i].record.path, sorted[n - 1].record.path, longer[n].record.path);
        }
      }
    }
    if n > 0 && Ordered(member, longer) {
      assert longer[n - 1] == sorted[n - 1];
    }
  }

  method ParseChecksums(rules: Rules, text: string) returns (r: Result<map<string, string>, string>)
    requires forall path :: rules.fold(path) == path
    ensures r.ToOption() == Parsed(rules, text)
  {
    if text == "" || text[|text| - 1] != '\n' || '\r' in text {
      return Err("MIGRATION_CHECKSUM_SET_CORRUPT");
    }
    r := ReadLines(rules, SplitLines(text));
    if r.Ok? && |r.value| > rules.limit {
      return Err("MIGRATION_CHECKSUM_SET_CORRUPT");
    }
  }

  /** These lines have been accepted, and this is the map of their entries. */
  ghost predicate Read(rules: Rules, lines: seq<string>, records: map<string, string>) {
    Canonical(rules, lines) && records == AsMap(Entries(lines)) && |records| == |lines|
  }

  lemma ReadOneMore(rules: Rules, lines: seq<string>, n: nat, records: map<string, string>)
    requires n < |lines| && Read(rules, lines[..n], records)
    ensures !Extends(rules, lines[..n], lines[n]) ==> !Canonical(rules, lines)
    ensures Extends(rules, lines[..n], lines[n]) ==>
      Read(rules, lines[..n + 1], records[Entry(lines[n]).path := Entry(lines[n]).digest])
  {
    OneMoreLine(rules, lines, n);
  }

  method ReadLines(rules: Rules, lines: seq<string>) returns (r: Result<map<string, string>, string>)
    requires forall path :: rules.fold(path) == path
    ensures r.Ok? <==> Canonical(rules, lines)
    ensures r.Ok? ==> Read(rules, lines, r.value)
  {
    var records: map<string, string> := map[];
    for k := 0 to |lines|
      invariant Read(rules, lines[..k], records)
    {
      ReadOneMore(rules, lines, k, records);
      var step := CheckLine(rules, lines[..k], lines[k]);
      if step.Err? {
        return Err(step.error);
      }
      records := records[step.value.path := step.value.digest];
    }
    assert lines[..|lines|] == lines;
    return Ok(records);
  }

  /** The checks on one line; the host keeps the path of the line before it. */
  method CheckLine(rules: Rules, before: seq<string>, line: string) returns (r: Result<Record, string>)
    requires forall path :: rules.fold(path) == path
    requires Canonical(rules, before)
    ensures r.Ok? <==> Extends(rules, before, line)
    ensures r.Ok? ==> IsLine(line) && r.value == Entry(line)
  {
    NoCollision(rules, before, line);
    if !IsLine(line) {
      return Err("MIGRATION_CHECKSUM_SET_CORRUPT");
    }
    var entry := Entry(line);
    if !rules.member(entry.path) {
      return Err("MIGRATION_MEMBER_PATH_INVALID");
    }
    if before != [] && !Before(Entry(before[|before| - 1]).path, entry.path) {
      return Err("MIGRATION_CHECKSUM_SET_CORRUPT");
    }
    return Ok(entry);
  }

  /** Without folding, a path that sorts after the last one meets no earlier one. */
  lemma NoCollision(rules: Rules, before: seq<string>, line: string)
    requires forall path :: rules.fold(path) == path
    requires Canonical(rules, before)
    ensures Extends(rules, before, line)
      <==> LineOk(rules, line) && (before != [] ==> Before(Entry(before[|before| - 1]).path, Entry(line).path))
  {
    if LineOk(rules, line) && before != [] && Before(Entry(before[|before| - 1]).path, Entry(line).path) {
      forall k | 0 <= k < |before| ensures Entry(before[k]).path != Entry(line).path {
        if k < |before| - 1 {
          BeforeTransitive(Entry(before[k]).path, Entry(before[|before| - 1]).path, Entry(line).path);
        }
        BeforeIrreflexive(Entry(line).path);
      }
    }
  }

  // ----- Every printed set parses

  /** A printed migration set always parses to itself. */
  lemma PrintedSetParses(sized: seq<Sized>)
    requires 0 < |sized| <= MAX_MEMBER_COUNT && Printable(Member, sized)
    ensures Digested(Records(sized))
    ensures Parsed(MigrationRules(), ChecksumText.Printed(Records(sized))) == Some(AsMap(Records(sized)))
  {
    var rs := Records(sized);
    PrintableDigested(Member, sized);
    forall k | 0 <= k < |rs| ensures Member(rs[k].path) && Unbroken(rs[k].path) {
      assert RecordOk(Member, sized[k]);
      MembersUnbroken(rs[k].path);
    }
    ParseOfPrint(MigrationRules(), rs);
  }
}
