/**
  The checksum set of a backup: its member paths, its printer and its parser.

  The collision key of a path, the case folding of its NFC form, is a parameter.
 */
module BackupChecksums {
  import opened Wrappers
  import opened Ordering
  import opened ChecksumText
  import opened Digests
  import opened ChecksumLaws
  import opened PathText
  import opened RelativePaths

  const MAX_MEMBER_COUNT := 250000

  const ROOTS := [
    "filesystem/config", "filesystem/plugins/cas", "filesystem/plugins/durable", "filesystem/media",
    "filesystem/private", "updater-state"]

  predicate AllowedMember(path: string) {
    || path == "database.sql.gz" || path == "secrets/secret-envelope.json" || path == "secrets/secret-reference.json"
    || exists k :: 0 <= k < |ROOTS| && ROOTS[k] + "/" <= path
  }

  predicate Member(path: string) {
    CanonicalRelative(path) && AllowedMember(path)
  }

  function BackupRules(collision: string -> string): (rules: Rules)
    ensures !rules.member("")
  {
    Rules(Member, collision, MAX_MEMBER_COUNT)
  }

  predicate Printable(canonical: string -> bool, records: seq<Record>) {
    forall r :: r in records ==> canonical(r.path) && IsDigest(r.digest)
  }

  /** The host prints any canonical paths, in order of path. */
  method PrintChecksums(canonical: string -> bool, records: seq<Record>) returns (r: Result<string, string>)
    ensures r.Ok? <==> Printable(canonical, records)
    ensures r.Ok? ==> Digested(records) && r.value == ChecksumText.Printed(records)
  {
    var sorted := SortedRecords(records);
    SortedMembers(records);
    var text := "";
    for k := 0 to |sorted|
      invariant Printable(canonical, sorted[..k]) && Digested(sorted[..k]) && text == Joined(sorted[..k])
    {
      if !canonical(sorted[k].path) {
        return Err("BACKUP_PATH_INVALID");
      }
      if !IsDigest(sorted[k].digest) {
        return Err("BACKUP_IDENTITY_INVALID");
      }
      JoinedOneMore(sorted[..k], sorted[k]);
      assert sorted[..k + 1] == sorted[..k] + [sorted[k]];
      text := text + Line(sorted[k]) + "\n";
    }
    assert sorted[..|sorted|] == sorted;
    return Ok(text);
  }

  /** One pass over the lines, carrying the map, the collision keys and the previous path. */
  method ParseChecksums(rules: Rules, text: string) returns (r: Result<map<string, string>, string>)
    ensures r.ToOption() == Parsed(rules, text)
  {
    if text == "" || text[|text| - 1] != '\n' || '\r' in text {
      return Err("BACKUP_CHECKSUMS_INVALID");
    }
    var lines := SplitLines(text);
    var records: map<string, string> := map[];
    var normalized: set<string> := {};
    var previous: Option<string> := None;
    for k := 0 to |lines|
      invariant Canonical(rules, lines[..k]) && k <= rules.limit
      invariant records == AsMap(Entries(lines[..k])) && |records| == k
      invariant normalized == Folds(rules, lines[..k])
      invariant previous == LastPath(lines[..k])
    {
      OneMoreLine(rules, lines, k);
      var step := CheckLine(rules, lines[..k], lines[k], previous, normalized);
      if step.Err? {
        return Err(step.error);
      }
      LastPathOneMore(lines, k);
      var entry := step.value;
      normalized := normalized + {rules.fold(entry.path)};
      records := records[entry.path := entry.digest];
      previous := Some(entry.path);
      if |records| > rules.limit {
        return Err("BACKUP_CHECKSUMS_INVALID");
      }
    }
    assert lines[..|lines|] == lines;
    return Ok(records);
  }

  function LastPath(lines: seq<string>): Option<string>
    requires AllLines(lines)
  {
    if lines == [] then None else Some(Entry(lines[|lines| - 1]).path)
  }

  lemma LastPathOneMore(lines: seq<string>, n: nat)
    requires n < |lines| && AllLines(lines[..n]) && IsLine(lines[n])
    ensures AllLines(lines[..n + 1]) && LastPath(lines[..n + 1]) == Some(Entry(lines[n]).path)
  {
  }

  /** The checks on one line. */
  method CheckLine(
    rules: Rules, ghost before: seq<string>, line: string, previous: Option<string>, normalized: set<string>)
    returns (r: Result<Record, string>)
    requires Canonical(rules, before) && previous == LastPath(before) && normalized == Folds(rules, before)
    ensures r.Ok? <==> Extends(rules, before, line)
    ensures r.Ok? ==> IsLine(line) && r.value == Entry(line)
  {
    if !IsLine(line) {
      return Err("BACKUP_CHECKSUMS_INVALID");
    }
    var entry := Entry(line);
    if !rules.member(entry.path) {
      return Err("BACKUP_PATH_INVALID");
    }
    if previous.Some? && !Before(previous.value, entry.path) {
      return Err("BACKUP_CHECKSUMS_INVALID");
    }
    if rules.fold(entry.path) in normalized {
      return Err("BACKUP_CHECKSUMS_INVALID");
    }
    return Ok(entry);
  }

  predicate Plain(part: string) {
    Ordinary(part) && |part| <= 50 && '/' !in part && '\\' !in part && '\0' !in part
  }

  lemma ThreePlainParts(a: string, b: string, c: string)
    requires Plain(a) && Plain(b) && Plain(c)
    ensures CanonicalRelative(a + "/" + (b + "/" + c))
  {
    var parts := [a, b, c];
    assert parts[1..] == [b, c] && [b, c][1..] == [c];
    var path := a + "/" + (b + "/" + c);
    assert Join([c]) == c && Join([b, c]) == b + "/" + c && path == Join(parts);
    SizeWithin(path);
    forall k | 0 <= k < |parts| ensures Utf8Size(parts[k]) <= MAX_PART_BYTES { SizeWithin(parts[k]); }
    JoinedIsCanonical(parts);
  }

  lemma SeparatorPath(path: string)
    requires path == "filesystem/media/a\U{2028}b"
    ensures CanonicalRelative(path) && !Unbroken(path)
  {
    var a, b, c := "filesystem", "media", "a\U{2028}b";
    assert path == a + "/" + (b + "/" + c);
    ThreePlainParts(a, b, c);
    assert path[18] == '\U{2028}';
  }

  lemma SeparatorMember(path: string)
    requires path == "filesystem/media/a\U{2028}b"
    ensures AllowedMember(path)
  {
    assert ROOTS[3] == "filesystem/media" && ROOTS[3] + "/" <= path;
  }

  /** A path may hold a line separator: the set is printed, and no longer parses to itself. */
  lemma SeparatorInPath(collision: string -> string, r: Record)
    requires r.path == "filesystem/media/a\U{2028}b" && IsDigest(r.digest)
    ensures Storable(BackupRules(collision), [r]) && Printable(CanonicalRelative, [r])
    ensures Parsed(BackupRules(collision), ChecksumText.Printed([r])) != Some(AsMap([r]))
  {
    SeparatorPath(r.path);
    SeparatorMember(r.path);
    ParseOfPrint(BackupRules(collision), [r]);
    assert !Unbroken([r][0].path);
  }

  lemma {:induction false} SizeWithin(s: string)
    ensures Utf8Size(s) <= 4 * |s|
  {
    if s != "" { SizeWithin(s[1..]); }
  }
}
