/**
  What the plugin and media inventories of a migration bundle share: the staged files, the verified
  copy into them, the content-addressed member paths, and the sorted string lists.

  The digest function, the tests on single strings and the R2 identity normaliser are rules.
 */
module BundleInventory {
  import opened Wrappers
  import opened Ordering
  import opened Collections
  import opened Digests

  type Bytes = seq<int>

  datatype R2 = R2(endpoint: string, account: string, bucket: string)

  datatype Rules = Rules(
    sha: Bytes -> string, digest: string -> bool, identifier: string -> bool, text: string -> bool, objectKey: string -> bool,
    r2: R2 -> Option<R2>)

  /** A normalised R2 identity is its own normal form. */
  ghost predicate SettlesR2(rules: Rules) {
    forall i: R2 :: rules.r2(i).Some? ==> rules.r2(rules.r2(i).value) == rules.r2(i)
  }

  // ----- Content-addressed member paths

  /** The member path of a digest, and the directory such paths live in. */
  datatype Cas = Cas(path: string -> string, owns: string -> bool)

  ghost predicate Addresses(rules: Rules, cas: Cas) {
    && (forall d :: rules.digest(d) ==> cas.owns(cas.path(d)))
    && (forall d, e :: rules.digest(d) && rules.digest(e) && cas.path(d) == cas.path(e) ==> d == e)
  }

  function PluginPath(digest: string): string
  {
    if |digest| >= 7 then "plugins/cas/" + digest[7..] + ".ajplugin" else ""
  }

  function LocalPath(digest: string): string {
    if |digest| >= 7 then "media/local/" + digest[7..] else ""
  }

  function PluginCas(): Cas {
    Cas(PluginPath, (path: string) => "plugins/cas/" <= path)
  }

  function LocalCas(): Cas {
    Cas(LocalPath, (path: string) => "media/local/" <= path)
  }

  lemma SameTail(d: string, e: string)
    requires IsDigest(d) && IsDigest(e) && d[7..] == e[7..]
    ensures d == e
  {
    assert d == d[..7] + d[7..] && e == e[..7] + e[7..];
  }

  lemma PluginsAddressed(rules: Rules)
    requires rules.digest == IsDigest
    ensures Addresses(rules, PluginCas())
  {
    forall d, e | IsDigest(d) && IsDigest(e) && PluginPath(d) == PluginPath(e) ensures d == e {
      assert PluginPath(d)[12..76] == d[7..] && PluginPath(e)[12..76] == e[7..];
      SameTail(d, e);
    }
  }

  lemma LocalsAddressed(rules: Rules)
    requires rules.digest == IsDigest
    ensures Addresses(rules, LocalCas())
  {
    forall d, e | IsDigest(d) && IsDigest(e) && LocalPath(d) == LocalPath(e) ensures d == e {
      assert LocalPath(d)[12..] == d[7..] && LocalPath(e)[12..] == e[7..];
      SameTail(d, e);
    }
  }

  // ----- Payload records

  datatype Member = Member(path: string, sha256: string, sizeBytes: int)

  function PathOf(m: Member): string {
    m.path
  }

  /** The records describe exactly the files. */
  ghost predicate Payload(rules: Rules, files: map<string, Bytes>, records: seq<Member>) {
    && Images(PathOf, records) == files.Keys
    && forall k :: 0 <= k < |records| ==> records[k].path in files && Describes(rules, files[records[k].path], records[k])
  }

  predicate Describes(rules: Rules, content: Bytes, m: Member) {
    m.sha256 == rules.sha(content) && m.sizeBytes == |content|
  }

  function ByPath(records: seq<Member>): map<string, Member> {
    if records == [] then map[]
    else ByPath(records[..|records| - 1])[records[|records| - 1].path := records[|records| - 1]]
  }

  lemma {:induction false} ByPathMembers(records: seq<Member>, path: string)
    ensures path in ByPath(records) <==> path in Images(PathOf, records)
    ensures path in ByPath(records) ==> ByPath(records)[path] in records && ByPath(records)[path].path == path
    decreases |records|
  {
    if records != [] {
      var front, last := records[..|records| - 1], records[|records| - 1];
      ByPathMembers(front, path);
      assert records == front + [last];
    }
  }

  function OwnedPaths(cas: Cas, records: seq<Member>): set<string> {
    set m | m in records && cas.owns(m.path) :: m.path
  }

  /** A record looked up by path describes the file there. */
  lemma PayloadLookup(rules: Rules, files: map<string, Bytes>, records: seq<Member>, path: string)
    requires Payload(rules, files, records) && path in files
    ensures path in ByPath(records) && Describes(rules, files[path], ByPath(records)[path])
  {
    ByPathMembers(records, path);
    var m := ByPath(records)[path];
    var k :| 0 <= k < |records| && records[k] == m;
  }

  lemma PayloadOwned(rules: Rules, cas: Cas, files: map<string, Bytes>, records: seq<Member>)
    requires Payload(rules, files, records)
    ensures OwnedPaths(cas, records) == set path | path in files.Keys && cas.owns(path)
  {
    forall path ensures path in files.Keys && cas.owns(path) <==> path in OwnedPaths(cas, records) {
      InImages(PathOf, records, path);
      if path in files.Keys && cas.owns(path) {
        var k :| 0 <= k < |records| && PathOf(records[k]) == path;
        assert records[k] in records;
      }
    }
  }

  // ----- Sorted string lists

  function One(s: string): Key {
    [s]
  }

  function Same(s: string): string {
    s
  }

  predicate AllText(rules: Rules, values: seq<string>) {
    forall k :: 0 <= k < |values| ==> rules.text(values[k])
  }

  /** Acceptable strings, none twice. */
  ghost predicate ValidStrings(rules: Rules, values: seq<string>) {
    AllText(rules, values) && Distinct(Same, values)
  }

  /** Acceptable strings in ascending order. */
  ghost predicate CanonicalStrings(rules: Rules, values: seq<string>) {
    AllText(rules, values) && Ascending(values, One)
  }

  function SortedStrings(values: seq<string>): seq<string> {
    SortBy(values, One)
  }

  lemma SortedAreCanonical(rules: Rules, values: seq<string>)
    requires ValidStrings(rules, values)
    ensures CanonicalStrings(rules, SortedStrings(values))
  {
    var sorted := SortedStrings(values);
    SortBySorted(values, One);
    DistinctAlong(Same, values, sorted);
    forall i, j | 0 <= i < j < |sorted| ensures One(sorted[i]) != One(sorted[j]) {
      assert Same(sorted[i]) != Same(sorted[j]);
    }
    SortedDistinctAscending(sorted, One);
    forall k | 0 <= k < |sorted| ensures rules.text(sorted[k]) {
      SameMembers(sorted, values, sorted[k]);
    }
  }

  lemma CanonicalAreSorted(rules: Rules, values: seq<string>)
    ensures CanonicalStrings(rules, values) <==> ValidStrings(rules, values) && SortedStrings(values) == values
  {
    if CanonicalStrings(rules, values) {
      forall i, j | 0 <= i < j < |values| ensures Same(values[i]) != Same(values[j]) {
        KeyIrreflexive(One(values[i]));
      }
      forall i, j | 0 <= i < j < |values| ensures !KeyBefore(One(values[j]), One(values[i])) {
        if KeyBefore(One(values[j]), One(values[i])) {
          KeyTransitive(One(values[i]), One(values[j]), One(values[i]));
          KeyIrreflexive(One(values[i]));
        }
      }
      SortOfSorted(values, One);
    }
    if ValidStrings(rules, values) && SortedStrings(values) == values {
      SortedAreCanonical(rules, values);
    }
  }

  /** The host sorts the set of the values: each value once. */
  function Dedup(values: seq<string>): seq<string> {
    if values == [] then []
    else
      var front, last := values[..|values| - 1], values[|values| - 1];
      if last in front then Dedup(front) else Dedup(front) + [last]
  }

  lemma {:induction false} DedupLength(values: seq<string>)
    ensures |Dedup(values)| <= |values|
    ensures |Dedup(values)| == |values| <==> Distinct(Same, values)
    ensures Distinct(Same, values) ==> Dedup(values) == values
    decreases |values|
  {
    if values != [] {
      var front, last := values[..|values| - 1], values[|values| - 1];
      DedupLength(front);
      assert values == front + [last] && values[..|values|] == values;
      DistinctOneMore(Same, values, |values| - 1);
      InImages(Same, front, last);
      assert last in front <==> last in Images(Same, front) by {
        if last in front { var k :| 0 <= k < |front| && front[k] == last; assert Same(front[k]) == last; }
      }
    }
  }

  method SortedUniqueStrings(rules: Rules, values: seq<string>, requireCanonical: bool)
    returns (r: Option<seq<string>>)
    ensures r.Some? <==> if requireCanonical then CanonicalStrings(rules, values) else ValidStrings(rules, values)
    ensures r.Some? ==> r.value == SortedStrings(values)
  {
    for k := 0 to |values|
      invariant AllText(rules, values[..k])
    {
      if !rules.text(values[k]) {
        return None;
      }
    }
    assert values[..|values|] == values;
    var canonical := SortBy(Dedup(values), One);
    DedupLength(values);
    CanonicalAreSorted(rules, values);
    if |canonical| != |values| || (requireCanonical && values != canonical) {
      return None;
    }
    return Some(canonical);
  }

  // ----- Staging

  /** What a source file does when it is copied: its size before, the bytes it delivers, and whether it changed meanwhile. */
  datatype Source = Missing | File(size: nat, delivered: Bytes, changed: bool)

  function SizeOf(s: Source): nat {
    if s.File? then s.size else 0
  }

  /** The source delivers, unchanged, bytes of its size with this digest. */
  predicate Delivers(rules: Rules, s: Source, digest: string) {
    s.File? && |s.delivered| == s.size && !s.changed && rules.sha(s.delivered) == digest
  }

  /** The copy budget at the start of a capture. */
  datatype Quota = Quota(maxMember: nat, maxTotal: nat, used: nat)

  class Staging {
    const maxMember: nat
    const maxTotal: nat
    var files: map<string, Bytes>
    var copied: nat

    constructor (maxMember: nat, maxTotal: nat, files: map<string, Bytes>)
      ensures this.files == files && copied == 0
    {
      this.maxMember, this.maxTotal := maxMember, maxTotal;
      this.files, copied := files, 0;
    }

    function Budget(): Quota
      reads this
    {
      Quota(maxMember, maxTotal, copied)
    }

    /** Writes a new member; an existing one is not overwritten. */
    method Write(member: string, content: Bytes) returns (ok: bool)
      modifies this`files
      ensures ok <==> member !in old(files)
      ensures files == if ok then old(files)[member := content] else old(files)
    {
      ok := member !in files;
      if ok {
        files := files[member := content];
      }
    }

    /** Copies a source into a new member, and keeps the member only if its bytes are the declared ones. */
    method CopyVerifiedSource(rules: Rules, source: Source, member: string, digest: string, expected: Option<int>)
      returns (r: Result<(), string>)
      modifies this
      ensures r.Ok? <==>
        && Delivers(rules, source, digest) && (expected.Some? ==> source.size == expected.value)
        && source.size <= maxMember && old(copied) + source.size <= maxTotal && member !in old(files)
      ensures r.Ok? ==> files == old(files)[member := source.delivered] && copied == old(copied) + source.size
      ensures r.Err? ==> files == old(files)
    {
      if source.Missing? {
        return Err("MIGRATION_SOURCE_MEMBER_MISSING");
      }
      if expected.Some? && source.size != expected.value {
        return Err("MIGRATION_SOURCE_MEMBER_SIZE_MISMATCH");
      }
      if source.size > maxMember || source.size > maxTotal - copied {
        return Err("MIGRATION_RESOURCE_BOUNDS_EXCEEDED");
      }
      if member in files {
        return Err("FileExistsError");
      }
      if |source.delivered| != source.size || source.changed {
        var counted: nat :| counted <= |source.delivered|;
        copied := copied + counted;
        return Err("MIGRATION_SOURCE_CHANGED");
      }
      copied := copied + source.size;
      if rules.sha(source.delivered) != digest {
        return Err("MIGRATION_SOURCE_MEMBER_DIGEST_MISMATCH");
      }
      files := files[member := source.delivered];
      return Ok(());
    }
  }

  /** `later` still holds every file of `earlier`. */
  predicate Keeps(earlier: map<string, Bytes>, later: map<string, Bytes>) {
    forall path :: path in earlier ==> path in later && later[path] == earlier[path]
  }
}
