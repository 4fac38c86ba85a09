/**
  The plugin inventory of a migration bundle: the capture that stages packages and writes the
  manifest, and the separately written verifier that re-checks manifest and members.
 */
module PluginInventory {
  import opened Wrappers
  import opened Ordering
  import opened Collections
  import opened BundleInventory

  /** A package to capture, and the file its bytes come from. */
  datatype Package = Package(
    project: string, version: string, deployment: string, digest: string, manifestDigest: string,
    sdkApis: seq<string>, source: Source)

  datatype PackageRecord = PackageRecord(
    project: string, version: string, deployment: string, digest: string, casPath: string, sizeBytes: int,
    sdkApis: seq<string>, manifestDigest: string)

  datatype PluginManifest = PluginManifest(
    packages: seq<PackageRecord>, runtimeIncluded: bool, previewsIncluded: bool, stagingIncluded: bool,
    locksIncluded: bool, pluginDataDeletion: string)

  function KeyOf(p: Package): Key {
    [p.project, p.version, p.deployment]
  }

  function IdentityOf(r: PackageRecord): Key {
    [r.project, r.version, r.deployment]
  }

  function CasPathOf(r: PackageRecord): string {
    r.casPath
  }

  // ----- What the verifier accepts

  ghost predicate IdentityOk(rules: Rules, identity: Key) {
    forall k :: 0 <= k < |identity| ==> rules.identifier(identity[k])
  }

  ghost predicate RecordOk(rules: Rules, cas: Cas, members: map<string, Member>, r: PackageRecord) {
    && IdentityOk(rules, IdentityOf(r)) && rules.digest(r.digest) && rules.digest(r.manifestDigest)
    && CanonicalStrings(rules, r.sdkApis)
    && r.casPath == cas.path(r.digest) && r.casPath in members
    && members[r.casPath].sha256 == r.digest && members[r.casPath].sizeBytes == r.sizeBytes
  }

  ghost predicate AllRecordsOk(rules: Rules, cas: Cas, members: map<string, Member>, rs: seq<PackageRecord>) {
    forall k :: 0 <= k < |rs| ==> RecordOk(rules, cas, members, rs[k])
  }

  predicate FlagsOk(m: PluginManifest) {
    && !m.runtimeIncluded && !m.previewsIncluded && !m.stagingIncluded && !m.locksIncluded
    && m.pluginDataDeletion == "NEVER_AUTOMATIC"
  }

  /** The manifest and the member records of a bundle agree. */
  ghost predicate Verified(rules: Rules, cas: Cas, m: PluginManifest, records: seq<Member>) {
    && FlagsOk(m)
    && AllRecordsOk(rules, cas, ByPath(records), m.packages)
    && Distinct(IdentityOf, m.packages) && Sorted(m.packages, IdentityOf)
    && Images(CasPathOf, m.packages) == OwnedPaths(cas, records)
  }

  method VerifyRecord(rules: Rules, cas: Cas, members: map<string, Member>, r: PackageRecord, identities: set<Key>)
    returns (ok: bool)
    ensures ok <==> RecordOk(rules, cas, members, r) && IdentityOf(r) !in identities
  {
    if !rules.identifier(r.project) || !rules.identifier(r.version) || !rules.identifier(r.deployment) {
      assert IdentityOf(r)[0] == r.project && IdentityOf(r)[1] == r.version && IdentityOf(r)[2] == r.deployment;
      return false;
    }
    if IdentityOf(r) in identities || !rules.digest(r.digest) || !rules.digest(r.manifestDigest) {
      return false;
    }
    var sdk := SortedUniqueStrings(rules, r.sdkApis, true);
    if sdk.None? {
      return false;
    }
    var expected := cas.path(r.digest);
    if r.casPath != expected || expected !in members {
      return false;
    }
    return r.digest == members[expected].sha256 && r.sizeBytes == members[expected].sizeBytes;
  }

  function SelfKey(k: Key): Key {
    k
  }

  method VerifyPlugins(rules: Rules, cas: Cas, m: PluginManifest, records: seq<Member>) returns (ok: bool)
    ensures ok <==> Verified(rules, cas, m, records)
    ensures ok ==>
      && !m.runtimeIncluded && !m.previewsIncluded && !m.stagingIncluded && !m.locksIncluded
      && m.pluginDataDeletion == "NEVER_AUTOMATIC"
  {
    if !FlagsOk(m) {
      return false;
    }
    var members := ByPath(records);
    var packages := m.packages;
    var declared: set<string> := {};
    var identities: set<Key> := {};
    var ordering: seq<Key> := [];
    for k := 0 to |packages|
      invariant AllRecordsOk(rules, cas, members, packages[..k]) && Distinct(IdentityOf, packages[..k])
      invariant identities == Images(IdentityOf, packages[..k]) && declared == Images(CasPathOf, packages[..k])
      invariant ordering == Keys(packages[..k])
    {
      RecordsOneMore(rules, cas, members, packages, k);
      var ok1 := VerifyRecord(rules, cas, members, packages[k], identities);
      if !ok1 {
        return false;
      }
      identities := identities + {IdentityOf(packages[k])};
      ordering := ordering + [IdentityOf(packages[k])];
      declared := declared + {packages[k].casPath};
    }
    assert packages[..|packages|] == packages;
    SortedKeys(packages);
    return ordering == SortBy(ordering, SelfKey) && declared == OwnedPaths(cas, records);
  }

  function Keys(rs: seq<PackageRecord>): (r: seq<Key>)
    ensures |r| == |rs| && forall k :: 0 <= k < |rs| ==> r[k] == IdentityOf(rs[k])
  {
    if rs == [] then [] else Keys(rs[..|rs| - 1]) + [IdentityOf(rs[|rs| - 1])]
  }

  /** Comparing the list of keys with its sorted copy tests whether the records are in order. */
  lemma SortedKeys(rs: seq<PackageRecord>)
    ensures Keys(rs) == SortBy(Keys(rs), SelfKey) <==> Sorted(rs, IdentityOf)
  {
    SortBySorted(Keys(rs), SelfKey);
    if Sorted(rs, IdentityOf) { SortOfSorted(Keys(rs), SelfKey); }
  }

  lemma RecordsOneMore(rules: Rules, cas: Cas, members: map<string, Member>, rs: seq<PackageRecord>, n: nat)
    requires n < |rs|
    ensures AllRecordsOk(rules, cas, members, rs[..n + 1])
      <==> AllRecordsOk(rules, cas, members, rs[..n]) && RecordOk(rules, cas, members, rs[n])
    ensures AllRecordsOk(rules, cas, members, rs) ==> AllRecordsOk(rules, cas, members, rs[..n + 1])
    ensures Distinct(IdentityOf, rs[..n + 1])
      <==> Distinct(IdentityOf, rs[..n]) && IdentityOf(rs[n]) !in Images(IdentityOf, rs[..n])
    ensures Distinct(IdentityOf, rs) ==> Distinct(IdentityOf, rs[..n + 1])
    ensures Images(IdentityOf, rs[..n + 1]) == Images(IdentityOf, rs[..n]) + {IdentityOf(rs[n])}
    ensures Images(CasPathOf, rs[..n + 1]) == Images(CasPathOf, rs[..n]) + {rs[n].casPath}
    ensures Keys(rs[..n + 1]) == Keys(rs[..n]) + [IdentityOf(rs[n])]
  {
    DistinctOneMore(IdentityOf, rs, n);
    ImagesOneMore(IdentityOf, rs, n);
    ImagesOneMore(CasPathOf, rs, n);
    assert rs[..n + 1] == rs[..n] + [rs[n]];
  }

  /** No dangling and no orphan member: the CAS members are exactly the declared digests, with those bytes. */
  lemma VerifiedMembers(rules: Rules, cas: Cas, m: PluginManifest, files: map<string, Bytes>, records: seq<Member>)
    requires Verified(rules, cas, m, records) && Payload(rules, files, records)
    ensures forall path :: path in files && cas.owns(path) ==>
      exists k :: 0 <= k < |m.packages| && path == cas.path(m.packages[k].digest)
    ensures forall k :: 0 <= k < |m.packages| ==>
      var path := cas.path(m.packages[k].digest);
      path in files && cas.owns(path) && rules.sha(files[path]) == m.packages[k].digest
      && |files[path]| == m.packages[k].sizeBytes
  {
    PayloadOwned(rules, cas, files, records);
    forall path | path in files && cas.owns(path)
      ensures exists k :: 0 <= k < |m.packages| && path == cas.path(m.packages[k].digest)
    {
      InImages(CasPathOf, m.packages, path);
      var k :| 0 <= k < |m.packages| && CasPathOf(m.packages[k]) == path;
      assert RecordOk(rules, cas, ByPath(records), m.packages[k]);
    }
    forall k | 0 <= k < |m.packages|
      ensures var path := cas.path(m.packages[k].digest);
        path in files && cas.owns(path) && rules.sha(files[path]) == m.packages[k].digest
        && |files[path]| == m.packages[k].sizeBytes
    {
      VerifiedMember(rules, cas, m, files, records, k);
    }
  }

  lemma VerifiedMember(
    rules: Rules, cas: Cas, m: PluginManifest, files: map<string, Bytes>, records: seq<Member>, k: nat)
    requires Verified(rules, cas, m, records) && Payload(rules, files, records) && k < |m.packages|
    ensures var path := cas.path(m.packages[k].digest);
      path in files && cas.owns(path) && rules.sha(files[path]) == m.packages[k].digest
      && |files[path]| == m.packages[k].sizeBytes
  {
    var r := m.packages[k];
    assert RecordOk(rules, cas, ByPath(records), r);
    InImages(CasPathOf, m.packages, r.casPath);
    PayloadOwned(rules, cas, files, records);
    assert CasPathOf(m.packages[k]) == r.casPath;
    PayloadLookup(rules, files, records, r.casPath);
  }

  // ----- What the capture leaves

  ghost predicate PackageOk(rules: Rules, p: Package) {
    && IdentityOk(rules, KeyOf(p)) && rules.digest(p.digest) && rules.digest(p.manifestDigest)
    && ValidStrings(rules, p.sdkApis)
  }

  ghost predicate PackagesOk(rules: Rules, ps: seq<Package>) {
    (forall k :: 0 <= k < |ps| ==> PackageOk(rules, ps[k])) && Distinct(KeyOf, ps)
  }

  /** The record of a package whose bytes are staged. */
  ghost predicate Records(rules: Rules, cas: Cas, files: map<string, Bytes>, p: Package, r: PackageRecord) {
    && cas.path(p.digest) in files && rules.sha(files[cas.path(p.digest)]) == p.digest
    && r == RecordOf(cas, files[cas.path(p.digest)], SortedStrings(p.sdkApis), p)
  }

  function RecordOf(cas: Cas, content: Bytes, sdkApis: seq<string>, p: Package): PackageRecord {
    PackageRecord(
      p.project, p.version, p.deployment, p.digest, cas.path(p.digest), |content|, sdkApis, p.manifestDigest)
  }

  ghost predicate AllRecorded(
    rules: Rules, cas: Cas, files: map<string, Bytes>, ps: seq<Package>, rs: seq<PackageRecord>) {
    |rs| == |ps| && forall k :: 0 <= k < |ps| ==> Records(rules, cas, files, ps[k], rs[k])
  }

  function MemberOf(cas: Cas): Package -> string {
    (p: Package) => cas.path(p.digest)
  }

  /** The bytes the members of these packages take, each member counted once. */
  function FirstBytes(cas: Cas, ps: seq<Package>): nat {
    if ps == [] then 0
    else
      var front, last := ps[..|ps| - 1], ps[|ps| - 1];
      FirstBytes(cas, front) + if cas.path(last.digest) in Images(MemberOf(cas), front) then 0 else SizeOf(last.source)
  }

  /** The budget after the members of these packages have been copied. */
  function Spent(cas: Cas, q: Quota, ps: seq<Package>): Quota {
    q.(used := q.used + FirstBytes(cas, ps))
  }

  /** The next package brings no new member, or its source can be copied into one. */
  predicate NextCopies(
    rules: Rules, cas: Cas, q: Quota, before: map<string, Bytes>, ps: seq<Package>, p: Package) {
    || cas.path(p.digest) in Images(MemberOf(cas), ps)
    || (&& Delivers(rules, p.source, p.digest) && p.source.size <= q.maxMember
        && q.used + FirstBytes(cas, ps) + p.source.size <= q.maxTotal && cas.path(p.digest) !in before)
  }

  /** Every first source of a member can be copied within the budget. */
  ghost predicate Copyable(rules: Rules, cas: Cas, q: Quota, before: map<string, Bytes>, ps: seq<Package>) {
    ps == []
    || (Copyable(rules, cas, q, before, ps[..|ps| - 1])
        && NextCopies(rules, cas, q, before, ps[..|ps| - 1], ps[|ps| - 1]))
  }

  lemma {:induction false} CopyablePrefix(
    rules: Rules, cas: Cas, q: Quota, before: map<string, Bytes>, ps: seq<Package>, n: nat)
    requires n <= |ps| && Copyable(rules, cas, q, before, ps)
    ensures Copyable(rules, cas, q, before, ps[..n])
    decreases |ps| - n
  {
    if n == |ps| {
      assert ps[..n] == ps;
    } else {
      CopyablePrefix(rules, cas, q, before, ps, n + 1);
      assert ps[..n + 1][..n] == ps[..n];
    }
  }

  /** What can be copied never takes the budget over its total. */
  lemma {:induction false} SpentWithin(rules: Rules, cas: Cas, q: Quota, before: map<string, Bytes>, ps: seq<Package>)
    requires q.used <= q.maxTotal && Copyable(rules, cas, q, before, ps)
    ensures q.used <= Spent(cas, q, ps).used <= q.maxTotal
  {
    if ps != [] { SpentWithin(rules, cas, q, before, ps[..|ps| - 1]); }
  }

  /** Files outside the plugin directory do not matter for what can be copied into it. */
  lemma {:induction false} CopyableAnywhere(
    rules: Rules, cas: Cas, q: Quota, a: map<string, Bytes>, b: map<string, Bytes>, ps: seq<Package>)
    requires Addresses(rules, cas) && forall k :: 0 <= k < |ps| ==> rules.digest(ps[k].digest)
    requires forall path :: path in a || path in b ==> !cas.owns(path)
    ensures Copyable(rules, cas, q, a, ps) <==> Copyable(rules, cas, q, b, ps)
    decreases |ps|
  {
    if ps != [] {
      var front, last := ps[..|ps| - 1], ps[|ps| - 1];
      CopyableAnywhere(rules, cas, q, a, b, front);
      assert cas.owns(cas.path(last.digest));
    }
  }

  /** The captured manifest: one record for each package, in order of identity; nothing else was staged. */
  ghost predicate Captured(
    rules: Rules, cas: Cas, before: map<string, Bytes>, files: map<string, Bytes>, packages: seq<Package>,
    m: PluginManifest) {
    && FlagsOk(m)
    && PackagesOk(rules, SortBy(packages, KeyOf))
    && AllRecorded(rules, cas, files, SortBy(packages, KeyOf), m.packages)
    && Keeps(before, files)
    && files.Keys == before.Keys + Images(MemberOf(cas), SortBy(packages, KeyOf))
  }

  method CheckPackage(rules: Rules, p: Package, identities: set<Key>) returns (r: Result<seq<string>, string>)
    ensures r.Ok? <==> PackageOk(rules, p) && KeyOf(p) !in identities
    ensures r.Ok? ==> r.value == SortedStrings(p.sdkApis)
  {
    if !rules.identifier(p.project) || !rules.identifier(p.version) || !rules.identifier(p.deployment) {
      assert KeyOf(p)[0] == p.project && KeyOf(p)[1] == p.version && KeyOf(p)[2] == p.deployment;
      return Err("MIGRATION_IDENTIFIER_INVALID");
    }
    if KeyOf(p) in identities {
      return Err("MIGRATION_PLUGIN_IDENTITY_DUPLICATED");
    }
    if !rules.digest(p.digest) {
      return Err("MIGRATION_PLUGIN_DIGEST_INVALID");
    }
    if !rules.digest(p.manifestDigest) {
      return Err("MIGRATION_PLUGIN_MANIFEST_IDENTITY_INVALID");
    }
    var sdk := SortedUniqueStrings(rules, p.sdkApis, false);
    if sdk.None? {
      return Err("MIGRATION_PLUGIN_SDK_INVALID");
    }
    return Ok(sdk.value);
  }

  /** Stages the member of a package unless an earlier package already has. */
  method StageMember(
    rules: Rules, cas: Cas, staging: Staging, p: Package, copied: set<string>, ghost q: Quota,
    ghost before: map<string, Bytes>, ghost ps: seq<Package>)
    returns (r: Result<(), string>)
    requires copied == Images(MemberOf(cas), ps) && staging.files.Keys == before.Keys + copied
    requires staging.Budget() == Spent(cas, q, ps)
    requires cas.path(p.digest) in copied ==> rules.sha(staging.files[cas.path(p.digest)]) == p.digest
    modifies staging
    ensures r.Ok? <==> NextCopies(rules, cas, q, before, ps, p)
    ensures r.Ok? ==>
      && Keeps(old(staging.files), staging.files)
      && staging.files.Keys == old(staging.files).Keys + {cas.path(p.digest)}
      && rules.sha(staging.files[cas.path(p.digest)]) == p.digest
      && staging.Budget() == Spent(cas, q, ps + [p])
  {
    var member := cas.path(p.digest);
    assert (ps + [p])[..|ps|] == ps;
    if member !in copied {
      r := staging.CopyVerifiedSource(rules, p.source, member, p.digest, None);
      return;
    }
    return Ok(());
  }

  /** Earlier packages with this member have this digest, so the staged bytes are the right ones. */
  lemma SharedMember(
    rules: Rules, cas: Cas, files: map<string, Bytes>, ps: seq<Package>, rs: seq<PackageRecord>, p: Package)
    requires Addresses(rules, cas) && AllRecorded(rules, cas, files, ps, rs) && rules.digest(p.digest)
    requires forall k :: 0 <= k < |ps| ==> rules.digest(ps[k].digest)
    ensures forall path :: path in Images(MemberOf(cas), ps) ==> path in files
    ensures cas.path(p.digest) in Images(MemberOf(cas), ps) ==> rules.sha(files[cas.path(p.digest)]) == p.digest
  {
    forall path | path in Images(MemberOf(cas), ps) ensures path in files {
      InImages(MemberOf(cas), ps, path);
      var k :| 0 <= k < |ps| && MemberOf(cas)(ps[k]) == path;
      assert Records(rules, cas, files, ps[k], rs[k]);
    }
    if cas.path(p.digest) in Images(MemberOf(cas), ps) {
      InImages(MemberOf(cas), ps, cas.path(p.digest));
      var k :| 0 <= k < |ps| && MemberOf(cas)(ps[k]) == cas.path(p.digest);
      assert Records(rules, cas, files, ps[k], rs[k]);
    }
  }

  lemma RecordedKept(
    rules: Rules, cas: Cas, earlier: map<string, Bytes>, later: map<string, Bytes>, ps: seq<Package>,
    rs: seq<PackageRecord>)
    requires AllRecorded(rules, cas, earlier, ps, rs) && Keeps(earlier, later)
    ensures AllRecorded(rules, cas, later, ps, rs)
  {
    forall k | 0 <= k < |ps| ensures Records(rules, cas, later, ps[k], rs[k]) {
      assert Records(rules, cas, earlier, ps[k], rs[k]);
    }
  }

  /** The state of the capture after the first `n` packages. */
  ghost predicate Progress(
    rules: Rules, cas: Cas, before: map<string, Bytes>, files: map<string, Bytes>, ps: seq<Package>,
    records: seq<PackageRecord>, identities: set<Key>, copied: set<string>) {
    && PackagesOk(rules, ps) && AllRecorded(rules, cas, files, ps, records)
    && identities == Images(KeyOf, ps) && copied == Images(MemberOf(cas), ps)
    && Keeps(before, files) && files.Keys == before.Keys + copied
  }

  lemma PackagesOneMore(rules: Rules, ps: seq<Package>, p: Package)
    requires PackagesOk(rules, ps) && PackageOk(rules, p) && KeyOf(p) !in Images(KeyOf, ps)
    ensures PackagesOk(rules, ps + [p])
  {
    var longer := ps + [p];
    assert longer[..|ps|] == ps && longer[..|ps| + 1] == longer;
    DistinctOneMore(KeyOf, longer, |ps|);
  }

  lemma PackagesOkAt(rules: Rules, ps: seq<Package>, n: nat)
    requires PackagesOk(rules, ps) && n < |ps|
    ensures PackageOk(rules, ps[n]) && KeyOf(ps[n]) !in Images(KeyOf, ps[..n])
  {
    DistinctOneMore(KeyOf, ps, n);
  }

  lemma ProgressOneMore(
    rules: Rules, cas: Cas, before: map<string, Bytes>, earlier: map<string, Bytes>, files: map<string, Bytes>,
    ps: seq<Package>, p: Package, records: seq<PackageRecord>, identities: set<Key>, copied: set<string>)
    requires Progress(rules, cas, before, earlier, ps, records, identities, copied)
    requires PackageOk(rules, p) && KeyOf(p) !in identities
    requires Keeps(earlier, files) && files.Keys == earlier.Keys + {cas.path(p.digest)}
    requires rules.sha(files[cas.path(p.digest)]) == p.digest
    ensures Progress(
      rules, cas, before, files, ps + [p],
      records + [RecordOf(cas, files[cas.path(p.digest)], SortedStrings(p.sdkApis), p)],
      identities + {KeyOf(p)}, copied + {cas.path(p.digest)})
  {
    PackagesOneMore(rules, ps, p);
    RecordedKept(rules, cas, earlier, files, ps, records);
    var longer := ps + [p];
    assert longer[..|ps|] == ps;
  }

  /** Succeeds exactly for valid, distinct packages whose sources can be copied, in order of identity. */
  method CapturePlugins(rules: Rules, cas: Cas, staging: Staging, packages: seq<Package>)
    returns (r: Result<PluginManifest, string>)
    requires Addresses(rules, cas)
    modifies staging
    ensures r.Ok? <==>
      && PackagesOk(rules, SortBy(packages, KeyOf))
      && Copyable(rules, cas, old(staging.Budget()), old(staging.files), SortBy(packages, KeyOf))
    ensures r.Ok? ==> Captured(rules, cas, old(staging.files), staging.files, packages, r.value)
    ensures r.Ok? ==> staging.Budget() == Spent(cas, old(staging.Budget()), SortBy(packages, KeyOf))
  {
    var records := CaptureSorted(rules, cas, staging, SortBy(packages, KeyOf));
    if records.Err? {
      return Err(records.error);
    }
    return Ok(PluginManifest(records.value, false, false, false, false, "NEVER_AUTOMATIC"));
  }

  /** After these packages: what was recorded and staged, and that they could be copied within the budget. */
  ghost predicate Reached(
    rules: Rules, cas: Cas, q: Quota, before: map<string, Bytes>, files: map<string, Bytes>, now: Quota,
    ps: seq<Package>, records: seq<PackageRecord>, identities: set<Key>, copied: set<string>) {
    && Progress(rules, cas, before, files, ps, records, identities, copied)
    && Copyable(rules, cas, q, before, ps) && now == Spent(cas, q, ps)
  }

  method CaptureSorted(rules: Rules, cas: Cas, staging: Staging, sorted: seq<Package>)
    returns (r: Result<seq<PackageRecord>, string>)
    requires Addresses(rules, cas)
    modifies staging
    ensures r.Ok? <==>
      PackagesOk(rules, sorted) && Copyable(rules, cas, old(staging.Budget()), old(staging.files), sorted)
    ensures r.Ok? ==>
      && AllRecorded(rules, cas, staging.files, sorted, r.value) && Keeps(old(staging.files), staging.files)
      && staging.files.Keys == old(staging.files).Keys + Images(MemberOf(cas), sorted)
      && staging.Budget() == Spent(cas, old(staging.Budget()), sorted)
  {
    ghost var q, before := staging.Budget(), staging.files;
    var records: seq<PackageRecord> := [];
    var identities: set<Key> := {};
    var copied: set<string> := {};
    var k := 0;
    while k < |sorted|
      invariant 0 <= k <= |sorted|
      invariant Reached(
        rules, cas, q, before, staging.files, staging.Budget(), sorted[..k], records, identities, copied)
    {
      FrontOf(sorted, k);
      var record := CaptureNext(rules, cas, staging, sorted[k], identities, copied, q, before, sorted[..k], records);
      if record.Err? {
        if PackagesOk(rules, sorted) && Copyable(rules, cas, q, before, sorted) {
          NextPackage(rules, cas, q, before, sorted, k);
        }
        return Err(record.error);
      }
      copied := copied + {cas.path(sorted[k].digest)};
      identities := identities + {KeyOf(sorted[k])};
      records := records + [record.value];
      k := k + 1;
    }
    assert sorted[..|sorted|] == sorted;
    return Ok(records);
  }

  lemma FrontOf(ps: seq<Package>, n: nat)
    requires n < |ps|
    ensures ps[..n + 1] == ps[..n] + [ps[n]]
  {
  }

  /** When the whole list is valid and copyable, the next package is valid, new and copyable. */
  lemma NextPackage(rules: Rules, cas: Cas, q: Quota, before: map<string, Bytes>, ps: seq<Package>, n: nat)
    requires n < |ps| && PackagesOk(rules, ps) && Copyable(rules, cas, q, before, ps)
    ensures PackageOk(rules, ps[n]) && KeyOf(ps[n]) !in Images(KeyOf, ps[..n])
    ensures NextCopies(rules, cas, q, before, ps[..n], ps[n])
  {
    PackagesOkAt(rules, ps, n);
    CopyableAt(rules, cas, q, before, ps, n);
  }

  lemma CopyableAt(rules: Rules, cas: Cas, q: Quota, before: map<string, Bytes>, ps: seq<Package>, n: nat)
    requires n < |ps| && Copyable(rules, cas, q, before, ps)
    ensures NextCopies(rules, cas, q, before, ps[..n], ps[n])
  {
    CopyablePrefix(rules, cas, q, before, ps, n + 1);
    assert ps[..n + 1][..n] == ps[..n];
  }

  method CaptureNext(
    rules: Rules, cas: Cas, staging: Staging, package: Package, identities: set<Key>, copied: set<string>,
    ghost q: Quota, ghost before: map<string, Bytes>, ghost ps: seq<Package>, ghost records: seq<PackageRecord>)
    returns (r: Result<PackageRecord, string>)
    requires Addresses(rules, cas)
    requires Reached(rules, cas, q, before, staging.files, staging.Budget(), ps, records, identities, copied)
    modifies staging
    ensures r.Ok? <==>
      && PackageOk(rules, package) && KeyOf(package) !in Images(KeyOf, ps)
      && NextCopies(rules, cas, q, before, ps, package)
    ensures r.Ok? ==> Reached(
      rules, cas, q, before, staging.files, staging.Budget(), ps + [package], records + [r.value],
      identities + {KeyOf(package)}, copied + {cas.path(package.digest)})
  {
    r := CaptureOne(rules, cas, staging, package, identities, copied, q, before, ps, records);
    if r.Ok? { CopyableOneMore(rules, cas, q, before, ps, package); }
  }

  method CaptureOne(
    rules: Rules, cas: Cas, staging: Staging, package: Package, identities: set<Key>, copied: set<string>,
    ghost q: Quota, ghost before: map<string, Bytes>, ghost ps: seq<Package>, ghost records: seq<PackageRecord>)
    returns (r: Result<PackageRecord, string>)
    requires Addresses(rules, cas) && Progress(rules, cas, before, staging.files, ps, records, identities, copied)
    requires staging.Budget() == Spent(cas, q, ps)
    modifies staging
    ensures r.Ok? <==>
      PackageOk(rules, package) && KeyOf(package) !in identities && NextCopies(rules, cas, q, before, ps, package)
    ensures r.Ok? ==> staging.Budget() == Spent(cas, q, ps + [package])
    ensures r.Ok? ==> Progress(
      rules, cas, before, staging.files, ps + [package], records + [r.value], identities + {KeyOf(package)},
      copied + {cas.path(package.digest)})
  {
    var sdk := CheckPackage(rules, package, identities);
    if sdk.Err? {
      return Err(sdk.error);
    }
    SharedMember(rules, cas, staging.files, ps, records, package);
    ghost var earlier := staging.files;
    var staged := StageMember(rules, cas, staging, package, copied, q, before, ps);
    if staged.Err? {
      return Err(staged.error);
    }
    ProgressOneMore(rules, cas, before, earlier, staging.files, ps, package, records, identities, copied);
    return Ok(RecordOf(cas, staging.files[cas.path(package.digest)], sdk.value, package));
  }

  lemma CopyableOneMore(rules: Rules, cas: Cas, q: Quota, before: map<string, Bytes>, ps: seq<Package>, p: Package)
    requires Copyable(rules, cas, q, before, ps) && NextCopies(rules, cas, q, before, ps, p)
    ensures Copyable(rules, cas, q, before, ps + [p])
  {
    assert (ps + [p])[..|ps|] == ps;
  }

  // ----- What the records say

  /** A record carries its package's own identity, digests and SDK versions, and the size of its staged bytes. */
  ghost predicate Describes(rules: Rules, cas: Cas, files: map<string, Bytes>, p: Package, r: PackageRecord) {
    && r.project == p.project && r.version == p.version && r.deployment == p.deployment
    && r.digest == p.digest && r.manifestDigest == p.manifestDigest
    && multiset(r.sdkApis) == multiset(p.sdkApis)
    && r.casPath == cas.path(p.digest) && r.casPath in files
    && rules.sha(files[r.casPath]) == p.digest && r.sizeBytes == |files[r.casPath]|
  }

  /** Every package has its record, every record its package, and there are as many of one as of the other. */
  lemma CapturedDescribes(
    rules: Rules, cas: Cas, before: map<string, Bytes>, files: map<string, Bytes>, packages: seq<Package>,
    m: PluginManifest, i: nat)
    returns (record: PackageRecord, package: Package)
    requires Captured(rules, cas, before, files, packages, m) && i < |packages|
    ensures |m.packages| == |packages|
    ensures record in m.packages && Describes(rules, cas, files, packages[i], record)
    ensures package in packages && Describes(rules, cas, files, package, m.packages[i])
  {
    var sorted := SortBy(packages, KeyOf);
    var k := Elsewhere(packages, sorted, i);
    record := m.packages[k];
    assert Records(rules, cas, files, sorted[k], record);
    package := sorted[i];
    assert Records(rules, cas, files, package, m.packages[i]);
    var j := Elsewhere(sorted, packages, i);
  }

  // ----- Capture and verifier agree

  lemma RecordPasses(
    rules: Rules, cas: Cas, files: map<string, Bytes>, records: seq<Member>, p: Package, r: PackageRecord)
    requires PackageOk(rules, p) && Records(rules, cas, files, p, r) && Payload(rules, files, records)
    ensures RecordOk(rules, cas, ByPath(records), r)
  {
    SortedAreCanonical(rules, p.sdkApis);
    PayloadLookup(rules, files, records, r.casPath);
  }

  lemma {:induction false} SamePaths(
    rules: Rules, cas: Cas, files: map<string, Bytes>, ps: seq<Package>, rs: seq<PackageRecord>)
    requires AllRecorded(rules, cas, files, ps, rs)
    ensures Images(CasPathOf, rs) == Images(MemberOf(cas), ps)
    decreases |ps|
  {
    if ps != [] {
      var last := |ps| - 1;
      assert Records(rules, cas, files, ps[last], rs[last]);
      SamePaths(rules, cas, files, ps[..last], rs[..last]);
    }
  }

  /**
    Whatever is staged afterwards outside the plugin directory, a captured manifest passes the
    verifier against the records of the staged files.
   */
  lemma CapturedPasses(
    rules: Rules, cas: Cas, before: map<string, Bytes>, files: map<string, Bytes>, packages: seq<Package>,
    m: PluginManifest, later: map<string, Bytes>, records: seq<Member>)
    requires Addresses(rules, cas) && Captured(rules, cas, before, files, packages, m)
    requires forall path :: path in before ==> !cas.owns(path)
    requires Keeps(files, later) && forall path :: path in later && path !in files ==> !cas.owns(path)
    requires Payload(rules, later, records)
    ensures Verified(rules, cas, m, records)
  {
    var sorted := SortBy(packages, KeyOf);
    RecordedKept(rules, cas, files, later, sorted, m.packages);
    forall k | 0 <= k < |sorted|
      ensures RecordOk(rules, cas, ByPath(records), m.packages[k]) && IdentityOf(m.packages[k]) == KeyOf(sorted[k])
    {
      assert PackageOk(rules, sorted[k]) && Records(rules, cas, later, sorted[k], m.packages[k]);
      RecordPasses(rules, cas, later, records, sorted[k], m.packages[k]);
    }
    SortBySorted(packages, KeyOf);
    SamePaths(rules, cas, files, sorted, m.packages);
    OwnedAreStaged(rules, cas, before, files, sorted, later, records);
  }

  lemma OwnedAreStaged(
    rules: Rules, cas: Cas, before: map<string, Bytes>, files: map<string, Bytes>, sorted: seq<Package>,
    later: map<string, Bytes>, records: seq<Member>)
    requires Addresses(rules, cas) && PackagesOk(rules, sorted)
    requires files.Keys == before.Keys + Images(MemberOf(cas), sorted)
    requires forall path :: path in before ==> !cas.owns(path)
    requires Keeps(files, later) && forall path :: path in later && path !in files ==> !cas.owns(path)
    requires Payload(rules, later, records)
    ensures OwnedPaths(cas, records) == Images(MemberOf(cas), sorted)
  {
    PayloadOwned(rules, cas, later, records);
    forall path ensures path in OwnedPaths(cas, records) <==> path in Images(MemberOf(cas), sorted) {
      InImages(MemberOf(cas), sorted, path);
      if path in Images(MemberOf(cas), sorted) {
        var k :| 0 <= k < |sorted| && MemberOf(cas)(sorted[k]) == path;
        assert PackageOk(rules, sorted[k]);
        assert path in files.Keys;
      }
    }
  }
}
