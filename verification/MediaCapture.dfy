/**
  The capture of media into a migration bundle, and its agreement with the media verifier.
 */
module MediaCapture {
  import opened Wrappers
  import opened Ordering
  import opened Collections
  import opened BundleInventory
  import opened MediaInventory

  function LocalItemId(m: LocalMedia): Key {
    [m.mediaId]
  }

  function RemoteItemId(m: RemoteMedia): Key {
    [m.mediaId]
  }

  function LocalItemCommon(m: LocalMedia): Common {
    Common(m.mediaId, "local", m.objectKey)
  }

  function RemoteItemCommon(m: RemoteMedia): Common {
    Common(m.mediaId, m.backendId, m.objectKey)
  }

  // ----- What the capture accepts, and what it leaves

  ghost predicate LocalItemOk(rules: Rules, m: LocalMedia) {
    && rules.identifier(m.mediaId) && rules.objectKey(m.objectKey) && rules.digest(m.digest) && m.sizeBytes >= 0
    && ValidStrings(rules, m.memoryReferences)
  }

  /** The target must hold the same R2 bucket under the same backend. */
  ghost predicate RemoteItemOk(rules: Rules, targets: map<string, R2>, m: RemoteMedia) {
    && rules.identifier(m.mediaId) && rules.identifier(m.backendId)
    && rules.r2(m.sourceIdentity).Some?
    && m.backendId in targets && rules.r2(targets[m.backendId]) == rules.r2(m.sourceIdentity)
    && rules.digest(m.digest) && m.sizeBytes >= 0 && rules.objectKey(m.objectKey)
    && ValidStrings(rules, m.memoryReferences)
  }

  function LocalRecordOf(cas: Cas, m: LocalMedia, references: seq<string>): LocalRecord {
    LocalRecord(m.mediaId, m.objectKey, m.digest, m.sizeBytes, cas.path(m.digest), references, "LOCAL_INCLUDED")
  }

  function RemoteRecordOf(m: RemoteMedia, identity: R2, references: seq<string>): RemoteRecord {
    RemoteRecord(
      m.mediaId, m.backendId, m.objectKey, m.digest, m.sizeBytes, identity, references, "SAME_R2", false)
  }

  /** The bytes of this object are staged under its digest. */
  predicate StagedAs(rules: Rules, cas: Cas, files: map<string, Bytes>, m: LocalMedia) {
    var path := cas.path(m.digest);
    path in files && rules.sha(files[path]) == m.digest && |files[path]| == m.sizeBytes
  }

  ghost predicate LocalRecorded(
    rules: Rules, cas: Cas, files: map<string, Bytes>, items: seq<LocalMedia>, rs: seq<LocalRecord>) {
    |rs| == |items| && forall k :: 0 <= k < |items| ==>
      && LocalItemOk(rules, items[k]) && StagedAs(rules, cas, files, items[k])
      && rs[k] == LocalRecordOf(cas, items[k], SortedStrings(items[k].memoryReferences))
  }

  ghost predicate RemoteRecorded(
    rules: Rules, targets: map<string, R2>, items: seq<RemoteMedia>, rs: seq<RemoteRecord>) {
    |rs| == |items| && forall k :: 0 <= k < |items| ==>
      && RemoteItemOk(rules, targets, items[k])
      && rs[k] == RemoteRecordOf(
           items[k], rules.r2(items[k].sourceIdentity).value, SortedStrings(items[k].memoryReferences))
  }

  function MemberOf(cas: Cas): LocalMedia -> string {
    (m: LocalMedia) => cas.path(m.digest)
  }

  /** The bytes the members of these objects take, each member counted once. */
  function FirstSizes(cas: Cas, items: seq<LocalMedia>): nat {
    if items == [] then 0
    else
      var front, last := items[..|items| - 1], items[|items| - 1];
      FirstSizes(cas, front) + if cas.path(last.digest) in Images(MemberOf(cas), front) then 0 else SizeOf(last.source)
  }

  ghost predicate SharesSize(cas: Cas, items: seq<LocalMedia>, m: LocalMedia) {
    forall j :: 0 <= j < |items| && MemberOf(cas)(items[j]) == cas.path(m.digest) ==> items[j].sizeBytes == m.sizeBytes
  }

  /** The next object shares a staged member of its size, or its source can be copied into a new one. */
  ghost predicate NextStages(
    rules: Rules, cas: Cas, q: Quota, before: map<string, Bytes>, items: seq<LocalMedia>, m: LocalMedia) {
    if cas.path(m.digest) in Images(MemberOf(cas), items) then SharesSize(cas, items, m)
    else
      && Delivers(rules, m.source, m.digest) && m.source.size == m.sizeBytes && m.source.size <= q.maxMember
      && q.used + FirstSizes(cas, items) + m.source.size <= q.maxTotal && cas.path(m.digest) !in before
  }

  /** Every object can be staged within the budget. */
  ghost predicate Stageable(rules: Rules, cas: Cas, q: Quota, before: map<string, Bytes>, items: seq<LocalMedia>) {
    items == []
    || (Stageable(rules, cas, q, before, items[..|items| - 1])
        && NextStages(rules, cas, q, before, items[..|items| - 1], items[|items| - 1]))
  }

  lemma {:induction false} StageablePrefix(
    rules: Rules, cas: Cas, q: Quota, before: map<string, Bytes>, items: seq<LocalMedia>, n: nat)
    requires n <= |items| && Stageable(rules, cas, q, before, items)
    ensures Stageable(rules, cas, q, before, items[..n])
    decreases |items| - n
  {
    if n == |items| {
      assert items[..n] == items;
    } else {
      StageablePrefix(rules, cas, q, before, items, n + 1);
      assert items[..n + 1][..n] == items[..n];
    }
  }

  /** Files outside the media directory do not matter for what can be staged in it. */
  lemma {:induction false} StageableAnywhere(
    rules: Rules, cas: Cas, q: Quota, a: map<string, Bytes>, b: map<string, Bytes>, items: seq<LocalMedia>)
    requires Addresses(rules, cas) && forall k :: 0 <= k < |items| ==> rules.digest(items[k].digest)
    requires forall path :: path in a || path in b ==> !cas.owns(path)
    ensures Stageable(rules, cas, q, a, items) <==> Stageable(rules, cas, q, b, items)
    decreases |items|
  {
    if items != [] {
      var front, last := items[..|items| - 1], items[|items| - 1];
      StageableAnywhere(rules, cas, q, a, b, front);
      assert cas.owns(cas.path(last.digest));
    }
  }

  function ItemCommons(local: seq<LocalMedia>, remote: seq<RemoteMedia>): seq<Common> {
    Map(LocalItemCommon, local) + Map(RemoteItemCommon, remote)
  }

  ghost predicate Captured(
    rules: Rules, cas: Cas, targets: map<string, R2>, before: map<string, Bytes>, files: map<string, Bytes>,
    local: seq<LocalMedia>, remote: seq<RemoteMedia>, m: MediaManifest) {
    var locals, remotes := SortBy(local, LocalItemId), SortBy(remote, RemoteItemId);
    && m.unknownOrphanPolicy == "PRESERVE_NEVER_DELETE" && !m.automaticDeletion
    && LocalRecorded(rules, cas, files, locals, m.local) && RemoteRecorded(rules, targets, remotes, m.r2)
    && Unambiguous(ItemCommons(locals, remotes))
    && Keeps(before, files) && files.Keys == before.Keys + Images(MemberOf(cas), locals)
  }

  /** What can be staged never takes the budget over its total. */
  lemma {:induction false} StagedWithin(
    rules: Rules, cas: Cas, q: Quota, before: map<string, Bytes>, items: seq<LocalMedia>)
    requires q.used <= q.maxTotal && Stageable(rules, cas, q, before, items)
    ensures q.used + FirstSizes(cas, items) <= q.maxTotal
  {
    if items != [] { StagedWithin(rules, cas, q, before, items[..|items| - 1]); }
  }

  // ----- What the records say

  /** A local record carries its object's own identity, size and references, and names its staged bytes. */
  ghost predicate DescribesLocal(rules: Rules, cas: Cas, files: map<string, Bytes>, m: LocalMedia, r: LocalRecord) {
    && r.mediaId == m.mediaId && r.objectKey == m.objectKey && r.digest == m.digest && r.sizeBytes == m.sizeBytes
    && multiset(r.memoryReferences) == multiset(m.memoryReferences) && r.strategy == "LOCAL_INCLUDED"
    && r.memberPath == cas.path(m.digest) && r.memberPath in files
    && rules.sha(files[r.memberPath]) == m.digest && |files[r.memberPath]| == m.sizeBytes
  }

  /** An R2 record names the one bucket that source and target share, and copies no bytes. */
  ghost predicate DescribesRemote(rules: Rules, targets: map<string, R2>, m: RemoteMedia, r: RemoteRecord) {
    && r.mediaId == m.mediaId && r.backendId == m.backendId && r.objectKey == m.objectKey
    && r.digest == m.digest && r.sizeBytes == m.sizeBytes
    && multiset(r.memoryReferences) == multiset(m.memoryReferences) && r.strategy == "SAME_R2" && !r.remoteBytesCopied
    && m.backendId in targets && rules.r2(m.sourceIdentity) == Some(r.physicalIdentity)
    && rules.r2(targets[m.backendId]) == Some(r.physicalIdentity)
  }

  /** Every local object has its record, every local record its object, as many of one as of the other. */
  lemma CapturedDescribesLocal(
    rules: Rules, cas: Cas, targets: map<string, R2>, before: map<string, Bytes>, files: map<string, Bytes>,
    local: seq<LocalMedia>, remote: seq<RemoteMedia>, m: MediaManifest, i: nat)
    returns (record: LocalRecord, item: LocalMedia)
    requires Captured(rules, cas, targets, before, files, local, remote, m) && i < |local|
    ensures |m.local| == |local|
    ensures record in m.local && DescribesLocal(rules, cas, files, local[i], record)
    ensures item in local && DescribesLocal(rules, cas, files, item, m.local[i])
  {
    var sorted := SortBy(local, LocalItemId);
    var k := Elsewhere(local, sorted, i);
    assert StagedAs(rules, cas, files, sorted[k]) && StagedAs(rules, cas, files, sorted[i]);
    record, item := m.local[k], sorted[i];
    var j := Elsewhere(sorted, local, i);
  }

  /** The same for the R2 objects. */
  lemma CapturedDescribesRemote(
    rules: Rules, cas: Cas, targets: map<string, R2>, before: map<string, Bytes>, files: map<string, Bytes>,
    local: seq<LocalMedia>, remote: seq<RemoteMedia>, m: MediaManifest, i: nat)
    returns (record: RemoteRecord, item: RemoteMedia)
    requires Captured(rules, cas, targets, before, files, local, remote, m) && i < |remote|
    ensures |m.r2| == |remote|
    ensures record in m.r2 && DescribesRemote(rules, targets, remote[i], record)
    ensures item in remote && DescribesRemote(rules, targets, item, m.r2[i])
  {
    var sorted := SortBy(remote, RemoteItemId);
    var k := Elsewhere(remote, sorted, i);
    assert RemoteItemOk(rules, targets, sorted[k]) && RemoteItemOk(rules, targets, sorted[i]);
    record, item := m.r2[k], sorted[i];
    var j := Elsewhere(sorted, remote, i);
  }

  // ----- The local loop

  ghost predicate LocalProgress(
    rules: Rules, cas: Cas, before: map<string, Bytes>, files: map<string, Bytes>, items: seq<LocalMedia>,
    rs: seq<LocalRecord>, ids: set<string>, objects: set<(string, string)>, copied: set<string>) {
    && LocalRecorded(rules, cas, files, items, rs)
    && SeenAs(Map(LocalItemCommon, items), ids, objects)
    && copied == Images(MemberOf(cas), items)
    && Keeps(before, files) && files.Keys == before.Keys + copied
  }

  /** An earlier object with this member has this digest, so the staged bytes have it too, and its size. */
  lemma SharedMember(
    rules: Rules, cas: Cas, files: map<string, Bytes>, items: seq<LocalMedia>, rs: seq<LocalRecord>, m: LocalMedia)
    requires Addresses(rules, cas) && LocalRecorded(rules, cas, files, items, rs) && rules.digest(m.digest)
    ensures cas.path(m.digest) in Images(MemberOf(cas), items) ==>
      && cas.path(m.digest) in files && rules.sha(files[cas.path(m.digest)]) == m.digest
      && (SharesSize(cas, items, m) <==> |files[cas.path(m.digest)]| == m.sizeBytes)
  {
    if cas.path(m.digest) in Images(MemberOf(cas), items) {
      InImages(MemberOf(cas), items, cas.path(m.digest));
      var k :| 0 <= k < |items| && MemberOf(cas)(items[k]) == cas.path(m.digest);
      assert LocalItemOk(rules, items[k]) && StagedAs(rules, cas, files, items[k]);
      forall j | 0 <= j < |items| && MemberOf(cas)(items[j]) == cas.path(m.digest)
        ensures items[j].sizeBytes == |files[cas.path(m.digest)]|
      {
        assert StagedAs(rules, cas, files, items[j]);
      }
    }
  }

  lemma LocalRecordedKept(
    rules: Rules, cas: Cas, earlier: map<string, Bytes>, later: map<string, Bytes>, items: seq<LocalMedia>,
    rs: seq<LocalRecord>)
    requires LocalRecorded(rules, cas, earlier, items, rs) && Keeps(earlier, later)
    ensures LocalRecorded(rules, cas, later, items, rs)
  {
    forall k | 0 <= k < |items| ensures StagedAs(rules, cas, later, items[k]) {
      assert StagedAs(rules, cas, earlier, items[k]);
    }
  }

  lemma LocalProgressOneMore(
    rules: Rules, cas: Cas, before: map<string, Bytes>, earlier: map<string, Bytes>, files: map<string, Bytes>,
    items: seq<LocalMedia>, m: LocalMedia, rs: seq<LocalRecord>, ids: set<string>, objects: set<(string, string)>,
    copied: set<string>)
    requires LocalProgress(rules, cas, before, earlier, items, rs, ids, objects, copied)
    requires LocalItemOk(rules, m) && m.mediaId !in ids && ObjectOf(LocalItemCommon(m)) !in objects
    requires Keeps(earlier, files) && files.Keys == earlier.Keys + {cas.path(m.digest)}
    requires StagedAs(rules, cas, files, m)
    ensures LocalProgress(
      rules, cas, before, files, items + [m], rs + [LocalRecordOf(cas, m, SortedStrings(m.memoryReferences))],
      ids + {m.mediaId}, objects + {ObjectOf(LocalItemCommon(m))}, copied + {cas.path(m.digest)})
  {
    LocalRecordedKept(rules, cas, earlier, files, items, rs);
    var longer := items + [m];
    assert longer[..|items|] == items;
    SeenOneMore(Map(LocalItemCommon, items), LocalItemCommon(m), ids, objects);
  }

  /** Copies the object's bytes, or checks the size of those an earlier object has staged. */
  method StageLocal(
    rules: Rules, cas: Cas, staging: Staging, m: LocalMedia, copied: set<string>, ghost q: Quota,
    ghost before: map<string, Bytes>, ghost items: seq<LocalMedia>)
    returns (r: Result<(), string>)
    requires copied == Images(MemberOf(cas), items) && staging.files.Keys == before.Keys + copied
    requires staging.Budget() == q.(used := q.used + FirstSizes(cas, items))
    requires cas.path(m.digest) in copied ==>
      && rules.sha(staging.files[cas.path(m.digest)]) == m.digest
      && (SharesSize(cas, items, m) <==> |staging.files[cas.path(m.digest)]| == m.sizeBytes)
    modifies staging
    ensures r.Ok? <==> NextStages(rules, cas, q, before, items, m)
    ensures r.Ok? ==>
      && Keeps(old(staging.files), staging.files)
      && staging.files.Keys == old(staging.files).Keys + {cas.path(m.digest)}
      && StagedAs(rules, cas, staging.files, m)
      && staging.Budget() == q.(used := q.used + FirstSizes(cas, items + [m]))
  {
    var member := cas.path(m.digest);
    assert (items + [m])[..|items|] == items;
    if member !in copied {
      r := staging.CopyVerifiedSource(rules, m.source, member, m.digest, Some(m.sizeBytes));
      return;
    }
    if |staging.files[member]| != m.sizeBytes {
      return Err("MIGRATION_MEDIA_IDENTITY_MISMATCH");
    }
    return Ok(());
  }

  method CheckLocal(rules: Rules, m: LocalMedia, ids: set<string>, objects: set<(string, string)>)
    returns (r: Result<(), string>)
    ensures r.Ok? ==>
      && m.mediaId !in ids && ObjectOf(LocalItemCommon(m)) !in objects
      && rules.identifier(m.mediaId) && rules.objectKey(m.objectKey) && rules.digest(m.digest) && m.sizeBytes >= 0
    ensures r.Err? ==>
      (!LocalItemOk(rules, m) || m.mediaId in ids || ObjectOf(LocalItemCommon(m)) in objects)
  {
    if !rules.identifier(m.mediaId) {
      return Err("MIGRATION_IDENTIFIER_INVALID");
    }
    if m.mediaId in ids {
      return Err("MIGRATION_MEDIA_IDENTITY_DUPLICATED");
    }
    if !rules.objectKey(m.objectKey) {
      return Err("MIGRATION_OBJECT_KEY_INVALID");
    }
    if ("local", m.objectKey) in objects {
      return Err("MIGRATION_MEDIA_OWNERSHIP_AMBIGUOUS");
    }
    if !rules.digest(m.digest) {
      return Err("MIGRATION_MEDIA_DIGEST_INVALID");
    }
    if m.sizeBytes < 0 {
      return Err("MIGRATION_MEDIA_SIZE_INVALID");
    }
    return Ok(());
  }

  /** The next object is valid, new and can be staged. */
  ghost predicate NextFits(
    rules: Rules, cas: Cas, q: Quota, before: map<string, Bytes>, items: seq<LocalMedia>, m: LocalMedia,
    ids: set<string>, objects: set<(string, string)>) {
    && LocalItemOk(rules, m) && m.mediaId !in ids && ObjectOf(LocalItemCommon(m)) !in objects
    && NextStages(rules, cas, q, before, items, m)
  }

  method CaptureLocal(
    rules: Rules, cas: Cas, staging: Staging, m: LocalMedia, ids: set<string>, objects: set<(string, string)>,
    copied: set<string>, ghost q: Quota, ghost before: map<string, Bytes>, ghost items: seq<LocalMedia>,
    ghost rs: seq<LocalRecord>)
    returns (r: Result<LocalRecord, string>)
    requires Addresses(rules, cas)
    requires LocalProgress(rules, cas, before, staging.files, items, rs, ids, objects, copied)
    requires staging.Budget() == q.(used := q.used + FirstSizes(cas, items))
    modifies staging
    ensures r.Ok? <==> NextFits(rules, cas, q, before, items, m, ids, objects)
    ensures r.Ok? ==> staging.Budget() == q.(used := q.used + FirstSizes(cas, items + [m]))
    ensures r.Ok? ==> LocalProgress(
      rules, cas, before, staging.files, items + [m], rs + [r.value], ids + {m.mediaId},
      objects + {ObjectOf(LocalItemCommon(m))}, copied + {cas.path(m.digest)})
  {
    var checked := CheckLocal(rules, m, ids, objects);
    if checked.Err? {
      return Err(checked.error);
    }
    SharedMember(rules, cas, staging.files, items, rs, m);
    ghost var earlier := staging.files;
    var staged := StageLocal(rules, cas, staging, m, copied, q, before, items);
    if staged.Err? {
      return Err(staged.error);
    }
    var references := SortedUniqueStrings(rules, m.memoryReferences, false);
    if references.None? {
      return Err("MIGRATION_MEMORY_REFERENCE_INVALID");
    }
    LocalProgressOneMore(rules, cas, before, earlier, staging.files, items, m, rs, ids, objects, copied);
    return Ok(LocalRecordOf(cas, m, references.value));
  }

  ghost predicate LocalItemsOk(rules: Rules, items: seq<LocalMedia>) {
    (forall k :: 0 <= k < |items| ==> LocalItemOk(rules, items[k])) && Unambiguous(Map(LocalItemCommon, items))
  }

  lemma LocalItemFits(
    rules: Rules, items: seq<LocalMedia>, n: nat, ids: set<string>, objects: set<(string, string)>)
    requires LocalItemsOk(rules, items) && n < |items|
    requires SeenAs(Map(LocalItemCommon, items[..n]), ids, objects)
    ensures LocalItemOk(rules, items[n])
    ensures items[n].mediaId !in ids && ObjectOf(LocalItemCommon(items[n])) !in objects
  {
    MapOneMore(LocalItemCommon, items, n);
    UnambiguousPrefix(Map(LocalItemCommon, items), n + 1);
    assert Map(LocalItemCommon, items)[..n + 1] == Map(LocalItemCommon, items[..n + 1]);
    SeenOneMore(Map(LocalItemCommon, items[..n]), LocalItemCommon(items[n]), ids, objects);
  }

  method CaptureLocals(rules: Rules, cas: Cas, staging: Staging, sorted: seq<LocalMedia>)
    returns (r: Result<seq<LocalRecord>, string>, ids: set<string>, objects: set<(string, string)>)
    requires Addresses(rules, cas)
    modifies staging
    ensures r.Ok? <==>
      LocalItemsOk(rules, sorted) && Stageable(rules, cas, old(staging.Budget()), old(staging.files), sorted)
    ensures r.Ok? ==>
      && LocalRecorded(rules, cas, staging.files, sorted, r.value)
      && SeenAs(Map(LocalItemCommon, sorted), ids, objects)
      && Keeps(old(staging.files), staging.files)
      && staging.files.Keys == old(staging.files).Keys + Images(MemberOf(cas), sorted)
  {
    ghost var q, before := staging.Budget(), staging.files;
    var records: seq<LocalRecord> := [];
    var copied: set<string> := {};
    ids, objects := {}, {};
    for k := 0 to |sorted|
      invariant LocalProgress(rules, cas, before, staging.files, sorted[..k], records, ids, objects, copied)
      invariant Stageable(rules, cas, q, before, sorted[..k])
      invariant staging.Budget() == q.(used := q.used + FirstSizes(cas, sorted[..k]))
    {
      NextLocal(rules, cas, q, before, sorted, k, ids, objects);
      var item := sorted[k];
      var one := CaptureLocal(
        rules, cas, staging, item, ids, objects, copied, q, before, sorted[..k], records);
      if one.Err? {
        return Err(one.error), ids, objects;
      }
      ids, objects := ids + {item.mediaId}, objects + {ObjectOf(LocalItemCommon(item))};
      copied, records := copied + {cas.path(item.digest)}, records + [one.value];
    }
    assert sorted[..|sorted|] == sorted;
    LocalProgressValid(
      rules, cas, before, staging.files, sorted, records, ids, objects, copied);
    return Ok(records), ids, objects;
  }

  lemma LocalProgressValid(
    rules: Rules, cas: Cas, before: map<string, Bytes>, files: map<string, Bytes>, items: seq<LocalMedia>,
    rs: seq<LocalRecord>, ids: set<string>, objects: set<(string, string)>, copied: set<string>)
    requires LocalProgress(rules, cas, before, files, items, rs, ids, objects, copied)
    ensures LocalItemsOk(rules, items)
  {
  }

  /** The next object extends what can be staged, and is itself valid, new and stageable if the whole list is. */
  lemma NextLocal(
    rules: Rules, cas: Cas, q: Quota, before: map<string, Bytes>, items: seq<LocalMedia>, n: nat, ids: set<string>,
    objects: set<(string, string)>)
    requires n < |items| && Stageable(rules, cas, q, before, items[..n])
    requires SeenAs(Map(LocalItemCommon, items[..n]), ids, objects)
    ensures items[..n + 1] == items[..n] + [items[n]]
    ensures NextFits(rules, cas, q, before, items[..n], items[n], ids, objects) ==>
      Stageable(rules, cas, q, before, items[..n + 1])
    ensures LocalItemsOk(rules, items) && Stageable(rules, cas, q, before, items) ==>
      NextFits(rules, cas, q, before, items[..n], items[n], ids, objects)
  {
    NextStageable(rules, cas, q, before, items, n);
    if LocalItemsOk(rules, items) { LocalItemFits(rules, items, n, ids, objects); }
  }

  lemma NextStageable(rules: Rules, cas: Cas, q: Quota, before: map<string, Bytes>, items: seq<LocalMedia>, n: nat)
    requires n < |items| && Stageable(rules, cas, q, before, items[..n])
    ensures NextStages(rules, cas, q, before, items[..n], items[n]) ==> Stageable(rules, cas, q, before, items[..n + 1])
    ensures Stageable(rules, cas, q, before, items) ==> NextStages(rules, cas, q, before, items[..n], items[n])
  {
    assert items[..n + 1][..n] == items[..n];
    if Stageable(rules, cas, q, before, items) { StageablePrefix(rules, cas, q, before, items, n + 1); }
  }

  // ----- The remote loop

  method CheckRemote(
    rules: Rules, targets: map<string, R2>, m: RemoteMedia, ids: set<string>, objects: set<(string, string)>)
    returns (r: Result<RemoteRecord, string>)
    ensures r.Ok? <==>
      && RemoteItemOk(rules, targets, m) && m.mediaId !in ids && ObjectOf(RemoteItemCommon(m)) !in objects
    ensures r.Ok? ==>
      r.value == RemoteRecordOf(m, rules.r2(m.sourceIdentity).value, SortedStrings(m.memoryReferences))
  {
    if !rules.identifier(m.mediaId) || !rules.identifier(m.backendId) {
      return Err("MIGRATION_IDENTIFIER_INVALID");
    }
    if m.mediaId in ids {
      return Err("MIGRATION_MEDIA_IDENTITY_DUPLICATED");
    }
    var identity := rules.r2(m.sourceIdentity);
    if identity.None? || m.backendId !in targets || rules.r2(targets[m.backendId]).None? {
      return Err("MIGRATION_R2_IDENTITY_INDETERMINATE");
    }
    if rules.r2(targets[m.backendId]) != identity {
      return Err("MIGRATION_R2_TRANSFER_REQUIRED");
    }
    if !rules.digest(m.digest) || m.sizeBytes < 0 || !rules.objectKey(m.objectKey) {
      return Err("MIGRATION_MEDIA_INVALID");
    }
    if (m.backendId, m.objectKey) in objects {
      return Err("MIGRATION_MEDIA_OWNERSHIP_AMBIGUOUS");
    }
    var references := SortedUniqueStrings(rules, m.memoryReferences, false);
    if references.None? {
      return Err("MIGRATION_MEMORY_REFERENCE_INVALID");
    }
    return Ok(RemoteRecordOf(m, identity.value, references.value));
  }

  ghost predicate RemoteItemsOk(rules: Rules, targets: map<string, R2>, local: seq<Common>, items: seq<RemoteMedia>) {
    && (forall k :: 0 <= k < |items| ==> RemoteItemOk(rules, targets, items[k]))
    && Unambiguous(local + Map(RemoteItemCommon, items))
  }

  lemma RemoteItemFits(
    rules: Rules, targets: map<string, R2>, local: seq<Common>, items: seq<RemoteMedia>, n: nat, ids: set<string>,
    objects: set<(string, string)>)
    requires n < |items| && SeenAs(local + Map(RemoteItemCommon, items[..n]), ids, objects)
    ensures RemoteItemsOk(rules, targets, local, items) ==>
      && RemoteItemOk(rules, targets, items[n])
      && items[n].mediaId !in ids && ObjectOf(RemoteItemCommon(items[n])) !in objects
    ensures items[n].mediaId !in ids && ObjectOf(RemoteItemCommon(items[n])) !in objects ==>
      SeenAs(
        local + Map(RemoteItemCommon, items[..n + 1]), ids + {items[n].mediaId},
        objects + {ObjectOf(RemoteItemCommon(items[n]))})
  {
    var seen := local + Map(RemoteItemCommon, items[..n]);
    MapOneMore(RemoteItemCommon, items, n);
    assert local + Map(RemoteItemCommon, items[..n + 1]) == seen + [RemoteItemCommon(items[n])];
    SeenOneMore(seen, RemoteItemCommon(items[n]), ids, objects);
    if RemoteItemsOk(rules, targets, local, items) {
      UnambiguousPrefix(local + Map(RemoteItemCommon, items), |local| + n + 1);
      assert (local + Map(RemoteItemCommon, items))[..|local| + n + 1] == seen + [RemoteItemCommon(items[n])];
    }
  }

  method CaptureRemotes(
    rules: Rules, targets: map<string, R2>, ghost local: seq<Common>, sorted: seq<RemoteMedia>,
    seenIds: set<string>, seenObjects: set<(string, string)>)
    returns (r: Result<seq<RemoteRecord>, string>)
    requires SeenAs(local, seenIds, seenObjects)
    ensures r.Ok? <==> RemoteItemsOk(rules, targets, local, sorted)
    ensures r.Ok? ==> RemoteRecorded(rules, targets, sorted, r.value)
  {
    var records: seq<RemoteRecord> := [];
    var ids, objects := seenIds, seenObjects;
    assert local + Map(RemoteItemCommon, sorted[..0]) == local;
    for k := 0 to |sorted|
      invariant RemoteRecorded(rules, targets, sorted[..k], records)
      invariant SeenAs(local + Map(RemoteItemCommon, sorted[..k]), ids, objects)
    {
      RemoteItemFits(rules, targets, local, sorted, k, ids, objects);
      var item := sorted[k];
      var one := CheckRemote(rules, targets, item, ids, objects);
      if one.Err? {
        return Err(one.error);
      }
      RemoteRecordedOneMore(rules, targets, sorted, k, records, one.value);
      ids, objects := ids + {item.mediaId}, objects + {ObjectOf(RemoteItemCommon(item))};
      records := records + [one.value];
    }
    assert sorted[..|sorted|] == sorted;
    return Ok(records);
  }

  lemma RemoteRecordedOneMore(
    rules: Rules, targets: map<string, R2>, items: seq<RemoteMedia>, n: nat, rs: seq<RemoteRecord>, r: RemoteRecord)
    requires n < |items| && RemoteRecorded(rules, targets, items[..n], rs)
    requires RemoteItemOk(rules, targets, items[n])
    requires r == RemoteRecordOf(
      items[n], rules.r2(items[n].sourceIdentity).value, SortedStrings(items[n].memoryReferences))
    ensures RemoteRecorded(rules, targets, items[..n + 1], rs + [r])
  {
    assert items[..n + 1] == items[..n] + [items[n]];
  }

  method CaptureMedia(
    rules: Rules, cas: Cas, targets: map<string, R2>, staging: Staging, local: seq<LocalMedia>,
    remote: seq<RemoteMedia>)
    returns (r: Result<MediaManifest, string>)
    requires Addresses(rules, cas)
    modifies staging
    ensures r.Ok? <==>
      && LocalItemsOk(rules, SortBy(local, LocalItemId))
      && Stageable(rules, cas, old(staging.Budget()), old(staging.files), SortBy(local, LocalItemId))
      && RemoteItemsOk(
           rules, targets, Map(LocalItemCommon, SortBy(local, LocalItemId)), SortBy(remote, RemoteItemId))
    ensures r.Ok? ==> Captured(rules, cas, targets, old(staging.files), staging.files, local, remote, r.value)
  {
    var sortedLocal := SortBy(local, LocalItemId);
    var sortedRemote := SortBy(remote, RemoteItemId);
    var locals, ids, objects := CaptureLocals(rules, cas, staging, sortedLocal);
    if locals.Err? {
      return Err(locals.error);
    }
    var remotes := CaptureRemotes(rules, targets, Map(LocalItemCommon, sortedLocal), sortedRemote, ids, objects);
    if remotes.Err? {
      return Err(remotes.error);
    }
    return Ok(MediaManifest(locals.value, remotes.value, "PRESERVE_NEVER_DELETE", false));
  }

  // ----- Capture and verifier agree

  lemma LocalRecordPasses(
    rules: Rules, cas: Cas, files: map<string, Bytes>, records: seq<Member>, m: LocalMedia)
    requires LocalItemOk(rules, m) && StagedAs(rules, cas, files, m) && Payload(rules, files, records)
    ensures LocalOk(rules, cas, ByPath(records), LocalRecordOf(cas, m, SortedStrings(m.memoryReferences)))
  {
    SortedAreCanonical(rules, m.memoryReferences);
    PayloadLookup(rules, files, records, cas.path(m.digest));
  }

  lemma RemoteRecordPasses(rules: Rules, targets: map<string, R2>, m: RemoteMedia)
    requires SettlesR2(rules) && RemoteItemOk(rules, targets, m)
    ensures RemoteOk(
      rules, RemoteRecordOf(m, rules.r2(m.sourceIdentity).value, SortedStrings(m.memoryReferences)))
  {
    SortedAreCanonical(rules, m.memoryReferences);
  }

  lemma {:induction false} LocalsPass(
    rules: Rules, cas: Cas, files: map<string, Bytes>, records: seq<Member>, items: seq<LocalMedia>,
    rs: seq<LocalRecord>)
    requires LocalRecorded(rules, cas, files, items, rs) && Payload(rules, files, records)
    ensures LocalsOk(rules, cas, ByPath(records), rs)
    decreases |items|
  {
    if items != [] {
      var last := |items| - 1;
      LocalsPass(rules, cas, files, records, items[..last], rs[..last]);
      LocalRecordPasses(rules, cas, files, records, items[last]);
    }
  }

  lemma {:induction false} LocalsCorrespond(
    rules: Rules, cas: Cas, files: map<string, Bytes>, items: seq<LocalMedia>, rs: seq<LocalRecord>)
    requires LocalRecorded(rules, cas, files, items, rs)
    ensures Map(LocalCommon, rs) == Map(LocalItemCommon, items)
    ensures Images(MemberPathOf, rs) == Images(MemberOf(cas), items)
    decreases |items|
  {
    if items != [] {
      var last := |items| - 1;
      LocalsCorrespond(rules, cas, files, items[..last], rs[..last]);
    }
  }

  lemma {:induction false} RemotesPass(
    rules: Rules, targets: map<string, R2>, items: seq<RemoteMedia>, rs: seq<RemoteRecord>)
    requires SettlesR2(rules) && RemoteRecorded(rules, targets, items, rs)
    ensures RemotesOk(rules, rs)
    ensures Map(RemoteCommon, rs) == Map(RemoteItemCommon, items)
    decreases |items|
  {
    if items != [] {
      var last := |items| - 1;
      RemotesPass(rules, targets, items[..last], rs[..last]);
      RemoteRecordPasses(rules, targets, items[last]);
    }
  }

  /** Sorted by identity without repeats: the order the verifier demands. */
  lemma LocalsAscend(local: seq<LocalMedia>, rs: seq<LocalRecord>)
    requires Map(LocalCommon, rs) == Map(LocalItemCommon, SortBy(local, LocalItemId))
    requires Distinct(IdOf, Map(LocalCommon, rs))
    ensures Ascending(rs, LocalId)
  {
    var sorted := SortBy(local, LocalItemId);
    SortBySorted(local, LocalItemId);
    assert |rs| == |Map(LocalCommon, rs)| == |sorted|;
    forall k | 0 <= k < |rs| ensures LocalId(rs[k]) == LocalItemId(sorted[k]) {
      assert Map(LocalCommon, rs)[k] == Map(LocalItemCommon, sorted)[k];
    }
    forall i, j | 0 <= i < j < |rs| ensures LocalId(rs[i]) != LocalId(rs[j]) {
      assert IdOf(Map(LocalCommon, rs)[i]) != IdOf(Map(LocalCommon, rs)[j]);
    }
    SortedDistinctAscending(rs, LocalId);
  }

  lemma RemotesAscend(remote: seq<RemoteMedia>, rs: seq<RemoteRecord>)
    requires Map(RemoteCommon, rs) == Map(RemoteItemCommon, SortBy(remote, RemoteItemId))
    requires Distinct(IdOf, Map(RemoteCommon, rs))
    ensures Ascending(rs, RemoteId)
  {
    var sorted := SortBy(remote, RemoteItemId);
    SortBySorted(remote, RemoteItemId);
    assert |rs| == |Map(RemoteCommon, rs)| == |sorted|;
    forall k | 0 <= k < |rs| ensures RemoteId(rs[k]) == RemoteItemId(sorted[k]) {
      assert Map(RemoteCommon, rs)[k] == Map(RemoteItemCommon, sorted)[k];
    }
    forall i, j | 0 <= i < j < |rs| ensures RemoteId(rs[i]) != RemoteId(rs[j]) {
      assert IdOf(Map(RemoteCommon, rs)[i]) != IdOf(Map(RemoteCommon, rs)[j]);
    }
    SortedDistinctAscending(rs, RemoteId);
  }

  lemma OwnedAreStaged(
    rules: Rules, cas: Cas, before: map<string, Bytes>, files: map<string, Bytes>, items: seq<LocalMedia>,
    later: map<string, Bytes>, records: seq<Member>)
    requires Addresses(rules, cas) && forall k :: 0 <= k < |items| ==> LocalItemOk(rules, items[k])
    requires files.Keys == before.Keys + Images(MemberOf(cas), items)
    requires forall path :: path in before ==> !cas.owns(path)
    requires Keeps(files, later) && forall path :: path in later && path !in files ==> !cas.owns(path)
    requires Payload(rules, later, records)
    ensures OwnedPaths(cas, records) == Images(MemberOf(cas), items)
  {
    PayloadOwned(rules, cas, later, records);
    forall path ensures path in OwnedPaths(cas, records) <==> path in Images(MemberOf(cas), items) {
      InImages(MemberOf(cas), items, path);
      if path in Images(MemberOf(cas), items) {
        var k :| 0 <= k < |items| && MemberOf(cas)(items[k]) == path;
        assert LocalItemOk(rules, items[k]);
        assert path in files.Keys;
      }
    }
  }

  lemma UnambiguousParts(a: seq<Common>, b: seq<Common>)
    requires Unambiguous(a + b)
    ensures Distinct(IdOf, a) && Distinct(IdOf, b)
  {
    forall i, j | 0 <= i < j < |a| ensures IdOf(a[i]) != IdOf(a[j]) {
      assert (a + b)[i] == a[i] && (a + b)[j] == a[j];
    }
    forall i, j | 0 <= i < j < |b| ensures IdOf(b[i]) != IdOf(b[j]) {
      assert (a + b)[|a| + i] == b[i] && (a + b)[|a| + j] == b[j];
    }
  }

  /**
    Whatever is staged afterwards outside the local media directory, a captured manifest passes the
    verifier against the records of the staged files.
   */
  lemma CapturedPasses(
    rules: Rules, cas: Cas, targets: map<string, R2>, before: map<string, Bytes>, files: map<string, Bytes>,
    local: seq<LocalMedia>, remote: seq<RemoteMedia>, m: MediaManifest, later: map<string, Bytes>,
    records: seq<Member>)
    requires Addresses(rules, cas) && SettlesR2(rules)
    requires Captured(rules, cas, targets, before, files, local, remote, m)
    requires forall path :: path in before ==> !cas.owns(path)
    requires Keeps(files, later) && forall path :: path in later && path !in files ==> !cas.owns(path)
    requires Payload(rules, later, records)
    ensures Verified(rules, cas, m, records)
  {
    var locals, remotes := SortBy(local, LocalItemId), SortBy(remote, RemoteItemId);
    OwnedAreStaged(rules, cas, before, files, locals, later, records);
    LocalRecordedKept(rules, cas, files, later, locals, m.local);
    LocalsPass(rules, cas, later, records, locals, m.local);
    LocalsCorrespond(rules, cas, later, locals, m.local);
    RemotesPass(rules, targets, remotes, m.r2);
    UnambiguousParts(Map(LocalCommon, m.local), Map(RemoteCommon, m.r2));
    LocalsAscend(local, m.local);
    RemotesAscend(remote, m.r2);
  }

  lemma {:induction false} LocalsOkAt(
    rules: Rules, cas: Cas, members: map<string, Member>, rs: seq<LocalRecord>, k: nat)
    requires LocalsOk(rules, cas, members, rs) && k < |rs|
    ensures LocalOk(rules, cas, members, rs[k])
    decreases |rs|
  {
    if k < |rs| - 1 { LocalsOkAt(rules, cas, members, rs[..|rs| - 1], k); }
  }

  /** The staged local media are exactly the declared digests, with those bytes and sizes. */
  lemma VerifiedMembers(
    rules: Rules, cas: Cas, m: MediaManifest, files: map<string, Bytes>, records: seq<Member>)
    requires Verified(rules, cas, m, records) && Payload(rules, files, records)
    ensures forall path :: path in files && cas.owns(path) ==>
      exists k :: 0 <= k < |m.local| && path == cas.path(m.local[k].digest)
    ensures forall k :: 0 <= k < |m.local| ==>
      var path := cas.path(m.local[k].digest);
      path in files && cas.owns(path) && rules.sha(files[path]) == m.local[k].digest
      && |files[path]| == m.local[k].sizeBytes
  {
    PayloadOwned(rules, cas, files, records);
    forall path | path in files && cas.owns(path)
      ensures exists k :: 0 <= k < |m.local| && path == cas.path(m.local[k].digest)
    {
      InImages(MemberPathOf, m.local, path);
      var k :| 0 <= k < |m.local| && MemberPathOf(m.local[k]) == path;
      LocalsOkAt(rules, cas, ByPath(records), m.local, k);
    }
    forall k | 0 <= k < |m.local|
      ensures var path := cas.path(m.local[k].digest);
        path in files && cas.owns(path) && rules.sha(files[path]) == m.local[k].digest
        && |files[path]| == m.local[k].sizeBytes
    {
      VerifiedMember(rules, cas, m, files, records, k);
    }
  }

  lemma VerifiedMember(
    rules: Rules, cas: Cas, m: MediaManifest, files: map<string, Bytes>, records: seq<Member>, k: nat)
    requires Verified(rules, cas, m, records) && Payload(rules, files, records) && k < |m.local|
    ensures var path := cas.path(m.local[k].digest);
      path in files && cas.owns(path) && rules.sha(files[path]) == m.local[k].digest
      && |files[path]| == m.local[k].sizeBytes
  {
    var r := m.local[k];
    LocalsOkAt(rules, cas, ByPath(records), m.local, k);
    InImages(MemberPathOf, m.local, r.memberPath);
    assert MemberPathOf(m.local[k]) == r.memberPath;
    PayloadOwned(rules, cas, files, records);
    PayloadLookup(rules, files, records, r.memberPath);
  }
}
