/**
  The media inventory of a migration bundle: local objects, whose bytes are staged, and R2 objects,
  which stay where they are.  Media identities and object ownership are unique across both lists.
 */
module MediaInventory {
  import opened Wrappers
  import opened Ordering
  import opened Collections
  import opened BundleInventory

  datatype LocalMedia = LocalMedia(
    mediaId: string, objectKey: string, digest: string, sizeBytes: int, memoryReferences: seq<string>,
    source: Source)

  datatype RemoteMedia = RemoteMedia(
    mediaId: string, backendId: string, objectKey: string, digest: string, sizeBytes: int,
    memoryReferences: seq<string>, sourceIdentity: R2)

  datatype LocalRecord = LocalRecord(
    mediaId: string, objectKey: string, digest: string, sizeBytes: int, memberPath: string,
    memoryReferences: seq<string>, strategy: string)

  datatype RemoteRecord = RemoteRecord(
    mediaId: string, backendId: string, objectKey: string, digest: string, sizeBytes: int, physicalIdentity: R2,
    memoryReferences: seq<string>, strategy: string, remoteBytesCopied: bool)

  datatype MediaManifest = MediaManifest(
    local: seq<LocalRecord>, r2: seq<RemoteRecord>, unknownOrphanPolicy: string, automaticDeletion: bool)

  // ----- Uniqueness across both lists

  /** What identifies a media object, and who owns its bytes. */
  datatype Common = Common(mediaId: string, owner: string, objectKey: string)

  function IdOf(c: Common): string {
    c.mediaId
  }

  function ObjectOf(c: Common): (string, string) {
    (c.owner, c.objectKey)
  }

  ghost predicate Unambiguous(seen: seq<Common>) {
    Distinct(IdOf, seen) && Distinct(ObjectOf, seen)
  }

  /** The host's two seen-sets after these objects. */
  ghost predicate SeenAs(seen: seq<Common>, ids: set<string>, objects: set<(string, string)>) {
    Unambiguous(seen) && ids == Images(IdOf, seen) && objects == Images(ObjectOf, seen)
  }

  lemma SeenOneMore(seen: seq<Common>, c: Common, ids: set<string>, objects: set<(string, string)>)
    requires SeenAs(seen, ids, objects)
    ensures Unambiguous(seen + [c]) <==> c.mediaId !in ids && ObjectOf(c) !in objects
    ensures Unambiguous(seen + [c]) ==> SeenAs(seen + [c], ids + {c.mediaId}, objects + {ObjectOf(c)})
  {
    var longer := seen + [c];
    assert longer[..|seen|] == seen && longer[..|seen| + 1] == longer;
    DistinctOneMore(IdOf, longer, |seen|);
    DistinctOneMore(ObjectOf, longer, |seen|);
  }

  lemma UnambiguousPrefix(seen: seq<Common>, n: nat)
    requires n <= |seen| && Unambiguous(seen)
    ensures Unambiguous(seen[..n])
  {
  }

  function LocalCommon(r: LocalRecord): Common {
    Common(r.mediaId, "local", r.objectKey)
  }

  function RemoteCommon(r: RemoteRecord): Common {
    Common(r.mediaId, r.backendId, r.objectKey)
  }

  function Commons(local: seq<LocalRecord>, remote: seq<RemoteRecord>): seq<Common> {
    Map(LocalCommon, local) + Map(RemoteCommon, remote)
  }

  lemma CommonAt(local: seq<LocalRecord>, remote: seq<RemoteRecord>, k: nat)
    requires k < |Commons(local, remote)|
    ensures |Commons(local, remote)| == |local| + |remote|
    ensures Commons(local, remote)[k]
      == if k < |local| then LocalCommon(local[k]) else RemoteCommon(remote[k - |local|])
  {
  }

  /** One media identity names one object in one list, and one place holds one object. */
  lemma UnambiguousMeans(local: seq<LocalRecord>, remote: seq<RemoteRecord>, i: nat, j: nat)
    requires Unambiguous(Commons(local, remote))
    ensures i < j < |local| ==>
      local[i].mediaId != local[j].mediaId && local[i].objectKey != local[j].objectKey
    ensures i < j < |remote| ==>
      && remote[i].mediaId != remote[j].mediaId
      && (remote[i].backendId, remote[i].objectKey) != (remote[j].backendId, remote[j].objectKey)
    ensures i < |local| && j < |remote| ==>
      && local[i].mediaId != remote[j].mediaId
      && !(remote[j].backendId == "local" && remote[j].objectKey == local[i].objectKey)
  {
    var all := Commons(local, remote);
    if i < j < |local| {
      CommonAt(local, remote, i);
      CommonAt(local, remote, j);
      assert IdOf(all[i]) != IdOf(all[j]) && ObjectOf(all[i]) != ObjectOf(all[j]);
    }
    if i < j < |remote| {
      CommonAt(local, remote, |local| + i);
      CommonAt(local, remote, |local| + j);
      assert IdOf(all[|local| + i]) != IdOf(all[|local| + j]) && ObjectOf(all[|local| + i]) != ObjectOf(all[|local| + j]);
    }
    if i < |local| && j < |remote| {
      CommonAt(local, remote, i);
      CommonAt(local, remote, |local| + j);
      assert IdOf(all[i]) != IdOf(all[|local| + j]) && ObjectOf(all[i]) != ObjectOf(all[|local| + j]);
    }
  }

  // ----- What the verifier accepts

  ghost predicate CommonOk(
    rules: Rules, mediaId: string, objectKey: string, digest: string, sizeBytes: int, references: seq<string>) {
    && rules.identifier(mediaId) && rules.objectKey(objectKey) && rules.digest(digest) && sizeBytes >= 0
    && CanonicalStrings(rules, references)
  }

  ghost predicate LocalOk(rules: Rules, cas: Cas, members: map<string, Member>, r: LocalRecord) {
    && r.strategy == "LOCAL_INCLUDED"
    && CommonOk(rules, r.mediaId, r.objectKey, r.digest, r.sizeBytes, r.memoryReferences)
    && r.memberPath == cas.path(r.digest) && r.memberPath in members
    && members[r.memberPath].sha256 == r.digest && members[r.memberPath].sizeBytes == r.sizeBytes
  }

  ghost predicate RemoteOk(rules: Rules, r: RemoteRecord) {
    && r.strategy == "SAME_R2" && !r.remoteBytesCopied
    && CommonOk(rules, r.mediaId, r.objectKey, r.digest, r.sizeBytes, r.memoryReferences)
    && rules.identifier(r.backendId) && rules.r2(r.physicalIdentity) == Some(r.physicalIdentity)
  }

  ghost predicate LocalsOk(rules: Rules, cas: Cas, members: map<string, Member>, rs: seq<LocalRecord>) {
    rs == [] || (LocalsOk(rules, cas, members, rs[..|rs| - 1]) && LocalOk(rules, cas, members, rs[|rs| - 1]))
  }

  ghost predicate RemotesOk(rules: Rules, rs: seq<RemoteRecord>) {
    rs == [] || (RemotesOk(rules, rs[..|rs| - 1]) && RemoteOk(rules, rs[|rs| - 1]))
  }

  function LocalId(r: LocalRecord): Key {
    [r.mediaId]
  }

  function RemoteId(r: RemoteRecord): Key {
    [r.mediaId]
  }

  function MemberPathOf(r: LocalRecord): string {
    r.memberPath
  }

  ghost predicate Verified(rules: Rules, cas: Cas, m: MediaManifest, records: seq<Member>) {
    && m.unknownOrphanPolicy == "PRESERVE_NEVER_DELETE" && !m.automaticDeletion
    && LocalsOk(rules, cas, ByPath(records), m.local) && RemotesOk(rules, m.r2)
    && Ascending(m.local, LocalId) && Ascending(m.r2, RemoteId)
    && Unambiguous(Commons(m.local, m.r2))
    && Images(MemberPathOf, m.local) == OwnedPaths(cas, records)
  }

  // ----- The verifier

  method VerifyCommon(
    rules: Rules, mediaId: string, objectKey: string, digest: string, sizeBytes: int, references: seq<string>)
    returns (ok: bool)
    ensures ok <==> CommonOk(rules, mediaId, objectKey, digest, sizeBytes, references)
  {
    if !rules.identifier(mediaId) || !rules.objectKey(objectKey) || !rules.digest(digest) || sizeBytes < 0 {
      return false;
    }
    var canonical := SortedUniqueStrings(rules, references, true);
    return canonical.Some?;
  }

  method VerifyLocal(rules: Rules, cas: Cas, members: map<string, Member>, r: LocalRecord) returns (ok: bool)
    ensures ok <==> LocalOk(rules, cas, members, r)
  {
    if r.strategy != "LOCAL_INCLUDED" {
      return false;
    }
    var common := VerifyCommon(rules, r.mediaId, r.objectKey, r.digest, r.sizeBytes, r.memoryReferences);
    if !common {
      return false;
    }
    var expected := cas.path(r.digest);
    if r.memberPath != expected || expected !in members {
      return false;
    }
    return r.digest == members[expected].sha256 && r.sizeBytes == members[expected].sizeBytes;
  }

  method VerifyRemote(rules: Rules, r: RemoteRecord) returns (ok: bool)
    ensures ok <==> RemoteOk(rules, r)
  {
    if r.strategy != "SAME_R2" || r.remoteBytesCopied {
      return false;
    }
    var common := VerifyCommon(rules, r.mediaId, r.objectKey, r.digest, r.sizeBytes, r.memoryReferences);
    if !common {
      return false;
    }
    return rules.identifier(r.backendId) && rules.r2(r.physicalIdentity) == Some(r.physicalIdentity);
  }

  /** The state of the local loop after these records. */
  ghost predicate LocalSeen(
    rules: Rules, cas: Cas, members: map<string, Member>, rs: seq<LocalRecord>, ids: set<string>,
    objects: set<(string, string)>) {
    && LocalsOk(rules, cas, members, rs) && Ascending(rs, LocalId)
    && SeenAs(Map(LocalCommon, rs), ids, objects)
  }

  ghost predicate LocalPasses(rules: Rules, cas: Cas, members: map<string, Member>, rs: seq<LocalRecord>) {
    LocalsOk(rules, cas, members, rs) && Ascending(rs, LocalId) && Unambiguous(Map(LocalCommon, rs))
  }

  lemma LocalOneMore(
    rules: Rules, cas: Cas, members: map<string, Member>, rs: seq<LocalRecord>, n: nat, ids: set<string>,
    objects: set<(string, string)>)
    requires n < |rs| && LocalSeen(rules, cas, members, rs[..n], ids, objects)
    ensures
      var fits := LocalOk(rules, cas, members, rs[n]) && (n > 0 ==> Before(rs[n - 1].mediaId, rs[n].mediaId))
        && rs[n].mediaId !in ids && ObjectOf(LocalCommon(rs[n])) !in objects;
      && (fits ==> LocalSeen(
            rules, cas, members, rs[..n + 1], ids + {rs[n].mediaId}, objects + {ObjectOf(LocalCommon(rs[n]))}))
      && (!fits ==> !LocalPasses(rules, cas, members, rs[..n + 1]))
  {
    var front := rs[..n];
    assert rs[..n + 1] == front + [rs[n]] && rs[..n + 1][..n] == front;
    AscendingOneMore(front, rs[n], LocalId);
    MapOneMore(LocalCommon, rs, n);
    SeenOneMore(Map(LocalCommon, front), LocalCommon(rs[n]), ids, objects);
  }

  lemma {:induction false} LocalPrefix(
    rules: Rules, cas: Cas, members: map<string, Member>, rs: seq<LocalRecord>, n: nat)
    requires n <= |rs| && LocalPasses(rules, cas, members, rs)
    ensures LocalPasses(rules, cas, members, rs[..n])
    decreases |rs| - n
  {
    if n == |rs| {
      assert rs[..n] == rs;
    } else {
      LocalPrefix(rules, cas, members, rs, n + 1);
      assert rs[..n + 1][..n] == rs[..n];
      AscendingPrefix(rs[..n + 1], n, LocalId);
      MapOneMore(LocalCommon, rs, n);
      UnambiguousPrefix(Map(LocalCommon, rs[..n + 1]), n);
      assert Map(LocalCommon, rs[..n + 1])[..n] == Map(LocalCommon, rs[..n]);
    }
  }

  method VerifyLocals(rules: Rules, cas: Cas, members: map<string, Member>, local: seq<LocalRecord>)
    returns (ok: bool, ids: set<string>, objects: set<(string, string)>, declared: set<string>)
    ensures ok <==> LocalPasses(rules, cas, members, local)
    ensures ok ==> SeenAs(Map(LocalCommon, local), ids, objects) && declared == Images(MemberPathOf, local)
  {
    ids, objects, declared := {}, {}, {};
    for k := 0 to |local|
      invariant LocalSeen(rules, cas, members, local[..k], ids, objects)
      invariant declared == Images(MemberPathOf, local[..k])
    {
      LocalOneMore(rules, cas, members, local, k, ids, objects);
      ImagesOneMore(MemberPathOf, local, k);
      var item := local[k];
      var ownership := ObjectOf(LocalCommon(item));
      var fine := VerifyLocal(rules, cas, members, item);
      if !fine || item.mediaId in ids || ownership in objects || (k > 0 && !Before(local[k - 1].mediaId, item.mediaId)) {
        if LocalPasses(rules, cas, members, local) { LocalPrefix(rules, cas, members, local, k + 1); }
        return false, ids, objects, declared;
      }
      ids, objects, declared := ids + {item.mediaId}, objects + {ownership}, declared + {item.memberPath};
    }
    assert local[..|local|] == local;
    return true, ids, objects, declared;
  }

  /** The state of the remote loop after these records, on top of the local ones. */
  ghost predicate RemoteSeen(
    rules: Rules, local: seq<Common>, rs: seq<RemoteRecord>, ids: set<string>, objects: set<(string, string)>) {
    && RemotesOk(rules, rs) && Ascending(rs, RemoteId)
    && SeenAs(local + Map(RemoteCommon, rs), ids, objects)
  }

  ghost predicate RemotePasses(rules: Rules, local: seq<Common>, rs: seq<RemoteRecord>) {
    RemotesOk(rules, rs) && Ascending(rs, RemoteId) && Unambiguous(local + Map(RemoteCommon, rs))
  }

  lemma RemoteOneMore(
    rules: Rules, local: seq<Common>, rs: seq<RemoteRecord>, n: nat, ids: set<string>,
    objects: set<(string, string)>)
    requires n < |rs| && RemoteSeen(rules, local, rs[..n], ids, objects)
    ensures
      var fits := RemoteOk(rules, rs[n]) && (n > 0 ==> Before(rs[n - 1].mediaId, rs[n].mediaId))
        && rs[n].mediaId !in ids && ObjectOf(RemoteCommon(rs[n])) !in objects;
      && (fits ==> RemoteSeen(
            rules, local, rs[..n + 1], ids + {rs[n].mediaId}, objects + {ObjectOf(RemoteCommon(rs[n]))}))
      && (!fits ==> !RemotePasses(rules, local, rs[..n + 1]))
  {
    var front := rs[..n];
    assert rs[..n + 1] == front + [rs[n]] && rs[..n + 1][..n] == front;
    AscendingOneMore(front, rs[n], RemoteId);
    MapOneMore(RemoteCommon, rs, n);
    SeenOneMore(local + Map(RemoteCommon, front), RemoteCommon(rs[n]), ids, objects);
    assert local + Map(RemoteCommon, rs[..n + 1]) == local + Map(RemoteCommon, front) + [RemoteCommon(rs[n])];
  }

  lemma {:induction false} RemotePrefix(rules: Rules, local: seq<Common>, rs: seq<RemoteRecord>, n: nat)
    requires n <= |rs| && RemotePasses(rules, local, rs)
    ensures RemotePasses(rules, local, rs[..n])
    decreases |rs| - n
  {
    if n == |rs| {
      assert rs[..n] == rs;
    } else {
      RemotePrefix(rules, local, rs, n + 1);
      assert rs[..n + 1][..n] == rs[..n];
      AscendingPrefix(rs[..n + 1], n, RemoteId);
      MapOneMore(RemoteCommon, rs, n);
      UnambiguousPrefix(local + Map(RemoteCommon, rs[..n + 1]), |local| + n);
      assert (local + Map(RemoteCommon, rs[..n + 1]))[..|local| + n] == local + Map(RemoteCommon, rs[..n]);
    }
  }

  method VerifyRemotes(
    rules: Rules, ghost local: seq<Common>, remote: seq<RemoteRecord>, seenIds: set<string>,
    seenObjects: set<(string, string)>)
    returns (ok: bool)
    requires SeenAs(local, seenIds, seenObjects)
    ensures ok <==> RemotePasses(rules, local, remote)
  {
    var ids, objects := seenIds, seenObjects;
    assert local + Map(RemoteCommon, remote[..0]) == local;
    for k := 0 to |remote|
      invariant RemoteSeen(rules, local, remote[..k], ids, objects)
    {
      RemoteOneMore(rules, local, remote, k, ids, objects);
      var item := remote[k];
      var ownership := ObjectOf(RemoteCommon(item));
      var fine := VerifyRemote(rules, item);
      if !fine || item.mediaId in ids || ownership in objects || (k > 0 && !Before(remote[k - 1].mediaId, item.mediaId)) {
        if RemotePasses(rules, local, remote) { RemotePrefix(rules, local, remote, k + 1); }
        return false;
      }
      ids, objects := ids + {item.mediaId}, objects + {ownership};
    }
    assert remote[..|remote|] == remote;
    return true;
  }

  method VerifyMedia(rules: Rules, cas: Cas, m: MediaManifest, records: seq<Member>) returns (ok: bool)
    ensures ok <==> Verified(rules, cas, m, records)
  {
    if m.unknownOrphanPolicy != "PRESERVE_NEVER_DELETE" || m.automaticDeletion {
      return false;
    }
    var locals, ids, objects, declared := VerifyLocals(rules, cas, ByPath(records), m.local);
    if Unambiguous(Commons(m.local, m.r2)) {
      UnambiguousPrefix(Commons(m.local, m.r2), |m.local|);
      assert Commons(m.local, m.r2)[..|m.local|] == Map(LocalCommon, m.local);
    }
    if !locals {
      return false;
    }
    var remotes := VerifyRemotes(rules, Map(LocalCommon, m.local), m.r2, ids, objects);
    return remotes && declared == OwnedPaths(cas, records);
  }
}
