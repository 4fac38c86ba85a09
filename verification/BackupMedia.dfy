/**
  The media coverage of a backup: the metadata its producer derives from the references of the
  database and the copied members, and the verifier that re-checks it against the members.

  Dictionaries are maps, with their keys listed in any order.
 */
module BackupMedia {
  import opened Wrappers
  import opened Ordering
  import opened Collections

  datatype Info = Info(sha256: string, sizeBytes: int)

  datatype LocalRecord = LocalRecord(path: string, sha256: string, sizeBytes: int)

  /** An R2 bucket the database refers to. */
  datatype Reference = Reference(
    backendType: string, endpoint: string, bucket: string, objectKeys: seq<string>, timestamp: Option<string>,
    classification: Option<string>)

  /** What the manifest says of it; the extension is present with an inventory timestamp. */
  datatype External = External(
    backendType: string, endpoint: string, bucket: string, objectKeys: seq<string>, coverage: string,
    remoteBytesCopied: bool, extension: Option<(string, Option<string>)>)

  datatype Media = Media(
    mode: string, referenced: seq<LocalRecord>, preserved: seq<LocalRecord>, external: seq<External>,
    unknownOrphanPolicy: string)

  datatype Request = Request(references: map<string, string>, names: seq<string>, external: seq<Reference>)

  /** The names list the keys, each once. */
  ghost predicate Lists<T>(names: seq<string>, m: map<string, T>) {
    (forall n :: n in names <==> n in m) && Distinct(Self, names)
  }

  function Self(s: string): string {
    s
  }

  function One(s: string): Key {
    [s]
  }

  function PathOf(r: LocalRecord): string {
    r.path
  }

  // ----- The producer

  function ReferencedRecord(references: map<string, string>, members: map<string, Info>): string -> LocalRecord {
    (path: string) =>
      if path in references && path in members then
        LocalRecord(path, references[path], members[path].sizeBytes)
      else LocalRecord(path, "", 0)
  }

  function PreservedRecord(members: map<string, Info>): string -> LocalRecord {
    (path: string) =>
      if path in members then LocalRecord(path, members[path].sha256, members[path].sizeBytes)
      else LocalRecord(path, "", 0)
  }

  function Unreferenced(references: map<string, string>, paths: seq<string>): seq<string> {
    if paths == [] then []
    else
      Unreferenced(references, paths[..|paths| - 1])
      + (if paths[|paths| - 1] in references then [] else [paths[|paths| - 1]])
  }

  function Recorded(r: Reference): External {
    External(
      r.backendType, r.endpoint, r.bucket, SortBy(r.objectKeys, One), "reference-dependent", false,
      if r.timestamp.Some? then Some((r.timestamp.value, r.classification)) else None)
  }

  function ReferenceKey(r: Reference): Key {
    [r.endpoint, r.bucket]
  }

  /** Fails, as a missing dictionary key does, when a reference names no copied member. */
  function Build(request: Request, members: map<string, Info>, memberNames: seq<string>): Option<Media> {
    if exists k :: 0 <= k < |request.names| && request.names[k] !in members then None
    else Some(Media(
      "captured",
      Map(ReferencedRecord(request.references, members), SortBy(request.names, One)),
      Map(PreservedRecord(members), Unreferenced(request.references, SortBy(memberNames, One))),
      Map(Recorded, SortBy(request.external, ReferenceKey)),
      "PRESERVE_NEVER_DELETE"))
  }

  // ----- The verifier

  predicate Matches(members: map<string, Info>, r: LocalRecord) {
    r.path in members && r.sha256 == members[r.path].sha256 && r.sizeBytes == members[r.path].sizeBytes
  }

  ghost predicate AllMatch(members: map<string, Info>, rs: seq<LocalRecord>) {
    forall k :: 0 <= k < |rs| ==> Matches(members, rs[k])
  }

  function IdentityOf(e: External): (string, string) {
    (e.endpoint, e.bucket)
  }

  predicate KeyOk(key: string) {
    key != "" && '\0' !in key
  }

  predicate KeysValid(keys: seq<string>) {
    forall k :: 0 <= k < |keys| ==> KeyOk(keys[k])
  }

  /** Timestamps are judged by the host's UTC parser. */
  ghost predicate ExternalOk(utc: string -> bool, e: External) {
    && (e.extension.Some? ==>
          utc(e.extension.value.0) && e.extension.value.1 == Some("AUTHORITATIVE_DATABASE_COMPLETE"))
    && e.backendType == "r2" && e.endpoint != "" && e.bucket != ""
    && e.coverage == "reference-dependent" && !e.remoteBytesCopied
    && KeysValid(e.objectKeys) && Sorted(e.objectKeys, One) && Distinct(Self, e.objectKeys)
  }

  ghost predicate ExternalsOk(utc: string -> bool, es: seq<External>) {
    forall k :: 0 <= k < |es| ==> ExternalOk(utc, es[k])
  }

  ghost predicate LocalVerified(media: Media, members: map<string, Info>) {
    && AllMatch(members, media.referenced + media.preserved)
    && Distinct(PathOf, media.referenced + media.preserved)
    && Images(PathOf, media.referenced + media.preserved) == members.Keys
  }

  ghost predicate Verified(utc: string -> bool, media: Media, members: map<string, Info>) {
    && media.unknownOrphanPolicy == "PRESERVE_NEVER_DELETE" && media.mode == "captured"
    && LocalVerified(media, members)
    && ExternalsOk(utc, media.external) && Distinct(IdentityOf, media.external)
  }

  method VerifyLocal(records: seq<LocalRecord>, members: map<string, Info>) returns (ok: bool)
    ensures ok <==>
      && AllMatch(members, records) && Distinct(PathOf, records) && Images(PathOf, records) == members.Keys
  {
    var declared: set<string> := {};
    for k := 0 to |records|
      invariant AllMatch(members, records[..k]) && Distinct(PathOf, records[..k])
      invariant declared == Images(PathOf, records[..k])
    {
      DistinctOneMore(PathOf, records, k);
      ImagesOneMore(PathOf, records, k);
      assert records[..k + 1] == records[..k] + [records[k]];
      if records[k].path in declared || !Matches(members, records[k]) {
        return false;
      }
      declared := declared + {records[k].path};
    }
    assert records[..|records|] == records;
    return declared == members.Keys;
  }

  /** Whether a list has as many elements as distinct ones, as comparing it with its set says. */
  lemma {:induction false} AsManyAsDistinct(keys: seq<string>)
    ensures |Images(Self, keys)| <= |keys|
    ensures |Images(Self, keys)| == |keys| <==> Distinct(Self, keys)
    decreases |keys|
  {
    if keys != [] {
      var last := |keys| - 1;
      AsManyAsDistinct(keys[..last]);
      assert keys[..last + 1] == keys;
      DistinctOneMore(Self, keys, last);
    }
  }

  lemma SortedMeans(keys: seq<string>)
    ensures keys == SortBy(keys, One) <==> Sorted(keys, One)
  {
    SortBySorted(keys, One);
    if Sorted(keys, One) { SortOfSorted(keys, One); }
  }

  method VerifyExternal(utc: string -> bool, e: External, identities: set<(string, string)>) returns (ok: bool)
    ensures ok <==> ExternalOk(utc, e) && IdentityOf(e) !in identities
  {
    if e.extension.Some? {
      if !utc(e.extension.value.0) || e.extension.value.1 != Some("AUTHORITATIVE_DATABASE_COMPLETE") {
        return false;
      }
    }
    if e.backendType != "r2" || e.endpoint == "" || e.bucket == "" || e.coverage != "reference-dependent"
       || e.remoteBytesCopied {
      return false;
    }
    if IdentityOf(e) in identities || !KeysValid(e.objectKeys) {
      return false;
    }
    SortedMeans(e.objectKeys);
    AsManyAsDistinct(e.objectKeys);
    return e.objectKeys == SortBy(e.objectKeys, One) && |e.objectKeys| == |Images(Self, e.objectKeys)|;
  }

  ghost predicate Passed(utc: string -> bool, es: seq<External>, identities: set<(string, string)>) {
    ExternalsOk(utc, es) && Distinct(IdentityOf, es) && identities == Images(IdentityOf, es)
  }

  lemma NextExternal(utc: string -> bool, es: seq<External>, k: nat, identities: set<(string, string)>)
    requires k < |es| && Passed(utc, es[..k], identities)
    ensures ExternalOk(utc, es[k]) && IdentityOf(es[k]) !in identities ==>
      Passed(utc, es[..k + 1], identities + {IdentityOf(es[k])})
    ensures ExternalsOk(utc, es) && Distinct(IdentityOf, es) ==>
      ExternalOk(utc, es[k]) && IdentityOf(es[k]) !in identities
  {
    DistinctOneMore(IdentityOf, es, k);
    ImagesOneMore(IdentityOf, es, k);
    assert es[..k + 1] == es[..k] + [es[k]];
  }

  method VerifyExternals(utc: string -> bool, external: seq<External>) returns (ok: bool)
    ensures ok <==> ExternalsOk(utc, external) && Distinct(IdentityOf, external)
  {
    var identities: set<(string, string)> := {};
    for k := 0 to |external|
      invariant Passed(utc, external[..k], identities)
    {
      NextExternal(utc, external, k, identities);
      var one := VerifyExternal(utc, external[k], identities);
      if !one {
        return false;
      }
      identities := identities + {IdentityOf(external[k])};
    }
    assert external[..|external|] == external;
    return true;
  }

  method VerifyMedia(utc: string -> bool, media: Media, members: map<string, Info>) returns (ok: bool)
    ensures ok <==> Verified(utc, media, members)
  {
    if media.unknownOrphanPolicy != "PRESERVE_NEVER_DELETE" || media.mode != "captured" {
      return false;
    }
    var local := VerifyLocal(media.referenced + media.preserved, members);
    if !local {
      return false;
    }
    ok := VerifyExternals(utc, media.external);
  }

  // ----- What verification says

  /** Every copied member has a record with its digest and size, and no record stands for anything else. */
  lemma VerifiedCovers(utc: string -> bool, media: Media, members: map<string, Info>, path: string)
    requires Verified(utc, media, members)
    ensures path in members ==> exists r :: r in media.referenced + media.preserved && r.path == path
    ensures forall r :: r in media.referenced + media.preserved && r.path == path ==>
      path in members && r.sha256 == members[path].sha256 && r.sizeBytes == members[path].sizeBytes
    ensures forall i, j :: 0 <= i < |media.referenced| && 0 <= j < |media.preserved| ==>
      media.referenced[i].path != media.preserved[j].path
  {
    var all := media.referenced + media.preserved;
    InImages(PathOf, all, path);
    if path in members {
      assert path in Images(PathOf, all);
      var k :| 0 <= k < |all| && PathOf(all[k]) == path;
      assert all[k] in all;
    }
    forall i, j | 0 <= i < |media.referenced| && 0 <= j < |media.preserved|
      ensures media.referenced[i].path != media.preserved[j].path
    {
      assert PathOf(all[i]) != PathOf(all[|media.referenced| + j]);
    }
  }

  /** What is not copied lies in different R2 buckets, under usable keys. */
  lemma VerifiedExternals(utc: string -> bool, media: Media, members: map<string, Info>, i: nat, k: nat)
    requires Verified(utc, media, members) && i < |media.external|
    ensures media.external[i].backendType == "r2" && !media.external[i].remoteBytesCopied
    ensures media.external[i].endpoint != "" && media.external[i].bucket != ""
    ensures k < |media.external[i].objectKeys| ==>
      media.external[i].objectKeys[k] != "" && '\0' !in media.external[i].objectKeys[k]
    ensures forall j :: 0 <= j < i ==>
      media.external[j].endpoint != media.external[i].endpoint || media.external[j].bucket != media.external[i].bucket
  {
    assert ExternalOk(utc, media.external[i]);
    assert k < |media.external[i].objectKeys| ==> KeyOk(media.external[i].objectKeys[k]);
    forall j | 0 <= j < i
      ensures media.external[j].endpoint != media.external[i].endpoint || media.external[j].bucket != media.external[i].bucket
    {
      assert IdentityOf(media.external[j]) != IdentityOf(media.external[i]);
    }
  }

  // ----- When what was built verifies

  /** The database's digest of every referenced object is the digest of the copied member. */
  ghost predicate DigestsAgree(references: map<string, string>, members: map<string, Info>) {
    forall path :: path in references && path in members ==> references[path] == members[path].sha256
  }

  ghost predicate ReferenceOk(utc: string -> bool, r: Reference) {
    && (r.timestamp.Some? ==>
          utc(r.timestamp.value) && r.classification == Some("AUTHORITATIVE_DATABASE_COMPLETE"))
    && r.backendType == "r2" && r.endpoint != "" && r.bucket != ""
    && KeysValid(r.objectKeys) && Distinct(Self, r.objectKeys)
  }

  ghost predicate ReferencesOk(utc: string -> bool, rs: seq<Reference>) {
    (forall r :: r in rs ==> ReferenceOk(utc, r)) && Distinct(ReferenceKey, rs)
  }

  lemma {:induction false} UnreferencedMembers(references: map<string, string>, paths: seq<string>, p: string)
    ensures p in Unreferenced(references, paths) <==> p in paths && p !in references
    decreases |paths|
  {
    if paths != [] {
      UnreferencedMembers(references, paths[..|paths| - 1], p);
      assert paths == paths[..|paths| - 1] + [paths[|paths| - 1]];
    }
  }

  lemma {:induction false} UnreferencedDistinct(references: map<string, string>, paths: seq<string>)
    requires Distinct(Self, paths)
    ensures Distinct(Self, Unreferenced(references, paths))
    decreases |paths|
  {
    if paths != [] {
      var last := |paths| - 1;
      UnreferencedDistinct(references, paths[..last]);
      var front := Unreferenced(references, paths[..last]);
      if paths[last] !in references {
        assert Unreferenced(references, paths) == front + [paths[last]];
        UnreferencedMembers(references, paths[..last], paths[last]);
        forall i | 0 <= i < last ensures paths[..last][i] != paths[last] {
          assert Self(paths[i]) != Self(paths[last]);
        }
        forall i, j | 0 <= i < j < |front| + 1
          ensures Self((front + [paths[last]])[i]) != Self((front + [paths[last]])[j])
        {
          if j == |front| { assert front[i] in front; }
        }
      }
    }
  }

  /** The paths of the two record lists together: every member, once. */
  function AllPaths(request: Request, memberNames: seq<string>): seq<string> {
    SortBy(request.names, One) + Unreferenced(request.references, SortBy(memberNames, One))
  }

  lemma SortedLists<T>(names: seq<string>, m: map<string, T>)
    requires Lists(names, m)
    ensures Lists(SortBy(names, One), m)
  {
    var sorted := SortBy(names, One);
    DistinctAlong(Self, names, sorted);
    forall n ensures n in sorted <==> n in m { SameMembers(sorted, names, n); }
  }

  lemma AllPathsList(request: Request, members: map<string, Info>, memberNames: seq<string>)
    requires Lists(request.names, request.references) && Lists(memberNames, members)
    requires forall p :: p in request.references ==> p in members
    ensures Lists(AllPaths(request, memberNames), members)
  {
    SortedLists(request.names, request.references);
    SortedLists(memberNames, members);
    var a, b := SortBy(request.names, One), Unreferenced(request.references, SortBy(memberNames, One));
    UnreferencedDistinct(request.references, SortBy(memberNames, One));
    forall p ensures p in a + b <==> p in members {
      UnreferencedMembers(request.references, SortBy(memberNames, One), p);
    }
    forall i, j | 0 <= i < j < |a + b| ensures Self((a + b)[i]) != Self((a + b)[j]) {
      if j < |a| {
        assert Self(a[i]) != Self(a[j]);
      } else if i >= |a| {
        assert Self(b[i - |a|]) != Self(b[j - |a|]);
      } else {
        assert a[i] in a && b[j - |a|] in b;
        UnreferencedMembers(request.references, SortBy(memberNames, One), b[j - |a|]);
      }
    }
  }

  lemma PathParts(request: Request, members: map<string, Info>, memberNames: seq<string>)
    requires Lists(request.names, request.references) && Lists(memberNames, members)
    requires forall p :: p in request.references ==> p in members
    ensures forall p :: p in SortBy(request.names, One) ==> p in request.references && p in members
    ensures forall p :: p in Unreferenced(request.references, SortBy(memberNames, One)) ==>
      p !in request.references && p in members
  {
    SortedLists(request.names, request.references);
    SortedLists(memberNames, members);
    forall p | p in Unreferenced(request.references, SortBy(memberNames, One))
      ensures p !in request.references && p in members
    {
      UnreferencedMembers(request.references, SortBy(memberNames, One), p);
    }
  }

  /** Records listed path by path: distinct and covering exactly when the paths are. */
  lemma PathsCarry(records: seq<LocalRecord>, paths: seq<string>, members: map<string, Info>)
    requires |records| == |paths| && forall k :: 0 <= k < |paths| ==> records[k].path == paths[k]
    requires Lists(paths, members)
    ensures Distinct(PathOf, records) && Images(PathOf, records) == members.Keys
  {
    forall i, j | 0 <= i < j < |records| ensures PathOf(records[i]) != PathOf(records[j]) {
      assert Self(paths[i]) != Self(paths[j]);
    }
    assert forall k :: 0 <= k < |paths| ==> paths[k] in paths;
    forall p ensures p in Images(PathOf, records) <==> p in members.Keys {
      InImages(PathOf, records, p);
      if p in members {
        var k :| 0 <= k < |paths| && paths[k] == p;
        assert PathOf(records[k]) == p;
      }
    }
  }

  predicate Agrees(references: map<string, string>, members: map<string, Info>, path: string) {
    path in members && (path in references ==> references[path] == members[path].sha256)
  }

  lemma BuiltReferenced(references: map<string, string>, members: map<string, Info>, path: string)
    requires path in references && path in members
    ensures var r := ReferencedRecord(references, members)(path);
      r.path == path && (Matches(members, r) <==> Agrees(references, members, path))
  {
  }

  lemma BuiltPreserved(references: map<string, string>, members: map<string, Info>, path: string)
    requires path !in references && path in members
    ensures var r := PreservedRecord(members)(path);
      r.path == path && Matches(members, r) && Agrees(references, members, path)
  {
  }

  /** A built record matches its member, except that a referenced one carries the database's digest. */
  lemma BuiltRecord(request: Request, members: map<string, Info>, a: seq<string>, b: seq<string>, k: nat)
    requires forall p :: p in a ==> p in request.references && p in members
    requires forall p :: p in b ==> p !in request.references && p in members
    requires k < |a| + |b|
    ensures var records := Map(ReferencedRecord(request.references, members), a) + Map(PreservedRecord(members), b);
      && (a + b)[k] in members && records[k].path == (a + b)[k]
      && (Matches(members, records[k]) <==> Agrees(request.references, members, (a + b)[k]))
  {
    if k < |a| {
      assert a[k] in a;
      BuiltReferenced(request.references, members, a[k]);
    } else {
      assert b[k - |a|] in b;
      BuiltPreserved(request.references, members, b[k - |a|]);
    }
  }

  lemma ReferencesAreMembers(request: Request, members: map<string, Info>, memberNames: seq<string>)
    requires Lists(request.names, request.references) && Build(request, members, memberNames).Some?
    ensures forall p :: p in request.references ==> p in members
  {
    forall p | p in request.references ensures p in members {
      assert p in request.names;
      var k :| 0 <= k < |request.names| && request.names[k] == p;
    }
  }

  /** The local part of the built metadata verifies exactly when the digests agree. */
  lemma BuiltLocal(request: Request, members: map<string, Info>, memberNames: seq<string>)
    requires Lists(request.names, request.references) && Lists(memberNames, members)
    requires Build(request, members, memberNames).Some?
    ensures LocalVerified(Build(request, members, memberNames).value, members)
      <==> DigestsAgree(request.references, members)
  {
    var media := Build(request, members, memberNames).value;
    var records, paths := media.referenced + media.preserved, AllPaths(request, memberNames);
    ReferencesAreMembers(request, members, memberNames);
    AllPathsList(request, members, memberNames);
    PathParts(request, members, memberNames);
    forall k | 0 <= k < |paths|
      ensures records[k].path == paths[k] && (Matches(members, records[k]) <==> Agrees(request.references, members, paths[k]))
    {
      BuiltRecord(
        request, members, SortBy(request.names, One), Unreferenced(request.references, SortBy(memberNames, One)), k);
    }
    PathsCarry(records, paths, members);
    MatchesMean(request.references, members, records, paths);
  }

  lemma MatchesMean(
    references: map<string, string>, members: map<string, Info>, records: seq<LocalRecord>, paths: seq<string>)
    requires |records| == |paths| && Lists(paths, members) && forall p :: p in references ==> p in members
    requires forall k :: 0 <= k < |paths| ==> (Matches(members, records[k]) <==> Agrees(references, members, paths[k]))
    ensures AllMatch(members, records) <==> DigestsAgree(references, members)
  {
    if AllMatch(members, records) {
      forall p | p in references && p in members ensures references[p] == members[p].sha256 {
        assert p in paths;
        var k :| 0 <= k < |paths| && paths[k] == p;
        assert Matches(members, records[k]);
      }
    }
    if DigestsAgree(references, members) {
      forall k | 0 <= k < |records| ensures Matches(members, records[k]) {
        assert paths[k] in paths && Agrees(references, members, paths[k]);
      }
    }
  }

  lemma KeysValidAlong(a: seq<string>, b: seq<string>)
    requires multiset(a) == multiset(b) && KeysValid(a)
    ensures KeysValid(b)
  {
    forall k | 0 <= k < |b| ensures KeyOk(b[k]) {
      assert b[k] in b;
      SameMembers(a, b, b[k]);
    }
  }

  lemma RecordedOk(utc: string -> bool, r: Reference)
    ensures ExternalOk(utc, Recorded(r)) <==> ReferenceOk(utc, r)
  {
    var keys := SortBy(r.objectKeys, One);
    SortBySorted(r.objectKeys, One);
    DistinctPermuted(Self, r.objectKeys, keys);
    if KeysValid(r.objectKeys) { KeysValidAlong(r.objectKeys, keys); }
    if KeysValid(keys) { KeysValidAlong(keys, r.objectKeys); }
  }

  lemma RecordedAll(utc: string -> bool, rs: seq<Reference>)
    ensures ExternalsOk(utc, Map(Recorded, rs)) <==> forall r :: r in rs ==> ReferenceOk(utc, r)
  {
    var es := Map(Recorded, rs);
    forall k | 0 <= k < |rs| ensures ExternalOk(utc, es[k]) <==> ReferenceOk(utc, rs[k]) {
      RecordedOk(utc, rs[k]);
    }
    if ExternalsOk(utc, es) {
      forall r | r in rs ensures ReferenceOk(utc, r) {
        var k :| 0 <= k < |rs| && rs[k] == r;
        assert ExternalOk(utc, es[k]);
      }
    }
  }

  /** The external part verifies exactly for valid references to different buckets. */
  lemma BuiltExternal(utc: string -> bool, external: seq<Reference>)
    ensures var es := Map(Recorded, SortBy(external, ReferenceKey));
      ExternalsOk(utc, es) && Distinct(IdentityOf, es) <==> ReferencesOk(utc, external)
  {
    var sorted := SortBy(external, ReferenceKey);
    RecordedAll(utc, sorted);
    SameIdentities(sorted, Map(Recorded, sorted));
    DistinctPermuted(ReferenceKey, external, sorted);
    forall r ensures r in sorted <==> r in external { SameMembers(sorted, external, r); }
  }

  lemma SameIdentities(rs: seq<Reference>, es: seq<External>)
    requires es == Map(Recorded, rs)
    ensures Distinct(IdentityOf, es) <==> Distinct(ReferenceKey, rs)
  {
    forall i, j | 0 <= i < j < |rs| ensures IdentityOf(es[i]) == IdentityOf(es[j]) <==> ReferenceKey(rs[i]) == ReferenceKey(rs[j]) {
      assert es[i] == Recorded(rs[i]) && es[j] == Recorded(rs[j]);
      assert ReferenceKey(rs[i])[0] == rs[i].endpoint && ReferenceKey(rs[i])[1] == rs[i].bucket;
      assert ReferenceKey(rs[j])[0] == rs[j].endpoint && ReferenceKey(rs[j])[1] == rs[j].bucket;
    }
  }

  /**
    What the producer builds passes the verifier exactly when the database's digests are those of the
    copied members and its R2 references are valid and name different buckets.
   */
  lemma BuiltVerifies(
    utc: string -> bool, request: Request, members: map<string, Info>, memberNames: seq<string>)
    requires Lists(request.names, request.references) && Lists(memberNames, members)
    requires Build(request, members, memberNames).Some?
    ensures Verified(utc, Build(request, members, memberNames).value, members)
      <==> DigestsAgree(request.references, members) && ReferencesOk(utc, request.external)
  {
    BuiltLocal(request, members, memberNames);
    BuiltExternal(utc, request.external);
  }
}
