/**
  A whole migration bundle: both captures and the core members go into one fresh directory, whose
  listing is what the checksum set prints and what the verifiers of both manifests look at.

  The database dump, the other core members' contents, the manifests' JSON texts and the envelope are
  given.  No other process writes into the directory.
 */
module MigrationBundle {
  import opened BundleInventory
  import opened Collections
  import opened Digests
  import opened Ordering
  import opened Wrappers
  import ChecksumText
  import MediaCapture
  import MediaInventory
  import MigrationChecksums
  import MigrationMembers
  import PluginInventory

  /** What is written beside the captured members. */
  datatype Contents = Contents(
    database: Bytes, metadata: Bytes, plugins: PluginInventory.PluginManifest -> Bytes,
    media: MediaInventory.MediaManifest -> Bytes, configuration: Bytes, privateState: Bytes, updaterState: Bytes,
    envelope: Bytes)

  datatype Request = Request(
    packages: seq<PluginInventory.Package>, local: seq<MediaInventory.LocalMedia>,
    remote: seq<MediaInventory.RemoteMedia>, targets: map<string, R2>, contents: Contents)

  datatype Bundle = Bundle(
    plugins: PluginInventory.PluginManifest, media: MediaInventory.MediaManifest, records: seq<Member>, checksums: string)

  /** The digest rule is that of SHA-256 identities, and the digest function makes such identities. */
  ghost predicate Sha256Rules(rules: Rules) {
    rules.digest == IsDigest && SettlesR2(rules) && forall b: Bytes :: IsDigest(rules.sha(b))
  }

  /** Every file has a path of the closed set. */
  ghost predicate InLayout(files: map<string, Bytes>) {
    forall path :: path in files ==> MigrationMembers.AllowedMember(path)
  }

  // ----- The two kinds of captured members

  lemma PluginShape(d: string)
    requires IsDigest(d)
    ensures MigrationMembers.PluginMember(PluginPath(d))
  {
    var path := PluginPath(d);
    assert path[..12] == "plugins/cas/" && path[12..76] == d[7..] && path[76..] == ".ajplugin";
  }

  lemma LocalShape(d: string)
    requires IsDigest(d)
    ensures MigrationMembers.LocalMember(LocalPath(d))
  {
    var path := LocalPath(d);
    assert path[..12] == "media/local/" && path[12..] == d[7..];
  }

  lemma CoreApart(path: string)
    requires MigrationMembers.CoreMember(path)
    ensures !PluginCas().owns(path) && !LocalCas().owns(path)
    ensures !MigrationMembers.PluginMember(path) && !MigrationMembers.LocalMember(path)
  {
    OwnedStart(path);
  }

  lemma OwnedStart(path: string)
    ensures PluginCas().owns(path) ==> |path| >= 12 && path[0] == 'p' && path[8] == 'c'
    ensures LocalCas().owns(path) ==> |path| >= 12 && path[0] == 'm' && path[6] == 'l'
  {
  }

  lemma CapturedApart(path: string)
    ensures MigrationMembers.PluginMember(path) ==> !LocalCas().owns(path)
    ensures MigrationMembers.LocalMember(path) ==> !PluginCas().owns(path)
  {
    if MigrationMembers.PluginMember(path) { assert path[0] == path[..12][0] == 'p'; }
    if MigrationMembers.LocalMember(path) { assert path[0] == path[..12][0] == 'm'; }
  }

  // ----- The directory after each capture

  /** The files are those before, and members of one kind. */
  ghost predicate Adds(before: map<string, Bytes>, files: map<string, Bytes>, kind: string -> bool) {
    Keeps(before, files) && forall path :: path in files && path !in before ==> kind(path)
  }

  lemma PluginsAdded(
    rules: Rules, before: map<string, Bytes>, files: map<string, Bytes>, packages: seq<PluginInventory.Package>,
    m: PluginInventory.PluginManifest)
    requires Sha256Rules(rules) && PluginInventory.Captured(rules, PluginCas(), before, files, packages, m)
    ensures Adds(before, files, MigrationMembers.PluginMember)
  {
    var sorted := SortBy(packages, PluginInventory.KeyOf);
    forall path | path in files && path !in before ensures MigrationMembers.PluginMember(path) {
      InImages(PluginInventory.MemberOf(PluginCas()), sorted, path);
      var k :| 0 <= k < |sorted| && PluginInventory.MemberOf(PluginCas())(sorted[k]) == path;
      assert PluginInventory.PackageOk(rules, sorted[k]);
      PluginShape(sorted[k].digest);
    }
  }

  lemma LocalsAdded(
    rules: Rules, targets: map<string, R2>, before: map<string, Bytes>, files: map<string, Bytes>,
    local: seq<MediaInventory.LocalMedia>, remote: seq<MediaInventory.RemoteMedia>, m: MediaInventory.MediaManifest)
    requires Sha256Rules(rules)
    requires MediaCapture.Captured(rules, LocalCas(), targets, before, files, local, remote, m)
    ensures Adds(before, files, MigrationMembers.LocalMember)
  {
    var sorted := SortBy(local, MediaCapture.LocalItemId);
    forall path | path in files && path !in before ensures MigrationMembers.LocalMember(path) {
      InImages(MediaCapture.MemberOf(LocalCas()), sorted, path);
      var k :| 0 <= k < |sorted| && MediaCapture.MemberOf(LocalCas())(sorted[k]) == path;
      assert MediaCapture.LocalItemOk(rules, sorted[k]);
      LocalShape(sorted[k].digest);
    }
  }

  function First(m: (string, Bytes)): string {
    m.0
  }

  lemma AddsTwice(a: map<string, Bytes>, b: map<string, Bytes>, c: map<string, Bytes>, kind: string -> bool)
    requires Adds(a, b, kind) && Adds(b, c, kind)
    ensures Adds(a, c, kind)
  {
  }

  lemma AddsOther(a: map<string, Bytes>, b: map<string, Bytes>, kind: string -> bool, wider: string -> bool)
    requires Adds(a, b, kind) && forall path :: kind(path) ==> wider(path)
    ensures Adds(a, b, wider)
  {
  }

  /** Whatever else is a member of the bundle, it is not in the directory of the plugin packages. */
  predicate NoPlugin(path: string) {
    !PluginCas().owns(path)
  }

  predicate NoLocal(path: string) {
    !LocalCas().owns(path)
  }

  lemma KindsApart(path: string)
    ensures MigrationMembers.CoreMember(path) ==> NoPlugin(path) && NoLocal(path)
    ensures MigrationMembers.LocalMember(path) ==> NoPlugin(path)
    ensures MigrationMembers.PluginMember(path) ==> NoLocal(path)
  {
    CapturedApart(path);
    if MigrationMembers.CoreMember(path) { CoreApart(path); }
  }

  /** The five stages of the directory: empty, the database, the plugins, their manifest, the local media, the rest. */
  ghost predicate Layered(
    f1: map<string, Bytes>, f2: map<string, Bytes>, f3: map<string, Bytes>, f4: map<string, Bytes>,
    f5: map<string, Bytes>) {
    && Adds(map[], f1, MigrationMembers.CoreMember)
    && Adds(f1, f2, MigrationMembers.PluginMember)
    && Adds(f2, f3, MigrationMembers.CoreMember)
    && Adds(f3, f4, MigrationMembers.LocalMember)
    && Adds(f4, f5, MigrationMembers.CoreMember)
  }

  lemma LayersApart(
    f1: map<string, Bytes>, f2: map<string, Bytes>, f3: map<string, Bytes>, f4: map<string, Bytes>,
    f5: map<string, Bytes>)
    requires Layered(f1, f2, f3, f4, f5)
    ensures Adds(map[], f1, NoPlugin) && Adds(f2, f5, NoPlugin)
    ensures Adds(map[], f3, NoLocal) && Adds(f4, f5, NoLocal)
    ensures InLayout(f5)
  {
    forall path ensures
      && (MigrationMembers.CoreMember(path) ==> NoPlugin(path) && NoLocal(path))
      && (MigrationMembers.LocalMember(path) ==> NoPlugin(path))
      && (MigrationMembers.PluginMember(path) ==> NoLocal(path))
    {
      KindsApart(path);
    }
    AddsOther(f2, f3, MigrationMembers.CoreMember, NoPlugin);
    AddsOther(f3, f4, MigrationMembers.LocalMember, NoPlugin);
    AddsOther(f4, f5, MigrationMembers.CoreMember, NoPlugin);
    AddsTwice(f2, f3, f4, NoPlugin);
    AddsTwice(f2, f4, f5, NoPlugin);
    AddsOther(map[], f1, MigrationMembers.CoreMember, NoLocal);
    AddsOther(f1, f2, MigrationMembers.PluginMember, NoLocal);
    AddsOther(f2, f3, MigrationMembers.CoreMember, NoLocal);
    AddsTwice(map[], f1, f2, NoLocal);
    AddsTwice(map[], f2, f3, NoLocal);
  }

  /** Both captured manifests pass their verifiers against any listing of the finished directory. */
  lemma BothPass(
    rules: Rules, request: Request, f1: map<string, Bytes>, f2: map<string, Bytes>, f3: map<string, Bytes>,
    f4: map<string, Bytes>, f5: map<string, Bytes>, plugins: PluginInventory.PluginManifest,
    media: MediaInventory.MediaManifest, records: seq<Member>)
    requires Sha256Rules(rules) && Layered(f1, f2, f3, f4, f5) && Payload(rules, f5, records)
    requires PluginInventory.Captured(rules, PluginCas(), f1, f2, request.packages, plugins)
    requires MediaCapture.Captured(rules, LocalCas(), request.targets, f3, f4, request.local, request.remote, media)
    ensures BothVerified(rules, plugins, media, records)
  {
    LayersApart(f1, f2, f3, f4, f5);
    PluginsAddressed(rules);
    LocalsAddressed(rules);
    PluginInventory.CapturedPasses(rules, PluginCas(), f1, f2, request.packages, plugins, f5, records);
    MediaCapture.CapturedPasses(
      rules, LocalCas(), request.targets, f3, f4, request.local, request.remote, media, f5, records);
  }

  // ----- The listing of a directory

  function MemberKey(m: Member): Key {
    [m.path]
  }

  /** Part of the way through a listing: `paths` are still to be visited. */
  ghost predicate Collected(
    rules: Rules, files: map<string, Bytes>, paths: set<string>, done: set<string>, found: seq<Member>) {
    && paths + done == files.Keys && paths !! done
    && |found| + |paths| == |files| && Listed(rules, files, done, found)
  }

  lemma CollectedOneMore(
    rules: Rules, files: map<string, Bytes>, paths: set<string>, done: set<string>, found: seq<Member>, path: string)
    requires Collected(rules, files, paths, done, found) && path in paths
    ensures path in files
    ensures Collected(rules, files, paths - {path}, done + {path}, found + [MemberAt(rules, files, path)])
  {
    ListedOneMore(rules, files, done, found, path);
    assert |paths - {path}| == |paths| - 1;
  }

  /** A record for each file, in the order in which the host lists them. */
  method CollectMembers(rules: Rules, files: map<string, Bytes>) returns (found: seq<Member>)
    ensures Listed(rules, files, files.Keys, found) && |found| == |files|
  {
    var paths := files.Keys;
    ghost var done := {};
    found := [];
    while paths != {}
      invariant Collected(rules, files, paths, done, found)
      decreases |paths|
    {
      var path :| path in paths;
      CollectedOneMore(rules, files, paths, done, found, path);
      found := found + [MemberAt(rules, files, path)];
      paths, done := paths - {path}, done + {path};
    }
    assert done == files.Keys;
  }

  /** The same sorted by path. */
  method ListMembers(rules: Rules, files: map<string, Bytes>) returns (records: seq<Member>)
    ensures Payload(rules, files, records) && Distinct(PathOf, records) && |records| == |files|
    ensures Sorted(records, MemberKey)
  {
    var found := CollectMembers(rules, files);
    records := SortBy(found, MemberKey);
    SortBySorted(found, MemberKey);
    ListedPermuted(rules, files, files.Keys, found, records);
    ListedPayload(rules, files, records);
  }

  lemma ListedPayload(rules: Rules, files: map<string, Bytes>, records: seq<Member>)
    requires Listed(rules, files, files.Keys, records)
    ensures Payload(rules, files, records)
  {
  }

  function MemberAt(rules: Rules, files: map<string, Bytes>, path: string): Member
    requires path in files
  {
    Member(path, rules.sha(files[path]), |files[path]|)
  }

  ghost predicate Listed(rules: Rules, files: map<string, Bytes>, paths: set<string>, records: seq<Member>) {
    && Images(PathOf, records) == paths && Distinct(PathOf, records)
    && forall k :: 0 <= k < |records| ==>
         records[k].path in files && records[k] == MemberAt(rules, files, records[k].path)
  }

  lemma ListedOneMore(
    rules: Rules, files: map<string, Bytes>, paths: set<string>, records: seq<Member>, path: string)
    requires Listed(rules, files, paths, records) && path in files && path !in paths
    ensures Listed(rules, files, paths + {path}, records + [MemberAt(rules, files, path)])
  {
    var longer := records + [MemberAt(rules, files, path)];
    assert longer[..|records|] == records && longer[..|records| + 1] == longer;
    ImagesOneMore(PathOf, longer, |records|);
    DistinctOneMore(PathOf, longer, |records|);
  }

  lemma ListedPermuted(
    rules: Rules, files: map<string, Bytes>, paths: set<string>, a: seq<Member>, b: seq<Member>)
    requires Listed(rules, files, paths, a) && multiset(a) == multiset(b)
    ensures Listed(rules, files, paths, b)
  {
    DistinctPermuted(PathOf, a, b);
    forall k | 0 <= k < |b| ensures b[k].path in files && b[k] == MemberAt(rules, files, b[k].path) {
      SameMembers(a, b, b[k]);
      var i :| 0 <= i < |a| && a[i] == b[k];
    }
    forall path ensures path in Images(PathOf, b) <==> path in paths {
      ImagesAlong(PathOf, a, b, path);
      ImagesAlong(PathOf, b, a, path);
    }
  }

  // ----- The core members

  datatype Core =
    | Database | Metadata | PluginsJson | MediaJson | Configuration | PrivateState | UpdaterState | Envelope

  function CorePath(c: Core): (path: string)
    ensures MigrationMembers.CoreMember(path)
  {
    match c
    case Database => "database.sql.gz"
    case Metadata => "database.metadata.json"
    case PluginsJson => "plugins/manifest.json"
    case MediaJson => "media/manifest.json"
    case Configuration => "config/non-secret.json"
    case PrivateState => "private/manifest.json"
    case UpdaterState => "updater/state.json"
    case Envelope => "secrets/secret-envelope.json"
  }

  lemma CorePathsDiffer(c: Core, d: Core)
    requires CorePath(c) == CorePath(d)
    ensures c == d
  {
    var a, b := CorePath(c), CorePath(d);
    assert |a| == |b| && a[0] == b[0];
  }

  /** The core members written so far are there with their contents, and no others. */
  ghost predicate HasCore(files: map<string, Bytes>, present: map<Core, Bytes>) {
    && (forall c :: CorePath(c) in files <==> c in present)
    && (forall c :: c in present && CorePath(c) in files ==> files[CorePath(c)] == present[c])
  }

  /** What each core member holds. */
  function ContentOf(
    contents: Contents, plugins: PluginInventory.PluginManifest, media: MediaInventory.MediaManifest, c: Core): Bytes {
    match c
    case Database => contents.database
    case Metadata => contents.metadata
    case PluginsJson => contents.plugins(plugins)
    case MediaJson => contents.media(media)
    case Configuration => contents.configuration
    case PrivateState => contents.privateState
    case UpdaterState => contents.updaterState
    case Envelope => contents.envelope
  }

  ghost predicate HoldsAll(
    files: map<string, Bytes>, contents: Contents, plugins: PluginInventory.PluginManifest,
    media: MediaInventory.MediaManifest) {
    forall c :: CorePath(c) in files && files[CorePath(c)] == ContentOf(contents, plugins, media, c)
  }

  /** The same with the paths spelled out. */
  lemma CoreContents(
    files: map<string, Bytes>, contents: Contents, plugins: PluginInventory.PluginManifest,
    media: MediaInventory.MediaManifest)
    requires HoldsAll(files, contents, plugins, media)
    ensures "database.sql.gz" in files && files["database.sql.gz"] == contents.database
    ensures "database.metadata.json" in files && files["database.metadata.json"] == contents.metadata
    ensures "plugins/manifest.json" in files && files["plugins/manifest.json"] == contents.plugins(plugins)
    ensures "media/manifest.json" in files && files["media/manifest.json"] == contents.media(media)
    ensures "config/non-secret.json" in files && files["config/non-secret.json"] == contents.configuration
    ensures "private/manifest.json" in files && files["private/manifest.json"] == contents.privateState
    ensures "updater/state.json" in files && files["updater/state.json"] == contents.updaterState
    ensures "secrets/secret-envelope.json" in files && files["secrets/secret-envelope.json"] == contents.envelope
  {
    assert CorePath(Database) in files && CorePath(Metadata) in files;
    assert CorePath(PluginsJson) in files && CorePath(MediaJson) in files;
    assert CorePath(Configuration) in files && CorePath(PrivateState) in files;
    assert CorePath(UpdaterState) in files && CorePath(Envelope) in files;
  }

  lemma CoreKept(a: map<string, Bytes>, b: map<string, Bytes>, kind: string -> bool, present: map<Core, Bytes>)
    requires HasCore(a, present) && Adds(a, b, kind) && forall c :: !kind(CorePath(c))
    ensures HasCore(b, present)
  {
  }

  lemma CapturedNotCore(c: Core)
    ensures !MigrationMembers.PluginMember(CorePath(c)) && !MigrationMembers.LocalMember(CorePath(c))
  {
    CoreApart(CorePath(c));
  }

  lemma CorePut(files: map<string, Bytes>, present: map<Core, Bytes>, c: Core, content: Bytes)
    requires HasCore(files, present)
    ensures HasCore(files[CorePath(c) := content], present[c := content])
  {
    forall d | CorePath(d) == CorePath(c) ensures d == c { CorePathsDiffer(d, c); }
  }

  /** Writes a core member that is not there yet, on top of those written since `start`. */
  method PutCore(
    staging: Staging, c: Core, content: Bytes, ghost start: map<string, Bytes>, ghost present: map<Core, Bytes>)
    requires HasCore(staging.files, present) && c !in present
    requires Adds(start, staging.files, MigrationMembers.CoreMember)
    modifies staging`files
    ensures Adds(start, staging.files, MigrationMembers.CoreMember)
    ensures HasCore(staging.files, present[c := content]) && staging.files == old(staging.files)[CorePath(c) := content]
  {
    CorePut(staging.files, present, c, content);
    var ok := staging.Write(CorePath(c), content);
  }

  // ----- The checksum set of a listing

  function SizedOf(m: Member): MigrationChecksums.Sized {
    MigrationChecksums.Sized(ChecksumText.Record(m.path, m.sha256), m.sizeBytes)
  }

  function AllSized(records: seq<Member>): seq<MigrationChecksums.Sized> {
    Map(SizedOf, records)
  }

  lemma ListingPrints(rules: Rules, files: map<string, Bytes>, records: seq<Member>)
    requires Sha256Rules(rules) && InLayout(files) && Payload(rules, files, records) && Distinct(PathOf, records)
    ensures MigrationChecksums.Printable(MigrationMembers.Member, AllSized(records))
  {
    var sized := AllSized(records);
    forall s | s in sized ensures MigrationChecksums.RecordOk(MigrationMembers.Member, s) {
      var k :| 0 <= k < |sized| && sized[k] == s;
      assert Describes(rules, files[records[k].path], records[k]);
      MigrationMembers.AllowedIsMember(records[k].path);
    }
    var rs := MigrationChecksums.Records(sized);
    forall i, j | 0 <= i < j < |rs| ensures rs[i].path != rs[j].path {
      assert PathOf(records[i]) != PathOf(records[j]);
    }
  }

  /** The text prints these records, and parses to what they say. */
  ghost predicate Checks(records: seq<Member>, text: string) {
    var rs := MigrationChecksums.Records(AllSized(records));
    && ChecksumText.Digested(rs) && text == ChecksumText.Printed(rs)
    && ChecksumText.Parsed(MigrationChecksums.MigrationRules(), text) == Some(ChecksumText.AsMap(rs))
  }

  method PrintListing(rules: Rules, ghost files: map<string, Bytes>, records: seq<Member>) returns (text: string)
    requires Sha256Rules(rules) && InLayout(files) && Payload(rules, files, records) && Distinct(PathOf, records)
    requires 0 < |records| <= MigrationChecksums.MAX_MEMBER_COUNT
    ensures Checks(records, text)
  {
    ListingPrints(rules, files, records);
    var printed := MigrationChecksums.PrintChecksums(MigrationMembers.Member, AllSized(records));
    MigrationChecksums.PrintedSetParses(AllSized(records));
    text := printed.value;
  }

  // ----- The whole bundle

  datatype Refusal = PluginsRefused | MediaRefused | TooManyMembers

  function SortedPackages(request: Request): seq<PluginInventory.Package> {
    SortBy(request.packages, PluginInventory.KeyOf)
  }

  function SortedLocals(request: Request): seq<MediaInventory.LocalMedia> {
    SortBy(request.local, MediaCapture.LocalItemId)
  }

  /** Valid, distinct packages whose sources can be copied into an empty directory within the budget. */
  ghost predicate PluginsCapturable(rules: Rules, q: Quota, request: Request) {
    && PluginInventory.PackagesOk(rules, SortedPackages(request))
    && PluginInventory.Copyable(rules, PluginCas(), q, map[], SortedPackages(request))
  }

  ghost predicate MediaCapturable(rules: Rules, q: Quota, request: Request) {
    && MediaCapture.LocalItemsOk(rules, SortedLocals(request))
    && MediaCapture.Stageable(rules, LocalCas(), q, map[], SortedLocals(request))
    && MediaCapture.RemoteItemsOk(
         rules, request.targets, Map(MediaCapture.LocalItemCommon, SortedLocals(request)),
         SortBy(request.remote, MediaCapture.RemoteItemId))
  }

  /** The copy budget that the plugin packages leave for the media. */
  function Left(q: Quota, request: Request): Quota {
    PluginInventory.Spent(PluginCas(), q, SortedPackages(request))
  }

  lemma CopyableInEmpty(rules: Rules, q: Quota, files: map<string, Bytes>, request: Request)
    requires Sha256Rules(rules) && Adds(map[], files, NoPlugin)
    requires PluginInventory.PackagesOk(rules, SortedPackages(request))
    ensures PluginInventory.Copyable(rules, PluginCas(), q, files, SortedPackages(request))
      <==> PluginInventory.Copyable(rules, PluginCas(), q, map[], SortedPackages(request))
  {
    var sorted := SortedPackages(request);
    PluginsAddressed(rules);
    forall k | 0 <= k < |sorted| ensures rules.digest(sorted[k].digest) {
      assert PluginInventory.PackageOk(rules, sorted[k]);
    }
    PluginInventory.CopyableAnywhere(rules, PluginCas(), q, files, map[], sorted);
  }

  lemma StageableInEmpty(rules: Rules, q: Quota, files: map<string, Bytes>, request: Request)
    requires Sha256Rules(rules) && Adds(map[], files, NoLocal)
    requires MediaCapture.LocalItemsOk(rules, SortedLocals(request))
    ensures MediaCapture.Stageable(rules, LocalCas(), q, files, SortedLocals(request))
      <==> MediaCapture.Stageable(rules, LocalCas(), q, map[], SortedLocals(request))
  {
    var sorted := SortedLocals(request);
    LocalsAddressed(rules);
    forall k | 0 <= k < |sorted| ensures rules.digest(sorted[k].digest) {
      assert MediaCapture.LocalItemOk(rules, sorted[k]);
    }
    MediaCapture.StageableAnywhere(rules, LocalCas(), q, files, map[], sorted);
  }

  function FirstCores(contents: Contents): map<Core, Bytes> {
    map[Database := contents.database][Metadata := contents.metadata]
  }

  /** The database members. */
  method StageDatabase(staging: Staging, contents: Contents)
    requires staging.files == map[]
    modifies staging`files
    ensures staging.Budget() == old(staging.Budget())
    ensures Adds(map[], staging.files, MigrationMembers.CoreMember)
    ensures HasCore(staging.files, FirstCores(contents))
  {
    PutCore(staging, Database, contents.database, map[], map[]);
    PutCore(staging, Metadata, contents.metadata, map[], map[Database := contents.database]);
  }

  /** The plugin packages and their manifest. */
  method StagePlugins(rules: Rules, staging: Staging, request: Request, ghost present: map<Core, Bytes>)
    returns (r: Option<PluginInventory.PluginManifest>, ghost f2: map<string, Bytes>)
    requires Sha256Rules(rules) && HasCore(staging.files, present) && PluginsJson !in present
    requires Adds(map[], staging.files, NoPlugin)
    modifies staging
    ensures r.Some? <==> PluginsCapturable(rules, old(staging.Budget()), request)
    ensures r.Some? ==>
      && staging.Budget() == Left(old(staging.Budget()), request)
      && PluginInventory.Captured(rules, PluginCas(), old(staging.files), f2, request.packages, r.value)
      && Adds(old(staging.files), f2, MigrationMembers.PluginMember)
      && Adds(f2, staging.files, MigrationMembers.CoreMember)
      && HasCore(staging.files, present[PluginsJson := request.contents.plugins(r.value)])
  {
    ghost var f1 := staging.files;
    f2 := f1;
    PluginsAddressed(rules);
    if PluginInventory.PackagesOk(rules, SortedPackages(request)) {
      CopyableInEmpty(rules, staging.Budget(), f1, request);
    }
    var captured := PluginInventory.CapturePlugins(rules, PluginCas(), staging, request.packages);
    if captured.Err? {
      return None, f2;
    }
    f2 := staging.files;
    PluginsAdded(rules, f1, f2, request.packages, captured.value);
    PluginsKeepCore(f1, f2, present);
    PutCore(staging, PluginsJson, request.contents.plugins(captured.value), f2, present);
    return Some(captured.value), f2;
  }

  /** Of the core members, those of the database and the plugin manifest are there, with their contents. */
  ghost predicate HasFirst(
    files: map<string, Bytes>, contents: Contents, plugins: PluginInventory.PluginManifest) {
    HasCore(files, FirstCores(contents)[PluginsJson := contents.plugins(plugins)])
  }

  /** The database members, then the plugins. */
  method StageFirst(rules: Rules, staging: Staging, request: Request)
    returns (r: Option<PluginInventory.PluginManifest>, ghost f1: map<string, Bytes>, ghost f2: map<string, Bytes>)
    requires Sha256Rules(rules) && staging.files == map[]
    modifies staging
    ensures r.Some? <==> PluginsCapturable(rules, old(staging.Budget()), request)
    ensures r.Some? ==>
      && staging.Budget() == Left(old(staging.Budget()), request)
      && PluginInventory.Captured(rules, PluginCas(), f1, f2, request.packages, r.value)
      && Adds(map[], f1, MigrationMembers.CoreMember)
      && Adds(f1, f2, MigrationMembers.PluginMember)
      && Adds(f2, staging.files, MigrationMembers.CoreMember)
      && HasFirst(staging.files, request.contents, r.value)
  {
    StageDatabase(staging, request.contents);
    f1 := staging.files;
    CoreIsNoPlugin(f1);
    r, f2 := StagePlugins(rules, staging, request, FirstCores(request.contents));
  }

  lemma PluginsKeepCore(a: map<string, Bytes>, b: map<string, Bytes>, present: map<Core, Bytes>)
    requires HasCore(a, present) && Adds(a, b, MigrationMembers.PluginMember)
    ensures HasCore(b, present)
  {
    forall c ensures !MigrationMembers.PluginMember(CorePath(c)) { CapturedNotCore(c); }
    CoreKept(a, b, MigrationMembers.PluginMember, present);
  }

  lemma LocalsKeepCore(a: map<string, Bytes>, b: map<string, Bytes>, present: map<Core, Bytes>)
    requires HasCore(a, present) && Adds(a, b, MigrationMembers.LocalMember)
    ensures HasCore(b, present)
  {
    forall c ensures !MigrationMembers.LocalMember(CorePath(c)) { CapturedNotCore(c); }
    CoreKept(a, b, MigrationMembers.LocalMember, present);
  }

  ghost function WithMedia(
    contents: Contents, media: MediaInventory.MediaManifest, present: map<Core, Bytes>): map<Core, Bytes>
  {
    present[MediaJson := contents.media(media)][Configuration := contents.configuration]
  }

  ghost function WithStates(contents: Contents, present: map<Core, Bytes>): map<Core, Bytes> {
    present[PrivateState := contents.privateState][UpdaterState := contents.updaterState][Envelope := contents.envelope]
  }

  /** The media manifest and the configuration. */
  method StageConfiguration(
    staging: Staging, media: MediaInventory.MediaManifest, contents: Contents, ghost present: map<Core, Bytes>)
    requires HasCore(staging.files, present) && MediaJson !in present && Configuration !in present
    modifies staging`files
    ensures Adds(old(staging.files), staging.files, MigrationMembers.CoreMember)
    ensures HasCore(staging.files, WithMedia(contents, media, present))
  {
    ghost var start := staging.files;
    PutCore(staging, MediaJson, contents.media(media), start, present);
    PutCore(staging, Configuration, contents.configuration, start, present[MediaJson := contents.media(media)]);
  }

  /** The states of the source and the envelope. */
  method StageStates(staging: Staging, contents: Contents, ghost present: map<Core, Bytes>)
    requires HasCore(staging.files, present)
    requires PrivateState !in present && UpdaterState !in present && Envelope !in present
    modifies staging`files
    ensures Adds(old(staging.files), staging.files, MigrationMembers.CoreMember)
    ensures HasCore(staging.files, WithStates(contents, present))
  {
    ghost var start := staging.files;
    PutCore(staging, PrivateState, contents.privateState, start, present);
    PutCore(staging, UpdaterState, contents.updaterState, start, present[PrivateState := contents.privateState]);
    PutCore(
      staging, Envelope, contents.envelope, start,
      present[PrivateState := contents.privateState][UpdaterState := contents.updaterState]);
  }

  /** The remaining core members. */
  method StageRest(
    staging: Staging, ghost plugins: PluginInventory.PluginManifest, media: MediaInventory.MediaManifest, contents: Contents)
    requires HasFirst(staging.files, contents, plugins)
    modifies staging`files
    ensures Adds(old(staging.files), staging.files, MigrationMembers.CoreMember)
    ensures HoldsAll(staging.files, contents, plugins, media)
  {
    ghost var start := staging.files;
    ghost var present := FirstCores(contents)[PluginsJson := contents.plugins(plugins)];
    StageConfiguration(staging, media, contents, present);
    ghost var middle := staging.files;
    StageStates(staging, contents, WithMedia(contents, media, present));
    AddsTwice(start, middle, staging.files, MigrationMembers.CoreMember);
    AllCores(staging.files, contents, plugins, media);
  }

  lemma AllCores(
    files: map<string, Bytes>, contents: Contents, plugins: PluginInventory.PluginManifest,
    media: MediaInventory.MediaManifest)
    requires HasCore(files, WithStates(contents, WithMedia(
      contents, media, FirstCores(contents)[PluginsJson := contents.plugins(plugins)])))
    ensures HoldsAll(files, contents, plugins, media)
  {
    var present := WithStates(contents, WithMedia(
      contents, media, FirstCores(contents)[PluginsJson := contents.plugins(plugins)]));
    forall c ensures CorePath(c) in files && files[CorePath(c)] == ContentOf(contents, plugins, media, c) {
      EachCore(contents, plugins, media, c, present);
    }
  }

  lemma EachCore(
    contents: Contents, plugins: PluginInventory.PluginManifest, media: MediaInventory.MediaManifest, c: Core,
    present: map<Core, Bytes>)
    requires present == WithStates(contents, WithMedia(
      contents, media, FirstCores(contents)[PluginsJson := contents.plugins(plugins)]))
    ensures c in present && present[c] == ContentOf(contents, plugins, media, c)
  {
  }

  /** The local media, then the remaining core members. */
  method StageMedia(
    rules: Rules, staging: Staging, request: Request, ghost plugins: PluginInventory.PluginManifest)
    returns (r: Option<MediaInventory.MediaManifest>, ghost f4: map<string, Bytes>)
    requires Sha256Rules(rules) && HasFirst(staging.files, request.contents, plugins)
    requires Adds(map[], staging.files, NoLocal)
    modifies staging
    ensures r.Some? <==> MediaCapturable(rules, old(staging.Budget()), request)
    ensures r.Some? ==>
      && MediaCapture.Captured(
           rules, LocalCas(), request.targets, old(staging.files), f4, request.local, request.remote, r.value)
      && Adds(old(staging.files), f4, MigrationMembers.LocalMember)
      && Adds(f4, staging.files, MigrationMembers.CoreMember)
      && HoldsAll(staging.files, request.contents, plugins, r.value)
  {
    ghost var f3 := staging.files;
    f4 := f3;
    LocalsAddressed(rules);
    if MediaCapture.LocalItemsOk(rules, SortedLocals(request)) {
      StageableInEmpty(rules, staging.Budget(), f3, request);
    }
    var captured := MediaCapture.CaptureMedia(
      rules, LocalCas(), request.targets, staging, request.local, request.remote);
    if captured.Err? {
      return None, f4;
    }
    f4 := staging.files;
    LocalsAdded(rules, request.targets, f3, f4, request.local, request.remote, captured.value);
    LocalsKeepCore(f3, f4, FirstCores(request.contents)[PluginsJson := request.contents.plugins(plugins)]);
    StageRest(staging, plugins, captured.value, request.contents);
    return Some(captured.value), f4;
  }

  /** The finished directory, whatever listing of it the verifiers take. */
  ghost predicate Verifies(rules: Rules, files: map<string, Bytes>, b: Bundle) {
    && InLayout(files) && (forall c :: CorePath(c) in files)
    && (forall records :: Payload(rules, files, records) ==> BothVerified(rules, b.plugins, b.media, records))
    && Sealed(rules, files, b)
  }

  ghost predicate BothVerified(
    rules: Rules, plugins: PluginInventory.PluginManifest, media: MediaInventory.MediaManifest, records: seq<Member>) {
    && PluginInventory.Verified(rules, PluginCas(), plugins, records)
    && MediaInventory.Verified(rules, LocalCas(), media, records)
  }

  ghost predicate Sealed(rules: Rules, files: map<string, Bytes>, b: Bundle) {
    Payload(rules, files, b.records) && Sorted(b.records, MemberKey) && Checks(b.records, b.checksums)
  }

  /** The stages of a directory into which both captures went. */
  datatype Layers = Layers(f1: map<string, Bytes>, f2: map<string, Bytes>, f3: map<string, Bytes>, f4: map<string, Bytes>)

  ghost predicate Staged(
    rules: Rules, request: Request, l: Layers, files: map<string, Bytes>, plugins: PluginInventory.PluginManifest,
    media: MediaInventory.MediaManifest) {
    && Layered(l.f1, l.f2, l.f3, l.f4, files)
    && PluginInventory.Captured(rules, PluginCas(), l.f1, l.f2, request.packages, plugins)
    && MediaCapture.Captured(rules, LocalCas(), request.targets, l.f3, l.f4, request.local, request.remote, media)
    && HoldsAll(files, request.contents, plugins, media)
  }

  lemma BundleVerifies(rules: Rules, request: Request, l: Layers, files: map<string, Bytes>, b: Bundle)
    requires Sha256Rules(rules) && Staged(rules, request, l, files, b.plugins, b.media) && Sealed(rules, files, b)
    ensures Verifies(rules, files, b)
  {
    LayersApart(l.f1, l.f2, l.f3, l.f4, files);
    forall listing | Payload(rules, files, listing) ensures BothVerified(rules, b.plugins, b.media, listing) {
      BothPass(rules, request, l.f1, l.f2, l.f3, l.f4, files, b.plugins, b.media, listing);
    }
  }

  lemma StagedLayout(
    rules: Rules, request: Request, l: Layers, files: map<string, Bytes>, plugins: PluginInventory.PluginManifest,
    media: MediaInventory.MediaManifest)
    requires Staged(rules, request, l, files, plugins, media)
    ensures InLayout(files) && forall c :: CorePath(c) in files
  {
    LayersApart(l.f1, l.f2, l.f3, l.f4, files);
  }

  /** Everything is written into the directory, or a capture refuses. */
  method StageAll(rules: Rules, staging: Staging, request: Request)
    returns (
      r: Result<(PluginInventory.PluginManifest, MediaInventory.MediaManifest), Refusal>, ghost l: Layers)
    requires Sha256Rules(rules) && staging.files == map[]
    modifies staging
    ensures r == Err(PluginsRefused) <==> !PluginsCapturable(rules, old(staging.Budget()), request)
    ensures r == Err(MediaRefused) <==>
      && PluginsCapturable(rules, old(staging.Budget()), request)
      && !MediaCapturable(rules, Left(old(staging.Budget()), request), request)
    ensures r != Err(TooManyMembers)
    ensures r.Ok? ==> Staged(rules, request, l, staging.files, r.value.0, r.value.1)
  {
    var plugins, f1, f2 := StageFirst(rules, staging, request);
    ghost var f3 := staging.files;
    l := Layers(f1, f2, f3, f3);
    if plugins.None? {
      return Err(PluginsRefused), l;
    }
    NoLocalYet(f1, f2, f3);
    var media, f4 := StageMedia(rules, staging, request, plugins.value);
    l := Layers(f1, f2, f3, f4);
    if media.None? {
      return Err(MediaRefused), l;
    }
    return Ok((plugins.value, media.value)), l;
  }

  /**
    Producer and verifiers agree on a whole bundle: it is produced exactly when both captures succeed and
    the members are not too many, and then its manifests record exactly the requested packages and media,
    each core member holds its own contents, both manifests pass their verifiers against every listing of
    the finished directory, its members are those of the closed set with all core ones among them, and
    the checksum set parses to the listing.
   */
  method Produce(rules: Rules, staging: Staging, request: Request)
    returns (r: Result<Bundle, Refusal>, ghost l: Layers)
    requires Sha256Rules(rules) && staging.files == map[]
    modifies staging
    ensures r == Err(PluginsRefused) <==> !PluginsCapturable(rules, old(staging.Budget()), request)
    ensures r == Err(MediaRefused) <==>
      && PluginsCapturable(rules, old(staging.Budget()), request)
      && !MediaCapturable(rules, Left(old(staging.Budget()), request), request)
    ensures r == Err(TooManyMembers) ==> |staging.files| > MigrationChecksums.MAX_MEMBER_COUNT
    ensures r.Ok? ==> |staging.files| <= MigrationChecksums.MAX_MEMBER_COUNT
    ensures r.Ok? ==> Verifies(rules, staging.files, r.value)
    ensures r.Ok? ==> Staged(rules, request, l, staging.files, r.value.plugins, r.value.media)
  {
    var staged, layers := StageAll(rules, staging, request);
    l := layers;
    if staged.Err? {
      return Err(staged.error), l;
    }
    StagedLayout(rules, request, l, staging.files, staged.value.0, staged.value.1);
    r := Seal(rules, staging.files, staged.value.0, staged.value.1);
    if r.Ok? { BundleVerifies(rules, request, l, staging.files, r.value); }
  }

  /** The listing of the finished directory and its checksum set. */
  method Seal(
    rules: Rules, files: map<string, Bytes>, plugins: PluginInventory.PluginManifest, media: MediaInventory.MediaManifest)
    returns (r: Result<Bundle, Refusal>)
    requires Sha256Rules(rules) && InLayout(files) && forall c :: CorePath(c) in files
    ensures r.Ok? <==> |files| <= MigrationChecksums.MAX_MEMBER_COUNT
    ensures r.Err? ==> r.error == TooManyMembers
    ensures r.Ok? ==> r.value.plugins == plugins && r.value.media == media && Sealed(rules, files, r.value)
  {
    var records := ListMembers(rules, files);
    if |records| > MigrationChecksums.MAX_MEMBER_COUNT {
      return Err(TooManyMembers);
    }
    HasMember(files, records);
    var text := PrintListing(rules, files, records);
    return Ok(Bundle(plugins, media, records, text));
  }

  lemma CoreIsNoPlugin(f1: map<string, Bytes>)
    requires Adds(map[], f1, MigrationMembers.CoreMember)
    ensures Adds(map[], f1, NoPlugin)
  {
    forall path | path in f1 ensures NoPlugin(path) { KindsApart(path); }
  }

  lemma NoLocalYet(f1: map<string, Bytes>, f2: map<string, Bytes>, f3: map<string, Bytes>)
    requires Adds(map[], f1, MigrationMembers.CoreMember) && Adds(f1, f2, MigrationMembers.PluginMember)
    requires Adds(f2, f3, MigrationMembers.CoreMember)
    ensures Adds(map[], f3, NoLocal)
  {
    forall path | path in f3 ensures NoLocal(path) { KindsApart(path); }
  }

  lemma HasMember(files: map<string, Bytes>, records: seq<Member>)
    requires |records| == |files| && forall c :: CorePath(c) in files
    ensures |records| > 0
  {
    assert CorePath(Database) in files.Keys;
  }
}
