/**
  Validation of ZIP members against one budget shared by every archive of an extraction.

  Each member is registered twice: under its full archive path, and, when the caller publishes it,
  under its published path.  The declarative reference says when a whole list of members is
  accepted; the budget, which sees one member at a time, accepts exactly those lists.
 */
module ArchiveBudget {
  import opened ArchiveLimits
  import opened ArchivePaths
  import opened PathText
  import opened Wrappers

  const ZIP_STORED := 0
  const ZIP_DEFLATED := 8
  const UNSAFE_ZIP_FLAGS: bv16 := 0x1 | 0x8 | 0x20 | 0x40
  const UNKNOWN_TYPE := 0
  const DIRECTORY_TYPE := 0x4000
  const REGULAR_TYPE := 0x8000

  datatype ZipInfo = ZipInfo(
    filename: string, origFilename: string, flagBits: bv16, compressType: int,
    compressSize: int, fileSize: int, crc: int, fileType: int)
  {
    predicate IsDir() {
      filename != "" && filename[|filename| - 1] == '/'
    }
  }

  // ----- Member names

  const RESERVED_STEMS: set<string> := {
    "aux", "con", "conin$", "conout$", "nul", "prn",
    "com1", "com2", "com3", "com4", "com5", "com6", "com7", "com8", "com9",
    "lpt1", "lpt2", "lpt3", "lpt4", "lpt5", "lpt6", "lpt7", "lpt8", "lpt9",
    "com\U{B9}", "com\U{B2}", "com\U{B3}", "lpt\U{B9}", "lpt\U{B2}", "lpt\U{B3}"}

  predicate ForbiddenPart(fold: char -> string, part: string) {
    || part == "" || part == "." || part == ".."
    || ':' in part
    || (exists i :: 0 <= i < |part| && (part[i] in "<>\"|?*" || part[i] < ' '))
    || part[|part| - 1] == ' ' || part[|part| - 1] == '.'
    || Casefold(fold, SplitAt(part, '.')[0]) in RESERVED_STEMS
  }

  function WithoutTrailingSlash(s: string): string {
    if s != "" && s[|s| - 1] == '/' then s[..|s| - 1] else s
  }

  predicate DrivePrefix(s: string) {
    |s| >= 2 && ('A' <= s[0] <= 'Z' || 'a' <= s[0] <= 'z') && s[1] == ':'
  }

  /** NFC normalisation of one component; it never introduces a separator. */
  ghost predicate KeepsComponents(nfc: string -> string) {
    forall s: string :: '/' !in s ==> '/' !in nfc(s)
  }

  function Normalized(nfc: string -> string, parts: seq<string>): (r: seq<string>)
    ensures |r| == |parts|
    ensures forall i :: 0 <= i < |parts| ==> r[i] == nfc(parts[i])
  {
    seq(|parts|, i requires 0 <= i < |parts| => nfc(parts[i]))
  }

  predicate AnyForbidden(fold: char -> string, raw: seq<string>) {
    exists i :: 0 <= i < |raw| && ForbiddenPart(fold, raw[i])
  }

  /** The accepted components of a member name, or nothing. */
  function MemberPath(nfc: string -> string, fold: char -> string, value: string): Option<seq<string>> {
    if value == "" || '\\' in value || '\0' in value || value[0] == '/' || DrivePrefix(value) then None
    else
      var raw := SplitAt(WithoutTrailingSlash(value), '/');
      if AnyForbidden(fold, raw) then None
      else
        var normalized := Normalized(nfc, raw);
        if "" in normalized then None else Some(normalized)
  }

  predicate Descends(part: string) {
    part != "" && part != "." && part != ".." && '/' !in part
  }

  /**
    Accepted components are the name itself, cut at its separators and normalised; none of the cut
    components stays in place or climbs, and none of the normalised ones is empty or cut further.
   */
  lemma MemberPathIsTheName(nfc: string -> string, fold: char -> string, value: string)
    returns (raw: seq<string>)
    requires KeepsComponents(nfc) && MemberPath(nfc, fold, value).Some?
    ensures Join(raw) == WithoutTrailingSlash(value)
    ensures forall i :: 0 <= i < |raw| ==> Descends(raw[i])
    ensures MemberPath(nfc, fold, value).value == Normalized(nfc, raw)
    ensures PathParts(MemberPath(nfc, fold, value).value) && "" !in MemberPath(nfc, fold, value).value
  {
    raw := SplitAt(WithoutTrailingSlash(value), '/');
    JoinOfSplit(WithoutTrailingSlash(value));
    forall i | 0 <= i < |raw| ensures Descends(raw[i]) {
      assert !ForbiddenPart(fold, raw[i]);
    }
  }

  /** A component every supported platform can store under this name. */
  predicate PortablePart(fold: char -> string, part: string) {
    && part != "" && part[|part| - 1] != ' ' && part[|part| - 1] != '.'
    && (forall i :: 0 <= i < |part| ==> part[i] >= ' ' && part[i] !in ":<>\"|?*\\/")
    && Casefold(fold, SplitAt(part, '.')[0]) !in RESERVED_STEMS
  }

  lemma {:induction false} CharsOfJoin(parts: seq<string>, c: char)
    requires c != '/'
    ensures c in Join(parts) <==> exists i :: 0 <= i < |parts| && c in parts[i]
  {
    if |parts| > 1 {
      var tail := parts[1..];
      CharsOfJoin(tail, c);
      assert forall i :: 0 <= i < |tail| ==> tail[i] == parts[i + 1];
      if i :| 0 <= i < |parts| && c in parts[i] {
        assert i > 0 ==> c in tail[i - 1];
      }
      if c in Join(tail) {
        var i :| 0 <= i < |tail| && c in tail[i];
        assert c in parts[i + 1];
      }
      assert c in Join(parts) <==> c in parts[0] || c in Join(tail);
    } else if |parts| == 1 {
      assert parts[0] == Join(parts);
    }
  }

  lemma {:induction false} JoinEnds(parts: seq<string>)
    requires parts != [] && parts[|parts| - 1] != ""
    ensures Join(parts) != ""
    ensures Join(parts)[|Join(parts)| - 1] == parts[|parts| - 1][|parts[|parts| - 1]| - 1]
    ensures parts[0] != "" ==> Join(parts)[0] == parts[0][0]
  {
    if |parts| > 1 { JoinEnds(parts[1..]); }
  }

  lemma PortableIsAllowed(fold: char -> string, part: string)
    requires PortablePart(fold, part)
    ensures !ForbiddenPart(fold, part) && '\\' !in part && '\0' !in part && ':' !in part
  {
  }

  lemma AllowedIsPortable(fold: char -> string, part: string)
    requires !ForbiddenPart(fold, part) && '\\' !in part && '/' !in part
    ensures PortablePart(fold, part)
  {
  }

  ghost predicate AllPortable(nfc: string -> string, fold: char -> string, raw: seq<string>) {
    forall i :: 0 <= i < |raw| ==> PortablePart(fold, raw[i]) && nfc(raw[i]) != ""
  }

  lemma PortableChars(nfc: string -> string, fold: char -> string, raw: seq<string>, c: char)
    requires AllPortable(nfc, fold, raw) && (c == '\\' || c == '\0' || c == ':')
    ensures c !in Join(raw)
  {
    CharsOfJoin(raw, c);
    forall i | 0 <= i < |raw| ensures c !in raw[i] {
      PortableIsAllowed(fold, raw[i]);
    }
  }

  lemma PortableParts(nfc: string -> string, fold: char -> string, raw: seq<string>)
    requires AllPortable(nfc, fold, raw)
    ensures !AnyForbidden(fold, raw) && "" !in Normalized(nfc, raw)
  {
    forall i | 0 <= i < |raw| ensures !ForbiddenPart(fold, raw[i]) {
      PortableIsAllowed(fold, raw[i]);
    }
  }

  /** The name of separator-free components, with or without a directory's final separator. */
  predicate NameOf(raw: seq<string>, value: string) {
    PathParts(raw) && raw[|raw| - 1] != "" && (value == Join(raw) || value == Join(raw) + "/")
  }

  lemma NameSplits(raw: seq<string>, value: string)
    requires NameOf(raw, value)
    ensures value != "" && SplitAt(WithoutTrailingSlash(value), '/') == raw
    ensures forall c :: c in value ==> c in Join(raw) || c == '/'
    ensures raw[0] != "" ==> value[0] != '/'
  {
    JoinEnds(raw);
    assert raw[|raw| - 1][|raw[|raw| - 1]| - 1] in raw[|raw| - 1];
    assert raw[0] != "" ==> raw[0][0] in raw[0];
    assert WithoutTrailingSlash(value) == Join(raw);
    SplitOfJoin(raw);
  }

  lemma PortableAccepted(nfc: string -> string, fold: char -> string, raw: seq<string>, value: string)
    requires NameOf(raw, value) && AllPortable(nfc, fold, raw)
    ensures MemberPath(nfc, fold, value).Some?
  {
    NameSplits(raw, value);
    PortableParts(nfc, fold, raw);
    PortableChars(nfc, fold, raw, '\\');
    PortableChars(nfc, fold, raw, '\0');
    PortableChars(nfc, fold, raw, ':');
    assert PortablePart(fold, raw[0]);
  }

  lemma AcceptedPortable(nfc: string -> string, fold: char -> string, raw: seq<string>, value: string)
    requires NameOf(raw, value) && MemberPath(nfc, fold, value).Some?
    ensures AllPortable(nfc, fold, raw)
  {
    NameSplits(raw, value);
    CharsOfJoin(raw, '\\');
    forall i | 0 <= i < |raw| ensures PortablePart(fold, raw[i]) && nfc(raw[i]) != "" {
      assert Normalized(nfc, raw)[i] == nfc(raw[i]);
      assert !ForbiddenPart(fold, raw[i]);
      AllowedIsPortable(fold, raw[i]);
    }
  }

  /**
    A name is accepted exactly when every component is portable; the separate tests for drive prefixes,
    backslashes, absolute names and climbing components say no more than that.
   */
  lemma PortableNamesExactly(nfc: string -> string, fold: char -> string, raw: seq<string>, value: string)
    requires NameOf(raw, value)
    ensures MemberPath(nfc, fold, value).Some? <==> AllPortable(nfc, fold, raw)
  {
    if AllPortable(nfc, fold, raw) {
      PortableAccepted(nfc, fold, raw, value);
    } else if MemberPath(nfc, fold, value).Some? {
      AcceptedPortable(nfc, fold, raw, value);
    }
  }

  // ----- The reference

  datatype Member = Member(info: ZipInfo, archiveParts: seq<string>, parts: Option<seq<string>>)

  ghost predicate WellFormedMember(m: Member) {
    PathParts(m.archiveParts) && (m.parts.Some? ==> PathParts(m.parts.value))
  }

  /** The header of a member: names, flags, method, and the file type its attributes carry. */
  predicate HeaderAllowed(info: ZipInfo) {
    && info.origFilename == info.filename
    && '\0' !in info.origFilename
    && info.flagBits & UNSAFE_ZIP_FLAGS == 0
    && (info.compressType == ZIP_STORED || info.compressType == ZIP_DEFLATED)
    && info.compressSize >= 0
    && if info.IsDir() then
         && (info.fileType == UNKNOWN_TYPE || info.fileType == DIRECTORY_TYPE)
         && info.fileSize == 0 && info.compressSize == 0 && info.crc == 0
       else
         info.fileType == UNKNOWN_TYPE || info.fileType == REGULAR_TYPE
  }

  /** The declared sizes of a file, and the expansion they promise. */
  predicate SizesAllowed(limits: Limits, info: ZipInfo) {
    && 0 <= info.fileSize <= limits.maxMemberBytes
    && info.compressSize <= limits.maxMemberBytes
    && (info.fileSize != 0 ==>
         info.compressSize > 0 && info.fileSize <= limits.maxCompressionRatio * info.compressSize)
  }

  predicate MemberAllowed(limits: Limits, info: ZipInfo) {
    HeaderAllowed(info) && (info.IsDir() || SizesAllowed(limits, info))
  }

  function FileSize(m: Member): int {
    if m.info.IsDir() then 0 else m.info.fileSize
  }

  function CompressedSize(m: Member): int {
    if m.info.IsDir() then 0 else m.info.compressSize
  }

  function ArchiveEntry(m: Member): Entry {
    Entry(m.archiveParts, m.info.IsDir())
  }

  function PublishedEntry(m: Member): seq<Entry> {
    if m.parts.Some? then [Entry(m.parts.value, m.info.IsDir())] else []
  }

  function FileBytes(ms: seq<Member>): int {
    if ms == [] then 0 else FileBytes(ms[..|ms| - 1]) + FileSize(ms[|ms| - 1])
  }

  function CompressedBytes(ms: seq<Member>): int {
    if ms == [] then 0 else CompressedBytes(ms[..|ms| - 1]) + CompressedSize(ms[|ms| - 1])
  }

  function FileCount(ms: seq<Member>): nat {
    if ms == [] then 0 else FileCount(ms[..|ms| - 1]) + if ms[|ms| - 1].info.IsDir() then 0 else 1
  }

  function ArchiveEntries(ms: seq<Member>): (r: seq<Entry>) {
    if ms == [] then [] else ArchiveEntries(ms[..|ms| - 1]) + [ArchiveEntry(ms[|ms| - 1])]
  }

  function PublishedEntries(ms: seq<Member>): seq<Entry> {
    if ms == [] then [] else PublishedEntries(ms[..|ms| - 1]) + PublishedEntry(ms[|ms| - 1])
  }

  /** A list of members fits the budget. */
  ghost predicate Fits(limits: Limits, fold: char -> string, ms: seq<Member>) {
    && |ms| <= limits.maxMembers
    && (forall m :: m in ms ==> MemberAllowed(limits, m.info))
    && FileBytes(ms) <= limits.maxTotalBytes
    && CompressedBytes(ms) <= limits.maxTotalBytes
    && Acceptable(fold, ArchiveEntries(ms))
    && Acceptable(fold, PublishedEntries(ms))
  }

  lemma {:induction false} FewerFilesThanMembers(ms: seq<Member>)
    ensures FileCount(ms) <= |ms|
  {
    if ms != [] { FewerFilesThanMembers(ms[..|ms| - 1]); }
  }

  /** How the totals and the two entry lists grow with one member. */
  lemma OneMoreCounted(ms: seq<Member>, m: Member)
    ensures ArchiveEntries(ms + [m]) == ArchiveEntries(ms) + [ArchiveEntry(m)]
    ensures PublishedEntries(ms + [m]) == PublishedEntries(ms) + PublishedEntry(m)
    ensures FileBytes(ms + [m]) == FileBytes(ms) + FileSize(m)
    ensures CompressedBytes(ms + [m]) == CompressedBytes(ms) + CompressedSize(m)
    ensures FileCount(ms + [m]) == FileCount(ms) + if m.info.IsDir() then 0 else 1
    ensures FileCount(ms + [m]) <= |ms| + 1
  {
    var more := ms + [m];
    assert more != [] && more[..|more| - 1] == ms && more[|more| - 1] == m;
    FewerFilesThanMembers(ms);
  }

  /** When a list that fits still fits with one more member. */
  lemma OneMoreMember(limits: Limits, fold: char -> string, ms: seq<Member>, m: Member)
    requires Fits(limits, fold, ms)
    ensures Fits(limits, fold, ms + [m]) <==>
      && |ms| + 1 <= limits.maxMembers
      && MemberAllowed(limits, m.info)
      && FileBytes(ms) + FileSize(m) <= limits.maxTotalBytes
      && CompressedBytes(ms) + CompressedSize(m) <= limits.maxTotalBytes
      && Acceptable(fold, ArchiveEntries(ms) + [ArchiveEntry(m)])
      && Acceptable(fold, PublishedEntries(ms) + PublishedEntry(m))
  {
    OneMoreCounted(ms, m);
    var more := ms + [m];
    assert more[|ms|] == m;
    assert m in more;
    assert forall x :: x in more <==> x in ms || x == m;
  }

  /** Every list that fits was built from shorter lists that fit: one rejection is final. */
  lemma ShorterFits(limits: Limits, fold: char -> string, ms: seq<Member>, m: Member)
    requires Fits(limits, fold, ms + [m])
    ensures Fits(limits, fold, ms)
  {
    var more := ms + [m];
    assert more[..|ms|] == ms;
    assert m in more && forall x :: x in ms ==> x in more;
    var a, b := ArchiveEntries(more), ArchiveEntries(ms);
    forall i, j | 0 <= i < j < |b| ensures Compatible(fold, b[i], b[j]) {
      assert Compatible(fold, a[i], a[j]);
    }
    var c, d := PublishedEntries(more), PublishedEntries(ms);
    forall i, j | 0 <= i < j < |d| ensures Compatible(fold, d[i], d[j]) {
      assert Compatible(fold, c[i], c[j]);
    }
  }

  lemma {:induction false} PrefixFits(limits: Limits, fold: char -> string, ms: seq<Member>, n: nat)
    requires n <= |ms| && Fits(limits, fold, ms)
    ensures Fits(limits, fold, ms[..n])
    decreases |ms| - n
  {
    if n < |ms| {
      PrefixFits(limits, fold, ms, n + 1);
      assert ms[..n + 1] == ms[..n] + [ms[n]];
      ShorterFits(limits, fold, ms[..n], ms[n]);
    } else {
      assert ms[..n] == ms;
    }
  }

  // ----- What the reference promises

  lemma RatioOfOneMore(ratio: int, bytes: int, compressed: int, size: int, packed: int)
    requires bytes <= ratio * compressed && size <= ratio * packed
    ensures bytes + size <= ratio * (compressed + packed)
  {
  }

  lemma MemberRatio(limits: Limits, m: Member)
    requires limits.Valid() && MemberAllowed(limits, m.info)
    ensures 0 <= CompressedSize(m) && FileSize(m) <= limits.maxCompressionRatio * CompressedSize(m)
  {
    if !m.info.IsDir() && m.info.fileSize == 0 {
      assert limits.maxCompressionRatio * m.info.compressSize >= 0;
    }
  }

  /** No accepted list, over however many archives, expands beyond the ratio times its compressed size. */
  lemma {:induction false} ExpansionBounded(limits: Limits, fold: char -> string, ms: seq<Member>)
    requires limits.Valid() && Fits(limits, fold, ms)
    ensures FileBytes(ms) <= limits.maxCompressionRatio * CompressedBytes(ms)
  {
    if ms != [] {
      var init, last := ms[..|ms| - 1], ms[|ms| - 1];
      assert init + [last] == ms && last in ms;
      ShorterFits(limits, fold, init, last);
      ExpansionBounded(limits, fold, init);
      MemberRatio(limits, last);
      RatioOfOneMore(limits.maxCompressionRatio, FileBytes(init), CompressedBytes(init), FileSize(last),
                     CompressedSize(last));
    }
  }

  /** A header without the unsafe flags, with a method the copy knows. */
  predicate PlainFile(info: ZipInfo) {
    && info.filename == info.origFilename && '\0' !in info.filename && !info.IsDir()
    && info.flagBits == 0 && (info.compressType == 0 || info.compressType == 8)
    && info.compressSize >= 0 && (info.fileType == UNKNOWN_TYPE || info.fileType == REGULAR_TYPE)
  }

  lemma LoneMemberCounts(m: Member)
    ensures FileBytes([m]) == FileSize(m) && CompressedBytes([m]) == CompressedSize(m)
    ensures ArchiveEntries([m]) == [ArchiveEntry(m)] && PublishedEntries([m]) == PublishedEntry(m)
  {
    assert [m][..0] == [];
  }

  /**
    A lone plain file fits exactly when its sizes are within the limits and it expands to at most the
    ratio times its compressed size; at the ratio itself it still fits.
   */
  lemma LoneFileFits(limits: Limits, fold: char -> string, m: Member)
    requires limits.Valid() && WellFormedMember(m) && PlainFile(m.info)
    ensures Fits(limits, fold, [m]) <==>
      && 0 <= m.info.fileSize <= limits.maxMemberBytes && m.info.fileSize <= limits.maxTotalBytes
      && m.info.compressSize <= limits.maxMemberBytes && m.info.compressSize <= limits.maxTotalBytes
      && m.info.fileSize <= limits.maxCompressionRatio * m.info.compressSize
  {
    LoneMemberCounts(m);
    assert m in [m];
    if m.info.compressSize == 0 {
      assert limits.maxCompressionRatio * m.info.compressSize == 0;
    } else {
      assert limits.maxCompressionRatio * m.info.compressSize >= 0;
    }
  }

  /** A directory entry without content fits alone. */
  lemma LoneDirectoryFits(limits: Limits, fold: char -> string, m: Member)
    requires limits.Valid() && WellFormedMember(m) && m.info.IsDir()
    requires m.info.filename == m.info.origFilename && '\0' !in m.info.filename
    requires m.info.flagBits == 0 && (m.info.compressType == 0 || m.info.compressType == 8)
    requires m.info.fileType == UNKNOWN_TYPE || m.info.fileType == DIRECTORY_TYPE
    ensures Fits(limits, fold, [m])
      <==> m.info.fileSize == 0 && m.info.compressSize == 0 && m.info.crc == 0
  {
    LoneMemberCounts(m);
    assert m in [m];
  }

  lemma UnsafeBits(flags: bv16)
    ensures flags & UNSAFE_ZIP_FLAGS == 0 <==>
      flags & 0x1 == 0 && flags & 0x8 == 0 && flags & 0x20 == 0 && flags & 0x40 == 0
  {
  }

  /** An accepted member is not encrypted, has its sizes in its header, and is a plain file or an empty directory. */
  lemma AcceptedMembersArePlain(limits: Limits, fold: char -> string, ms: seq<Member>, m: Member)
    requires Fits(limits, fold, ms) && m in ms
    ensures m.info.flagBits & 0x1 == 0 && m.info.flagBits & 0x8 == 0
    ensures m.info.flagBits & 0x20 == 0 && m.info.flagBits & 0x40 == 0
    ensures m.info.compressType == 0 || m.info.compressType == 8
    ensures m.info.filename == m.info.origFilename && '\0' !in m.info.filename
    ensures m.info.fileType in if m.info.IsDir() then {0, 0x4000} else {0, 0x8000}
    ensures m.info.IsDir() ==> m.info.fileSize == 0 && m.info.compressSize == 0 && m.info.crc == 0
  {
    assert MemberAllowed(limits, m.info);
    UnsafeBits(m.info.flagBits);
  }

  // ----- The budget

  class Budget {
    const limits: Limits
    const fold: char -> string
    const archiveRegistrar: Registrar
    const publicationRegistrar: Registrar
    var archiveCount: int
    var memberCount: int
    var fileCount: int
    var declaredBytes: int
    var declaredCompressedBytes: int
    ghost var members: seq<Member>

    ghost predicate Registering()
      reads this, archiveRegistrar, publicationRegistrar
    {
      && archiveRegistrar != publicationRegistrar
      && archiveRegistrar.Valid() && publicationRegistrar.Valid()
      && archiveRegistrar.fold == fold && publicationRegistrar.fold == fold
    }

    /** The counts and the registrars stand for these members. */
    ghost predicate Tallied(ms: seq<Member>)
      reads this, archiveRegistrar, publicationRegistrar
    {
      && Registering()
      && archiveRegistrar.accepted == ArchiveEntries(ms)
      && publicationRegistrar.accepted == PublishedEntries(ms)
      && memberCount == |ms|
      && fileCount == FileCount(ms)
      && declaredBytes == FileBytes(ms)
      && declaredCompressedBytes == CompressedBytes(ms)
    }

    /** Together the members so far fit, and expand to at most the ratio times their compressed size. */
    ghost predicate Valid()
      reads this, archiveRegistrar, publicationRegistrar
    {
      && Tallied(members)
      && 0 <= archiveCount <= limits.maxArchives
      && Fits(limits, fold, members)
      && limits.Valid()
      && declaredBytes <= limits.maxCompressionRatio * declaredCompressedBytes
    }

    constructor (limits: Limits, fold: char -> string)
      requires KeepsSeparator(fold) && limits.Valid()
      ensures Valid() && archiveCount == 0 && members == [] && this.limits == limits && this.fold == fold
      ensures fresh(archiveRegistrar) && fresh(publicationRegistrar)
    {
      this.limits := limits;
      this.fold := fold;
      archiveRegistrar := new Registrar(fold);
      publicationRegistrar := new Registrar(fold);
      archiveCount, memberCount, fileCount, declaredBytes, declaredCompressedBytes := 0, 0, 0, 0, 0;
      members := [];
    }

    /** Adds a file to the running totals. */
    method CountFile(info: ZipInfo) returns (ok: bool)
      modifies this`fileCount, this`declaredBytes, this`declaredCompressedBytes
      ensures fileCount == old(fileCount) + 1
      ensures declaredBytes == old(declaredBytes) + info.fileSize
      ensures declaredCompressedBytes == old(declaredCompressedBytes) + info.compressSize
      ensures ok <==>
        && fileCount <= limits.maxMembers
        && declaredBytes <= limits.maxTotalBytes
        && declaredCompressedBytes <= limits.maxTotalBytes
    {
      fileCount := fileCount + 1;
      declaredBytes := declaredBytes + info.fileSize;
      declaredCompressedBytes := declaredCompressedBytes + info.compressSize;
      ok := !(|| fileCount > limits.maxMembers
              || declaredBytes > limits.maxTotalBytes
              || declaredCompressedBytes > limits.maxTotalBytes);
    }

    /** The sizes of a file are allowed on top of these counts. */
    predicate SizesFit(m: Member, files: int, bytes: int, compressed: int) {
      m.info.IsDir() || (
        && SizesAllowed(limits, m.info) && files + 1 <= limits.maxMembers
        && bytes + FileSize(m) <= limits.maxTotalBytes
        && compressed + CompressedSize(m) <= limits.maxTotalBytes)
    }

    /** The declared sizes of a member, counted when it is a file. */
    method CheckSizes(m: Member) returns (ok: bool)
      modifies this`fileCount, this`declaredBytes, this`declaredCompressedBytes
      ensures ok ==> fileCount == old(fileCount) + if m.info.IsDir() then 0 else 1
      ensures ok ==> declaredBytes == old(declaredBytes) + FileSize(m)
      ensures ok ==> declaredCompressedBytes == old(declaredCompressedBytes) + CompressedSize(m)
      ensures ok <==> SizesFit(m, old(fileCount), old(declaredBytes), old(declaredCompressedBytes))
    {
      if m.info.IsDir() {
        return true;
      }
      if !SizesAllowed(limits, m.info) {
        return false;
      }
      ok := CountFile(m.info);
    }

    /** Registers the published path of a member that has one. */
    method RegisterPublished(m: Member) returns (ok: bool)
      requires publicationRegistrar.Valid() && WellFormedMember(m)
      modifies publicationRegistrar
      ensures ok <==> Acceptable(publicationRegistrar.fold, old(publicationRegistrar.accepted) + PublishedEntry(m))
      ensures ok ==> publicationRegistrar.Valid()
      ensures ok ==> publicationRegistrar.accepted == old(publicationRegistrar.accepted) + PublishedEntry(m)
    {
      if m.parts.None? {
        assert publicationRegistrar.accepted + [] == publicationRegistrar.accepted;
        return true;
      }
      ok := publicationRegistrar.Register(Entry(m.parts.value, m.info.IsDir()));
    }

    /** The checks of one member, in order, against the running counts and the two registrars. */
    method CheckMember(m: Member) returns (ok: bool)
      requires Registering() && WellFormedMember(m)
      modifies this`memberCount, this`fileCount, this`declaredBytes, this`declaredCompressedBytes
      modifies archiveRegistrar, publicationRegistrar
      ensures ok <==>
        && old(memberCount) + 1 <= limits.maxMembers && HeaderAllowed(m.info)
        && Acceptable(fold, old(archiveRegistrar.accepted) + [ArchiveEntry(m)])
        && SizesFit(m, old(fileCount), old(declaredBytes), old(declaredCompressedBytes))
        && Acceptable(fold, old(publicationRegistrar.accepted) + PublishedEntry(m))
      ensures ok ==> Registering() && memberCount == old(memberCount) + 1
      ensures ok ==> fileCount == old(fileCount) + if m.info.IsDir() then 0 else 1
      ensures ok ==> declaredBytes == old(declaredBytes) + FileSize(m)
      ensures ok ==> declaredCompressedBytes == old(declaredCompressedBytes) + CompressedSize(m)
      ensures ok ==> archiveRegistrar.accepted == old(archiveRegistrar.accepted) + [ArchiveEntry(m)]
      ensures ok ==> publicationRegistrar.accepted == old(publicationRegistrar.accepted) + PublishedEntry(m)
    {
      memberCount := memberCount + 1;
      if memberCount > limits.maxMembers || !HeaderAllowed(m.info) {
        return false;
      }
      ok := archiveRegistrar.Register(ArchiveEntry(m));
      if ok {
        ok := CheckSizes(m);
      }
      if ok {
        ok := RegisterPublished(m);
      }
    }

    /** The checks of one member decide whether the longer list fits. */
    lemma NextFits(m: Member)
      requires Tallied(members) && Fits(limits, fold, members)
      ensures Fits(limits, fold, members + [m]) <==>
        && memberCount + 1 <= limits.maxMembers && HeaderAllowed(m.info)
        && Acceptable(fold, archiveRegistrar.accepted + [ArchiveEntry(m)])
        && SizesFit(m, fileCount, declaredBytes, declaredCompressedBytes)
        && Acceptable(fold, publicationRegistrar.accepted + PublishedEntry(m))
    {
      OneMoreMember(limits, fold, members, m);
      FewerFilesThanMembers(members);
    }

    /** The checks of one member, for the members so far. */
    method TallyMember(m: Member) returns (ok: bool)
      requires Tallied(members) && Fits(limits, fold, members) && WellFormedMember(m)
      modifies this`memberCount, this`fileCount, this`declaredBytes, this`declaredCompressedBytes
      modifies archiveRegistrar, publicationRegistrar
      ensures ok <==> Fits(limits, fold, members + [m])
      ensures ok ==> Tallied(members + [m])
    {
      NextFits(m);
      OneMoreCounted(members, m);
      ok := CheckMember(m);
    }

    /** Accepts a member exactly when the members so far and this one fit the budget. */
    method ValidateMember(m: Member) returns (ok: bool)
      requires Valid() && WellFormedMember(m)
      modifies this, archiveRegistrar, publicationRegistrar
      ensures ok <==> Fits(limits, fold, old(members) + [m])
      ensures archiveCount == old(archiveCount)
      ensures ok ==> Valid() && members == old(members) + [m]
    {
      ok := TallyMember(m);
      if ok {
        ExpansionBounded(limits, fold, members + [m]);
        members := members + [m];
      }
    }

    /** The archive's first n members are accepted on top of the earlier ones. */
    ghost predicate Taken(before: seq<Member>, ms: seq<Member>, n: nat, plans: seq<Member>)
      requires n <= |ms|
      reads this, archiveRegistrar, publicationRegistrar
    {
      Valid() && members == before + ms[..n] && plans == Planned(ms[..n])
    }

    /** The next member of an archive, which joins the plan when it is a published file. */
    method TakeMember(ghost before: seq<Member>, ms: seq<Member>, n: nat, plans: seq<Member>)
      returns (ok: bool, more: seq<Member>)
      requires n < |ms| && WellFormedMember(ms[n]) && Taken(before, ms, n, plans)
      modifies this, archiveRegistrar, publicationRegistrar
      ensures archiveCount == old(archiveCount)
      ensures ok ==> Taken(before, ms, n + 1, more)
      ensures !ok ==> !Fits(limits, fold, before + ms)
    {
      NextMember(limits, fold, before, ms, n);
      ok := ValidateMember(ms[n]);
      more := if !ms[n].info.IsDir() && ms[n].parts.Some? then plans + [ms[n]] else plans;
    }

    /** One more archive: its members are validated in order, and the published files are its plan. */
    method ValidateArchive(ms: seq<Member>) returns (ok: bool, plans: seq<Member>)
      requires Valid() && forall m :: m in ms ==> WellFormedMember(m)
      modifies this, archiveRegistrar, publicationRegistrar
      ensures ok <==> old(archiveCount) + 1 <= limits.maxArchives && Fits(limits, fold, old(members) + ms)
      ensures ok ==> Valid() && archiveCount == old(archiveCount) + 1 && members == old(members) + ms
      ensures ok ==> plans == Planned(ms)
    {
      plans := [];
      archiveCount := archiveCount + 1;
      if archiveCount > limits.maxArchives {
        return false, plans;
      }
      var n := 0;
      ghost var before := members;
      WholeList(before, ms);
      while n < |ms|
        invariant 0 <= n <= |ms|
        invariant archiveCount == old(archiveCount) + 1
        invariant Taken(before, ms, n, plans)
      {
        var accepted;
        accepted, plans := TakeMember(before, ms, n, plans);
        if !accepted {
          return false, plans;
        }
        n := n + 1;
      }
      return true, plans;
    }
  }

  lemma WholeList(before: seq<Member>, ms: seq<Member>)
    ensures before + ms[..0] == before && before + ms[..|ms|] == before + ms && ms[..|ms|] == ms
  {
  }

  lemma NextMember(limits: Limits, fold: char -> string, before: seq<Member>, ms: seq<Member>, n: nat)
    requires n < |ms|
    ensures before + ms[..n + 1] == before + ms[..n] + [ms[n]]
    ensures Planned(ms[..n + 1])
      == Planned(ms[..n]) + if !ms[n].info.IsDir() && ms[n].parts.Some? then [ms[n]] else []
    ensures Fits(limits, fold, before + ms) ==> Fits(limits, fold, before + ms[..n] + [ms[n]])
  {
    assert ms[..n + 1][..n] == ms[..n];
    assert before + ms[..n + 1] == before + ms[..n] + [ms[n]];
    if Fits(limits, fold, before + ms) {
      PrefixFits(limits, fold, before + ms, |before| + n + 1);
      assert (before + ms)[..|before| + n + 1] == before + ms[..n + 1];
    }
  }

  /** The published files of an archive, in archive order. */
  function Planned(ms: seq<Member>): seq<Member> {
    if ms == [] then []
    else
      var last := ms[|ms| - 1];
      Planned(ms[..|ms| - 1]) + if !last.info.IsDir() && last.parts.Some? then [last] else []
  }

  lemma PlannedOneMore(ms: seq<Member>, m: Member)
    ensures Planned(ms + [m]) == Planned(ms) + if !m.info.IsDir() && m.parts.Some? then [m] else []
  {
    assert (ms + [m])[..|ms|] == ms;
  }

  lemma LastCounts(ms: seq<Member>, last: Member, m: Member)
    ensures multiset(ms + [last])[m] == multiset(ms)[m] + if last == m then 1 else 0
  {
  }

  lemma PlannedCount(ms: seq<Member>, last: Member, m: Member)
    ensures multiset(Planned(ms + [last]))[m] == multiset(Planned(ms))[m]
      + if last == m && m.parts.Some? && !m.info.IsDir() then 1 else 0
  {
    PlannedOneMore(ms, last);
    LastCounts(Planned(ms), last, m);
  }

  predicate PlanCounts(ms: seq<Member>, m: Member) {
    multiset(Planned(ms))[m] == if m.parts.Some? && !m.info.IsDir() then multiset(ms)[m] else 0
  }

  lemma PlanCountsOneMore(ms: seq<Member>, last: Member, m: Member)
    requires PlanCounts(ms, m)
    ensures PlanCounts(ms + [last], m)
  {
    PlannedCount(ms, last, m);
    LastCounts(ms, last, m);
  }

  /** The plan holds every published file as often as the archive does, and nothing else. */
  lemma {:induction false} PlannedExactly(ms: seq<Member>, m: Member)
    ensures PlanCounts(ms, m)
  {
    if ms != [] {
      var init, last := ms[..|ms| - 1], ms[|ms| - 1];
      PlannedExactly(init, m);
      PlanCountsOneMore(init, last, m);
      assert ms == init + [last];
    }
  }

  lemma Regrouped<T>(a: seq<T>, b: seq<T>, c: seq<T>)
    ensures a + (b + c) == a + b + c
  {
  }

  lemma InitAndLast<T>(s: seq<T>) returns (init: seq<T>, last: T)
    requires s != []
    ensures s == init + [last] && |init| < |s|
  {
    init, last := s[..|s| - 1], s[|s| - 1];
  }

  /** The plan of two archives after each other is the plan of the first, then that of the second. */
  lemma {:induction false} PlannedInOrder(ms: seq<Member>, more: seq<Member>)
    ensures Planned(ms + more) == Planned(ms) + Planned(more)
    decreases |more|
  {
    if more == [] {
      assert ms + more == ms;
    } else {
      var init, last := InitAndLast(more);
      PlannedInOrder(ms, init);
      PlannedOneMore(ms + init, last);
      PlannedOneMore(init, last);
      Regrouped(ms, init, [last]);
      var tail := if !last.info.IsDir() && last.parts.Some? then [last] else [];
      Regrouped(Planned(ms), Planned(init), tail);
    }
  }
}
