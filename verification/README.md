# AniMemo durability and installer model

A Dafny model of the host-side code that moves an AniMemo instance between disks and hosts: the
archive extractor, the stream loops of the installer, the producers and verifiers of backups and
migration bundles, the secret envelope, the compatibility engine, the locator store, and the failure
protocols of installation, backup, migration and restore.

Code that updates state is modelled by classes and methods with loops, each proved against a
declarative specification; pure code is modelled by functions, with lemmas beside it. Everything the
host code calls but does not contain is a parameter or a nondeterministic oracle: SHA-256 and AEAD
functions, Unicode folding and NFC, JSON text, zlib, the clock, sockets, files, containers, and every
port that may fail.

| file | what it holds |
|---|---|
| `Wrappers`, `Octets`, `Digests`, `Ordering`, `Collections`, `PathText`, `RelativePaths` | outcome types; bytes; SHA-256 identities as text; the host's sort by UTF-8 and its laws; seen-sets; paths as text; the canonical relative path |
| `ArchiveLimits`, `ArchivePaths`, `ArchiveBudget`, `PublishedTree`, `MemberCopy` | the limits, the ZIP path registrar, the shared extraction budget, publication on a case-folding file system, the bounded member copy |
| `LoopbackRelay`, `LineCapture`, `ResourceBudget` | the half-closing relay, the capped line scanner, the budgeted copies and the expansion guard |
| `ChecksumText`, `ChecksumLaws`, `BackupChecksums`, `MigrationMembers`, `MigrationChecksums` | checksum sets: their text, their round trips, the closed path set of migration bundles, and the two formats |
| `BundleInventory`, `PluginInventory`, `MediaInventory`, `MediaCapture`, `BackupMedia` | the migration inventories and the backup's media coverage: producer, independent verifier, and their agreement |
| `MigrationBundle` | a whole migration bundle: both captures into one directory, its listing, its checksum set, and both verifiers |
| `Base64Url`, `BindingWalk`, `SecretEnvelope` | the envelope codec, the stack walk over a binding record, create and open |
| `Evidence`, `Compatibility` | the evidence normaliser with its shared counter, the decision engine and the migration gate |
| `LocatorStore` | locator publishers and replacers, interleaved |
| `FreshInstall`, `OperationJournals` | the fresh-install operation and the two journals |
| `MigrationConsume`, `ProductionBackup`, `RestoreRun` | consumption, production backup and restore over failing ports |

## What the model found

These statements are proved of the code as it is.

- A backup member path may contain a character at which Python splits lines (U+2028, for example, or
  a line feed). Such a checksum set is printed without complaint and no longer parses to itself;
  `ChecksumLaws.ParseOfPrint` gives the exact condition and `BackupChecksums.SeparatorInPath` an input.
  The closed path set of migration bundles rules this out.
- A locator publisher that is stopped between linking the locator and unlinking its temporary name, without
  removing it, leaves a file with two links, which every secure read refuses: no later publication or
  replacement can ever take effect. No other run loses a locator that was found with one link
  (`LocatorStore.StrandedExactly`, `LocatorStore.StrandedForever`).
- `LOCATOR_PUBLICATION_MISMATCH` does not mean that nothing was written. The read-back raises it exactly when
  a later effect has written another locator over the caller's own, which therefore took effect
  (`LocatorStore.MismatchExactly`, `LocatorStore.MismatchMeansWrittenOver`; an example is
  `LocatorStore.MismatchAfterEffect`).
- A fresh-install operation can be taken into its last phase by a phase transition instead of by succeeding,
  and from there it can only fail: exactly the operations that have succeeded, or run and have not entered the
  last phase, can still end in success (`FreshInstall.CompleteWhileRunningReached`,
  `FreshInstall.SuccessReachable`).
- In a production backup, the promise that the writers are as they were after any exit other than
  `RECOVERY_REQUIRED` has one exception: discarding the one-time key may itself raise while the writers
  are not restored, and the caller then sees that error. It takes a one-time key that was prepared and a backup
  that was not created; without a one-time key there is no exception (`ProductionBackup.WritersKeptExactly`,
  `ProductionBackup.WithoutOneTimeKey`; `ProductionBackup.DiscardHidesRecovery` is such a run). The lock comes
  back on every run that took it, unless closing the key raises. A key written by a preparation that then fails
  is kept by nobody and not discarded (`Lost` in `ProductionBackup.KeyAccount`).
- The inflate loop stops when all compressed input has been taken. A decompressor that takes the last
  input while it still holds output back has a sound member rejected; apart from that, acceptance is exact.
  It never happens with a decompressor that leaves input for later, and with one that keeps
  all output to the end it happens exactly when the content exceeds one chunk
  (`MemberCopy.MemberCopier.CopyMember`, `MemberCopy.HoardedMemberIsRejected`).
- Base64url decoding is not injective: unused low bits are ignored (`Base64Url.DecodeNotInjective`).
- A CRLF pair cut between two blocks changes what the line capture records when the line fills the
  limit exactly; `LineCapture.ChunkingExactly` says precisely when a cut matters.
- A restore plan announces the step `upgrade.apply-if-required`; in its place the run takes and reports
  `upgrade.apply`, or nothing. What a run reports is a prefix of the announced steps exactly when it fails before
  that place; it is always a prefix of the steps that the plan's actions call for
  (`RestoreRun.AnnouncedExactly`, `RestoreRun.EvidenceIsPrefix`; `RestoreRun.NinthStepFails` is a run that is no
  prefix).

## Model

| member | source | states |
|---|---|---|
| `ArchivePaths.JoinInjective` | installer/safe_archive.py:135-170 | a list of separator-free components can be read back from its joined text |
| `ArchivePaths.IdentityIsFoldedPath` | installer/safe_archive.py:135-170 | two entries have the same folded text exactly when their folded component lists are equal |
| `ArchivePaths.AcceptanceIgnoresOrder` | installer/safe_archive.py:135-208 | whether a list of entries is acceptable does not depend on their order |
| `ArchivePaths.ChecksDecideAcceptance` | installer/safe_archive.py:135-208 | the registrar's membership checks on its four collections hold exactly when the entry is pairwise compatible with every earlier one |
| `ArchivePaths.Registrar.RecordPrefixes` | installer/safe_archive.py:135-170 | records the spelling of each folded prefix, and fails exactly on a prefix known under another spelling |
| `ArchivePaths.Registrar.Enter` | installer/safe_archive.py:172-208 | accepts an entry exactly when the checks pass, and then the collections are those of the longer history |
| `ArchivePaths.Registrar.Register` | installer/safe_archive.py:135-208 | accepts exactly when the whole history with the entry is prefix-free, injective under folding and spelled alike |
| `ArchiveBudget.MemberPathIsTheName` | installer/safe_archive.py:94-121 | an accepted member path is the name itself cut at its separators and normalised, with no component that is empty, a dot, or climbs |
| `ArchiveBudget.PortableNamesExactly` | installer/safe_archive.py:94-121 | a name is accepted exactly when every component is portable; the separate tests for drive prefixes, backslashes, absolute and climbing names say no more than that |
| `ArchiveBudget.OneMoreMember` | installer/safe_archive.py:211-281 | the whole list fits exactly when the shorter list fits and the next member passes every header, size, count, total and path check |
| `ArchiveBudget.PrefixFits` | installer/safe_archive.py:440-462 | every first part of an acceptable list is acceptable |
| `ArchiveBudget.ExpansionBounded` | installer/safe_archive.py:255-276 | no accepted list, over however many archives, expands beyond the ratio times its compressed size |
| `ArchiveBudget.LoneFileFits` | installer/safe_archive.py:211-276 | a lone plain file fits exactly when its sizes are within the limits and it expands to at most the ratio times its compressed size, the ratio itself included |
| `ArchiveBudget.AcceptedMembersArePlain` | installer/safe_archive.py:211-254 | an accepted member is not encrypted, has its sizes in its header, uses a known method, and is a plain file or an empty directory |
| `ArchiveBudget.PlannedExactly` | installer/safe_archive.py:440-462 | the plan of an archive holds every published file as often as the archive does, and nothing else |
| `ArchiveBudget.PlannedInOrder` | installer/safe_archive.py:440-462 | the plan keeps the order of the archive |
| `ArchiveBudget.Budget.ValidateMember` | installer/safe_archive.py:211-281 | accepts a member exactly when all members seen so far, across archives, together fit; the budget it keeps then expands to at most the ratio times its compressed bytes |
| `ArchiveBudget.Budget.ValidateArchive` | installer/safe_archive.py:440-462 | accepts an archive exactly when it is not one too many and its members fit on top of the earlier ones, and plans exactly the published files in order |
| `PublishedTree.StagingTree.MakeParents` | installer/safe_archive.py:514-533 | creates the missing parents below existing ones, whose spelling it takes over, and fails exactly when a file is in the way |
| `PublishedTree.StagingTree.Publish` | installer/safe_archive.py:514-533 | every mkdir and exclusive open succeeds, and shows each file under its spelling, exactly when the files are acceptable |
| `PublishedTree.PublishedImpliesAcceptable` | installer/safe_archive.py:514-533 | a case-folding tree that shows all files as spelled can only come from acceptable paths |
| `PublishedTree.AcceptedFilesPublish` | installer/safe_archive.py:172-208 | the files of any list the registrar accepts can be published |
| `MemberCopy.CrcIncremental` | installer/safe_archive.py:369-386 | the checksum carried from chunk to chunk is the checksum of what was emitted |
| `MemberCopy.OutputLimit` | installer/safe_archive.py:335-348 | the inflate limit is never 0 and at most one byte beyond each remaining allowance |
| `MemberCopy.MemberCopier.Emit` | installer/safe_archive.py:372-386 | writes a chunk exactly when the member, the declared size and the shared total allow it |
| `MemberCopy.MemberCopier.CopyStored` | installer/safe_archive.py:392-403 | copies a stored member exactly when its sizes agree, the source holds it and it is allowed |
| `MemberCopy.MemberCopier.CopyDeflated` | installer/safe_archive.py:404-431 | terminates for every conforming decompressor; on success the consumed input is the compressed bytes and they inflate to what was emitted; accepts exactly complete streams within every allowance on which the decompressor has not stalled, which a patient one never does and a hoarding one does exactly when the content exceeds one chunk |
| `MemberCopy.MemberCopier.InflateOnce` | installer/safe_archive.py:415-429 | one turn of the inflate loop: what comes out is written, input is consumed or output grows, and a turn on a stream that fits is never refused |
| `MemberCopy.MemberCopier.CopyMember` | installer/safe_archive.py:363-437 | success writes exactly the declared size with the declared CRC and is what the compressed bytes stand for; no exit writes beyond the declared size or the shared total; and exactly when it succeeds, for stored members and for deflated ones under every decompressor |
| `MemberCopy.HoardedMemberIsRejected` | installer/safe_archive.py:404-431 | a sound member of two bytes is rejected when the decompressor holds one back after the last input |
| `LoopbackRelay.OneMoreAct` | installer/candidate_listener.py:66-110 | what one more event demands of an orderly trace: nothing after shutdown, no more received than the buffer ahead of the destination, delivery within what was received, shutdown only when all is delivered and the peer ended |
| `LoopbackRelay.OrderlyCut` | installer/candidate_listener.py:66-110 | every first part of an orderly trace is orderly, so that the order, prefix and buffer claims hold at every earlier moment too |
| `LoopbackRelay.DeliveryIsPrefix` | installer/candidate_listener.py:94-106 | what was sent is always a first part of what was received |
| `LoopbackRelay.UndeliveredFits` | installer/candidate_listener.py:87-106 | in an orderly trace what was received and not yet sent is never more than 64 KiB |
| `LoopbackRelay.ShutMeansDelivered` | installer/candidate_listener.py:79-86 | write-shutdown is the last event, after the peer's end of file, with everything delivered |
| `LoopbackRelay.Relay.RunLoop` | installer/candidate_listener.py:77-106 | the loop terminates before the deadline or by doing work, keeps both buffers within the limit and the total within the cap |
| `LoopbackRelay.Relay.Forward` | installer/candidate_listener.py:66-110 | both traces are orderly, hence at most 64 KiB undelivered each way at every moment; at most 16 MiB in all; a graceful return delivered and shut both directions; the over-cap exit drops exactly its last chunk; every other early exit has its cause |
| `LineCapture.RecogniseIgnoresTerminator` | installer/apt_diagnostics.py:52-64 | a line that ends in CR LF shows what it shows with CR alone, and a lone LF shows nothing |
| `LineCapture.CategoryMeans` | installer/apt_diagnostics.py:52-56 | a line is of a class exactly when one of its markers stands in it, whatever the letter case |
| `LineCapture.HostMeans` | installer/apt_diagnostics.py:59-61 | a known host is found exactly where it stands alone, whatever the letter case |
| `LineCapture.IndexMeans` | installer/apt_diagnostics.py:62-64 | a known index name is found exactly where it stands alone, spelled as it is |
| `LineCapture.RecogniseIsTerminatorBlind` | installer/apt_diagnostics.py:20-64 | so the markers, hosts and index names of the source satisfy the assumption of the chunking theorems |
| `LineCapture.Capture.Feed` | installer/apt_diagnostics.py:66-84 | feeding a block leaves the fields as the pure scanner says |
| `LineCapture.Capture.Finish` | installer/apt_diagnostics.py:86-89 | the unfinished last line is examined once |
| `LineCapture.LinesConcat` | installer/apt_diagnostics.py:71-84 | scanning two blocks is scanning their concatenation when the cut keeps CRLF pairs whole |
| `LineCapture.FeedConcat` | installer/apt_diagnostics.py:66-84 | the same for the whole capture: raw prefix, counts, truncation and findings |
| `LineCapture.ChunkingIsIrrelevant` | installer/apt_diagnostics.py:66-84 | any chunking that cuts no CRLF pair leaves the capture of the whole stream |
| `LineCapture.ChunkingWithoutReturns` | installer/apt_diagnostics.py:66-84 | for streams without CR every chunking does |
| `LineCapture.ChunkingExactly` | installer/apt_diagnostics.py:66-84 | for a cut inside a CRLF pair, exactly when it changes the capture, and exactly when it changes the final one: the line fills the limit with its CR, and the rest of the stream, by its overlong lines and by what its lines show, does not hide the difference |
| `LineCapture.CutAtLimitDiffers` | installer/apt_diagnostics.py:66-84 | a stream cut inside a pair at the 4096 limit is captured differently |
| `LineCapture.CaptureSummarisesStream` | installer/apt_diagnostics.py:40-89 | the result is the union of what the lines within the limit show, the raw prefix, the byte count and whether anything was cut, stated without buffers |
| `ResourceBudget.CopyByteCounter.Consume` | durability/resource_budget.py:66-84 | counts bytes exactly while they fit and refuses without counting otherwise |
| `ResourceBudget.WriteAll` | durability/resource_budget.py:86-97 | partial writes are repeated until the chunk is written or a write makes no progress; what is written is a first part of the chunk |
| `ResourceBudget.Preflight` | durability/resource_budget.py:100-118 | accepts a list of sizes exactly when each fits the member and their sum fits the total |
| `ResourceBudget.BoundedCopy` | durability/resource_budget.py:121-164 | with a target that does not fail, succeeds exactly for content of the declared size that fits; the bytes written are a source prefix as long as the counter's increase |
| `ResourceBudget.CopyPayload` | durability/backup.py:1066-1114 | sizes that pass the preflight are all copied, adding exactly their sum, unless a source has another size |
| `ResourceBudget.CopyInOrder` | durability/backup.py:1074-1105 | after an accepted preflight the copies succeed exactly when every source has its declared size |
| `ResourceBudget.DatabaseExpansionGuard.Consume` | durability/resource_budget.py:167-194 | an accepted chunk leaves the total within the cap and within ratio times compressed size |
| `ResourceBudget.CheckWhole` | durability/backup.py:1022-1029 | the producer's single check accepts exactly the dumps within the allowance |
| `ResourceBudget.CheckChunked` | durability/backup.py:1835-1852 | the chunk-by-chunk check accepts exactly the same dumps, for every chunking |
| `ChecksumText.SplitFirst` | durability/backup.py:2004-2008 | the host's line splitting takes off one unbroken line at a time |
| `ChecksumText.LinePerBreak` | durability/backup.py:2004-2008 | a text that ends in a break has as many lines as breaks |
| `ChecksumText.CanonicalOneMore` | durability/backup.py:2004-2028 | the checks against the previous path and the collision keys amount to pairwise order and distinctness |
| `ChecksumLaws.ParseOfPrint` | durability/backup.py:1989-2041 | parsing a printed set gives the path-to-digest map back exactly when no path contains a line-breaking character |
| `ChecksumLaws.PrintOfParse` | durability/backup.py:1989-2041 | printing an accepted text's records gives the text back exactly when line feeds are its only breaks |
| `ChecksumLaws.PrintIgnoresOrder` | durability/backup.py:2034-2041 | the printed text does not depend on the order of the records |
| `RelativePaths.CanonicalMeans` | durability/backup.py:2357-2376 | the path-object round trip accepts exactly short texts whose components are ordinary names, and the lone dot |
| `BackupChecksums.PrintChecksums` | durability/backup.py:2034-2041 | prints exactly the records with canonical paths and digests, as the sorted text |
| `BackupChecksums.CheckLine` | durability/backup.py:2005-2024 | the checks on one line, given the previous path and the collision keys |
| `BackupChecksums.ParseChecksums` | durability/backup.py:1989-2031 | returns the map of an accepted text and refuses every other |
| `BackupChecksums.SeparatorInPath` | durability/backup.py:2357-2395 | a storable record whose printed set does not parse back |
| `MigrationChecksums.PrintChecksums` | durability/migration.py:2114-2134 | prints exactly member records with distinct paths, digests and sizes, as the sorted text |
| `MigrationChecksums.OrderedMeansPrintable` | durability/migration.py:2117-2133 | strictly ascending after the sort says that the paths were distinct |
| `MigrationChecksums.ParseChecksums` | durability/migration.py:3061-3083 | returns the map of an accepted text and refuses every other |
| `MigrationMembers.MembersUnbroken` | durability/migration.py:3166-3179 | no path of the closed member set breaks a line |
| `MigrationMembers.AllowedIsMember` | durability/migration.py:2123-2124 | every path of the closed set is a canonical relative path, so the canonical check refuses nothing that the member check allows |
| `MigrationChecksums.PrintedSetParses` | durability/migration.py:2114-2134 | every printed migration set parses to its own map |
| `BundleInventory.PluginsAddressed` | durability/migration.py:1859-1859 | plugin member paths determine their digest and lie in the plugin directory |
| `BundleInventory.LocalsAddressed` | durability/migration.py:1930-1940 | local media member paths determine their digest and lie in the local media directory |
| `BundleInventory.SortedUniqueStrings` | durability/migration.py:3255-3279 | accepts exactly acceptable strings without repeats, in order if demanded, and returns them sorted |
| `BundleInventory.SortedAreCanonical` | durability/migration.py:3255-3279 | what the capture sorts passes the canonical check of the verifier |
| `BundleInventory.Staging.CopyVerifiedSource` | durability/migration.py:2009-2092 | copies exactly an unchanged source of the declared digest and size that fits the budgets into a new member; otherwise no member is left |
| `PluginInventory.VerifyPlugins` | durability/migration.py:2510-2597 | accepts exactly manifests whose records are well formed, distinct, ordered, backed by members, and account for every plugin member |
| `PluginInventory.VerifiedMembers` | durability/migration.py:2578-2597 | after verification the plugin members are exactly the declared digests, with those bytes and sizes: none dangling, no orphan |
| `PluginInventory.CapturePlugins` | durability/migration.py:1820-1888 | succeeds exactly for valid, distinct packages whose sources can be copied within the budget, each member once, and then leaves one record for each package in identity order, stages exactly their members and has spent exactly their bytes |
| `PluginInventory.CapturedDescribes` | durability/migration.py:1820-1888 | every package has its record and every record its package, with its own identity, digest, manifest digest and SDK versions and the size of its staged bytes |
| `PluginInventory.CapturedPasses` | durability/migration.py:1820-1888 | whatever is staged later elsewhere, a captured plugin manifest passes the verifier |
| `MediaInventory.VerifyLocals` | durability/migration.py:2618-2659 | the local loop accepts exactly ordered, unambiguous records backed by members |
| `MediaInventory.VerifyRemotes` | durability/migration.py:2660-2707 | the R2 loop accepts exactly ordered records, unambiguous with the local ones, whose identity is in normal form |
| `MediaInventory.VerifyMedia` | durability/migration.py:2600-2714 | both loops and the accounting for every local member together |
| `MediaInventory.UnambiguousMeans` | durability/migration.py:2600-2714 | one media identity names one object across both lists, and one place holds one object |
| `MediaCapture.CaptureLocals` | durability/migration.py:1904-1954 | succeeds exactly for valid, unambiguous objects whose sources can be copied or share a staged member of their size, and then stages exactly their bytes |
| `MediaCapture.CaptureRemotes` | durability/migration.py:1955-2000 | accepts exactly R2 objects that are valid, unambiguous and present in the same bucket at the target |
| `MediaCapture.CaptureMedia` | durability/migration.py:1891-2006 | the whole capture succeeds exactly when both lists pass and are unambiguous together |
| `MediaCapture.CapturedDescribesLocal` | durability/migration.py:1904-1954 | every local object has its record and every local record its object, with its own identity, digest, size and references |
| `MediaCapture.CapturedDescribesRemote` | durability/migration.py:1955-2000 | the same for R2 objects, whose record names the one bucket that source and target share |
| `MediaCapture.CapturedPasses` | durability/migration.py:1891-2006 | whatever is staged later elsewhere, a captured media manifest passes the verifier |
| `MediaCapture.VerifiedMembers` | durability/migration.py:2646-2714 | after verification the local media members are exactly the declared digests, with those bytes and sizes |
| `MigrationBundle.ListMembers` | durability/migration.py:2095-2111 | one record for each file of the directory, sorted by path, with its digest and size |
| `MigrationBundle.Produce` | durability/migration.py:530-637 | a bundle is produced exactly when the plugins can be captured, the media can within the budget they leave, and the members are not too many; its manifests then record exactly the requested packages and media, every core member holds its own contents, both manifests pass their verifiers against every listing of the directory, and the checksum set parses to the listing |
| `MigrationBundle.CoreContents` | durability/migration.py:540-637 | each core member is at its own path and holds its own contents |
| `MigrationBundle.BothPass` | durability/migration.py:2510-2714 | the two captures do not disturb each other: in a directory built by both and the core members, each manifest passes its own verifier |
| `BackupMedia.VerifyMedia` | durability/backup.py:1244-1368 | accepts exactly metadata whose local records match the members one for one and whose external references are valid, sorted and distinct |
| `BackupMedia.VerifiedCovers` | durability/backup.py:1244-1304 | after verification every copied member has a record with its digest and size, and no record stands for anything else |
| `BackupMedia.VerifiedExternals` | durability/backup.py:1305-1368 | after verification the external references are different R2 buckets with usable keys |
| `BackupMedia.VerifyExternal` | durability/backup.py:1305-1368 | the checks on one external reference |
| `BackupMedia.BuiltVerifies` | durability/backup.py:1181-1368 | what the producer builds passes the verifier exactly when the database's digests are the members' and the R2 references are valid and name different buckets |
| `Base64Url.DecodeOfEncode` | durability/secret_envelope.py:963-980 | decoding an encoding gives the bytes back whenever they fit the maximum |
| `Base64Url.DecodedLength` | durability/secret_envelope.py:967-980 | an accepted text decodes to at most two bytes beyond the maximum |
| `Base64Url.EncodeOfDecode` | durability/secret_envelope.py:963-980 | encoding a decoded text gives it back exactly when its unused low bits are zero |
| `Base64Url.DigitIsStandard` | durability/secret_envelope.py:963-980 | the digit of each value is that of table 2 in RFC 4648 |
| `Base64Url.GroupIsBigEndian` | durability/secret_envelope.py:963-980 | three bytes and their four digits are the same 24-bit number |
| `Base64Url.DecodeNotInjective` | durability/secret_envelope.py:967-980 | two texts for one byte |
| `BindingWalk.PushChildren` | durability/secret_envelope.py:500-516 | pushes the children of a node, and refuses exactly floats and objects with a forbidden field |
| `BindingWalk.StackTop` | durability/secret_envelope.py:500-516 | popping a node and pushing its children loses one node and no verdict |
| `BindingWalk.Walk` | durability/secret_envelope.py:500-516 | terminates and accepts exactly records with at most 100000 nodes, no float and no forbidden field at any depth |
| `BindingWalk.CleanThroughout` | durability/secret_envelope.py:500-516 | an accepted record holds no float and none of the fields that are only known once it is sealed, at any depth |
| `SecretEnvelope.ValidateEntries` | durability/secret_envelope.py:519-575 | accepts exactly entry lists within the limits, of known names and classes, distinct, with the required key |
| `SecretEnvelope.CreatedExactly` | durability/secret_envelope.py:271-346 | creation succeeds exactly for allowed entries, a secret that is not stored among them, and an envelope that is not too long, when the record identifies the artifact |
| `SecretEnvelope.CreatedEnvelope` | durability/secret_envelope.py:271-346 | the created header names the mode, salt and nonce, and the ciphertext is the payload under the one-time key itself or the key derived from the passphrase and the salt |
| `SecretEnvelope.OpenRawsOf` | durability/secret_envelope.py:846-937 | the consumer reads back each produced entry, in order |
| `SecretEnvelope.OpenOfCreate` | durability/secret_envelope.py:271-414 | opening with the same secret, artifact and record returns exactly the producer's entries, order and flags |
| `SecretEnvelope.OnlyTheProducersHeaderOpens` | durability/secret_envelope.py:349-414 | an envelope that carries a created ciphertext opens only under the producer's key, which is the one-time key itself or is derived from the passphrase and the header's salt, and under its whole header, for the producer's artifact and record |
| `SecretEnvelope.OnlyTheSameSecretOpens` | durability/secret_envelope.py:271-414 | no other secret of either kind opens what one secret created, whatever artifact is expected; the expected artifact, source and record digest are then the created ones |
| `SecretEnvelope.OpenedHeaderPinned` | durability/secret_envelope.py:689-836 | an accepted envelope, whoever sealed it, is of the one suite with all its parameters, in the secret's own mode |
| `SecretEnvelope.OpenedIsSound` | durability/secret_envelope.py:846-937 | what an accepted open returns is few, differently named, known entries of bounded size, with the credential key when required, and never the secret that opened it |
| `Evidence.NormalizeJson` | durability/compatibility.py:458-497 | with the counter at some value, accepts exactly trees within the depth and string rules whose nodes still fit, adds their number, and returns the normal form, which holds the same data with every mapping sorted by name |
| `Evidence.NormalizeMapping` | durability/compatibility.py:475-490 | the same for a mapping, whose keys are visited in order |
| `Evidence.NormalizeEvidence` | durability/compatibility.py:500-506 | accepts exactly mappings of at most 256 nodes within the rules, and returns their normal form, with the same data |
| `Evidence.NormalSameData` | durability/compatibility.py:458-497 | normalising keeps every leaf, the order of every sequence, and under every name of a mapping the same data |
| `Evidence.NormalSorted` | durability/compatibility.py:475-490 | every mapping of the normal form is sorted by name |
| `Evidence.SameDataSameNormal` | durability/compatibility.py:458-497 | dictionaries that hold the same data, in whatever order, have one normal form |
| `Evidence.AllowedThroughout` | durability/compatibility.py:458-497 | nothing secret, over-long or foreign lies anywhere in an accepted tree |
| `Evidence.NormalIdempotent` | durability/compatibility.py:458-506 | normalising twice is normalising once |
| `Evidence.NormalKeepsVerdict` | durability/compatibility.py:458-506 | a tree and its normal form have the same number of nodes and the same verdict at every depth |
| `Evidence.NormalEvidenceStable` | durability/compatibility.py:458-506 | normalised evidence is accepted again, unchanged |
| `Compatibility.NormalizeDimensions` | durability/compatibility.py:543-581 | accepts exactly one allowed assessment for each dimension in order, with a reason of that dimension and outcome |
| `Compatibility.NormalizeActions` | durability/compatibility.py:584-617 | accepts exactly allowed actions numbered from 1 |
| `Compatibility.Aggregate` | durability/compatibility.py:650-659 | the outcome no dimension exceeds, and the first dimension that has it |
| `Compatibility.EvaluateCompatibility` | durability/compatibility.py:631-690 | answers exactly for allowed facts with a fitting plan, with the matrix's judgement |
| `Compatibility.JudgementUnique` | durability/compatibility.py:631-690 | the judgement of given facts is unique |
| `Compatibility.OutcomePrecedence` | durability/compatibility.py:650-659 | corruption outweighs what is unsupported, which outweighs an upgrade, which outweighs compatibility |
| `Compatibility.BlamesFirst` | durability/compatibility.py:650-690 | the first dimension with the worst outcome is blamed, with its own reason; a compatible decision blames none |
| `Compatibility.OnlyUpgradesArePlanned` | durability/compatibility.py:661-672 | only an upgrade has a plan, and only when the last dimension asks for one |
| `Compatibility.DecisionKeepsFacts` | durability/compatibility.py:631-690 | a decision reports the facts it was given: only the order of names within evidence changes |
| `Compatibility.ContextCovers` | durability/compatibility.py:235-378 | every dimension can be answered with every outcome, except that integrity never asks for an upgrade |
| `Compatibility.OperationReadsBack` | durability/compatibility.py:620-628 | every operation reads back from its own text, and from no other |
| `Compatibility.DecisionIsFixedPoint` | durability/migration.py:2939-2951 | re-evaluating a decision's own operation, artifact, dimensions and actions returns the decision |
| `Compatibility.DecisionMeaning` | durability/compatibility.py:661-690 | a decision has actions exactly when an upgrade is required, numbered from 1, and its reason belongs to the blocking dimension and outcome |
| `Compatibility.UpgradesOfV1` | durability/compatibility.py:661-690 | under the dimensions and reasons of matrix v1 an upgrade is decided only over an ordered path and with integrity authenticated, and integrity is never what asks for it; `OrderOfV1` says that the matrix is of this form |
| `Compatibility.CompatibleMeansAll` | durability/compatibility.py:650-680 | compatible means every dimension is, and only then nothing blocks |
| `Compatibility.RequireCompatible` | durability/migration.py:2932-2975 | returns the approved actions exactly for consistent, approved migration decisions |
| `Compatibility.GateAgreesWithEvaluator` | durability/migration.py:2932-2975 | a decision of the evaluator passes the gate exactly when it is a migration decision, compatible or upgradable, with its own actions approved |
| `Compatibility.ConsistentIsHonest` | durability/migration.py:2939-2951 | a decision that passes the re-evaluation cannot understate its dimensions, name another blocker or reason, or carry a false summary or plan |
| `Compatibility.SameActionsMeans` | durability/migration.py:2952-2975 | two plans agree exactly when they have the same steps in order, with the same data in each |
| `LocatorStore.ExclusiveStep` | durability/instance.py:420-461 | the process in the section is the one that holds the lock |
| `LocatorStore.RunsAreSound` | durability/instance.py:420-512 | in every interleaving, with failures and deaths at any step: exclusion, an exact log of effects, and attribution of each effect |
| `LocatorStore.PublishedAtMostOnce` | durability/instance.py:463-484 | initial publication takes effect at most once, and only where no locator was |
| `LocatorStore.PublishesAlone` | durability/instance.py:978-1004 | alone and without a locator there, a publisher leaves its locator under one name and the lock free, and returns exactly when its own bytes can be read back |
| `LocatorStore.PublishesNothing` | durability/instance.py:978-1004 | where there is a locator, a publisher alone changes nothing |
| `LocatorStore.ReplacesWhatItExpects` | durability/instance.py:486-512 | an effective replacement overwrites exactly the bytes its storage digest names, and the canonical form of the locator in them has the digest its caller expected |
| `LocatorStore.ReplacesAlone` | durability/instance.py:1007-1042 | alone, a replacer whose expected locator is there in whatever spelling puts its own in its place, and returns exactly when that can be read back |
| `LocatorStore.ReplacesNothing` | durability/instance.py:1007-1042 | with any other locator, or none that can be read, a replacer changes nothing |
| `LocatorStore.NoLostUpdate` | durability/instance.py:1007-1042 | of two effective replacements from one snapshot, the snapshot's content was written again before the second |
| `LocatorStore.ReadBackMeansEffective` | durability/instance.py:978-1042 | a call that returns or raises the mismatch took effect, and no call takes effect twice |
| `LocatorStore.MismatchExactly` | durability/instance.py:978-1042 | in every reachable world the read-back of a publisher or replacer raises the mismatch exactly when the last effect is a later one with another locator, that is when the file no longer holds the caller's, and otherwise returns |
| `LocatorStore.MismatchOnlyAtReadBack` | durability/instance.py:978-1042 | no other step of any process raises the mismatch |
| `LocatorStore.MismatchMeansWrittenOver` | durability/instance.py:978-1042 | after every run, whoever got the mismatch had written its locator, and a later effect wrote another over it |
| `LocatorStore.MismatchAfterEffect` | durability/instance.py:990-1004 | a publisher can raise the mismatch error after its write took effect |
| `LocatorStore.StrandedExactly` | durability/instance.py:463-484 | after every run the locator is stranded exactly when it was found with two links or some publisher was stopped between link and unlink without cleaning up |
| `LocatorStore.StrandedForever` | durability/instance.py:275-322 | a stranded locator is never published or replaced again |
| `FreshInstall.PrintOfParse` | installer/operations.py:243-338 | an accepted record prints as what it was parsed from |
| `FreshInstall.ParseOfPrint` | installer/operations.py:243-338 | a well-formed operation parses back to itself |
| `FreshInstall.ParseExactly` | installer/operations.py:243-338 | the parser accepts exactly the printed records of well-formed operations |
| `FreshInstall.CreateSettles` | installer/operations.py:364-418 | creation succeeds exactly on well-formed inputs and establishes what runs keep |
| `FreshInstall.ApplySettles` | installer/operations.py:421-591 | the re-parse never rejects or changes anything: a transition succeeds exactly when permitted and keeps the record settled |
| `FreshInstall.TransitionEffects` | installer/operations.py:421-591 | what each transition changes: status, phase, marks, completed steps, and one event with its own code; nothing else |
| `FreshInstall.FailDecides` | installer/operations.py:507-539 | a failing operation ends without mutation exactly when nothing was changed, rolled back exactly when it was reversible and the reported rollback succeeded, and otherwise in manual recovery |
| `FreshInstall.FailRecords` | installer/operations.py:526-539 | a failure records its phase, code, time and target state, and touches no mark |
| `FreshInstall.RolledBackMeans` | installer/operations.py:507-539 | a created operation is rolled back only when an executed failure reported a successful rollback of a reversible change |
| `FreshInstall.SuccessCompletesAll` | installer/operations.py:364-568 | after a success every phase before the last was completed, in order |
| `FreshInstall.RunGuarantees` | installer/operations.py:364-591 | after every run: completed steps are the phases before the current one, at most 16 events, irreversible implies mutated and past the migration, and never rolled back |
| `FreshInstall.RunContinues` | installer/operations.py:421-591 | a run only adds history; terminal states are absorbing except manual recovery to reconciled; no mark is withdrawn |
| `FreshInstall.IrreversibleNeverRollsBack` | installer/operations.py:479-539 | once irreversible, no run ends rolled back |
| `FreshInstall.CompleteWhileRunningNeverSucceeds` | installer/operations.py:542-568 | an operation running in the last phase never succeeds |
| `FreshInstall.CompleteWhileRunningReached` | installer/operations.py:421-452 | some run of every created operation reaches the last phase while running |
| `FreshInstall.SuccessReachable` | installer/operations.py:421-591 | some run ends in success exactly from operations that have succeeded, or run and have not entered the last phase |
| `FreshInstall.TextRulesLawful` | installer/operations.py:33-60 | the phase and status texts read back |
| `OperationJournals.FreshInstallJournal.Persist` | installer/operations.py:624-637 | succeeds exactly when the store works and holds the record the caller last saw, and then replaces it |
| `OperationJournals.FreshInstallJournal.Create` | installer/operations.py:608-614 | succeeds exactly when the store works and has no record of the operation |
| `OperationJournals.RestoreOperationJournal.RecoverIncomplete` | installer/operations.py:720-737 | a pass recovers record by record in order, and stops only at one that cannot be read or rewritten |
| `OperationJournals.FullPass` | installer/operations.py:720-737 | a complete pass turns exactly the running records into recovery records and reports them |
| `OperationJournals.PassLeavesNoneRunning` | installer/operations.py:720-737 | a complete pass turns an interrupted run into one that needs recovery by hand, with its steps kept, and leaves every other record as it is |
| `OperationJournals.SecondPass` | installer/operations.py:720-737 | a second pass changes no record and reports none |
| `MigrationConsume.Consume` | durability/migration.py:730-901 | every run, under any failures of the preliminaries and of the ports, has one of the listed traces and the matching outcome |
| `MigrationConsume.PreliminariesFirst` | durability/migration.py:730-805 | nothing but the preliminaries, the inspection of the target among them, is attempted before all of them have returned |
| `MigrationConsume.PreliminariesInPlace` | durability/migration.py:730-805 | the first calls of every run are the preliminaries, each in its place, up to one that fails |
| `MigrationConsume.PlanScheduled` | durability/migration.py:806-862 | the stages amount, position by position, to begin, database, every plugin package, every local media member, configuration, private and updater state, the upgrade if any, validation and publication |
| `MigrationConsume.StagedInOrder` | durability/migration.py:806-901 | in every run, successful or not, each call on the target but the rollback and the recovery record stands at its scheduled place |
| `MigrationConsume.ConsumedMeans` | durability/migration.py:754-862 | when a bundle is consumed, all of its packages, media and states and its upgrade were staged before the validation said yes, nothing else was, and only the publication follows |
| `MigrationConsume.PublicationIsLast` | durability/migration.py:848-862 | before publication is attempted everything of the bundle has been staged and the validation has said yes |
| `MigrationConsume.RollbackOnlyBeforeDatabase` | durability/migration.py:863-882 | rollback is attempted only when begin failed, and never after database staging was attempted |
| `MigrationConsume.FailureLeavesOneTrace` | durability/migration.py:863-901 | a failing run ends with one successful rollback and no record, or exactly one recovery record attempt |
| `MigrationConsume.AllDoneConsumes` | durability/migration.py:806-862 | a run all of whose calls go through consumes the bundle |
| `MigrationConsume.WholeRunConsumes` | durability/migration.py:754-862 | the same from the first preliminary on |
| `MigrationConsume.EvidenceIsExact` | durability/migration.py:806-901 | the evidence lists exactly the stages all of whose calls returned, and the stage that failed |
| `MigrationConsume.EvidenceNamesCalls` | durability/migration.py:863-901 | the failed step is the stage of the call that did not go through, the completed steps are in order the other stages of which a call was made, and the code tells a validation that said no from a call that raised |
| `ProductionBackup.Barrier` | durability/backup_production.py:1007-1050 | what ran behind the barrier, what became of the key, and that an entered projection is left |
| `ProductionBackup.Resume` | durability/backup_production.py:1051-1072 | the exit is decided by the writers, the backup and the discard; an unbound key is discarded exactly when the run holds one |
| `ProductionBackup.Finish` | durability/backup_production.py:1085-1088 | a key that was not discarded is closed, and the lock is released exactly when that does not raise |
| `ProductionBackup.Execute` | durability/backup_production.py:965-1088 | every run follows one trail of calls; its exit, key, binding, discard and lock are exactly what its log says of the calls and the observed writers; a receipt means created, verified and authenticated before the writers resumed; the writers are touched only after their states were captured |
| `ProductionBackup.SpineSpelled` | durability/backup_production.py:965-1050 | the calls of a run in order: planned before and under the lock, captured before stopped, checked and projected before created, verified and authenticated |
| `ProductionBackup.CallsInOrder` | durability/backup_production.py:965-1088 | every run makes these calls one after the other up to one that raises, and then only closes: the projection is left exactly when it was entered, and the writers are brought back exactly when their stop was attempted |
| `ProductionBackup.KeyAccounts` | durability/backup_production.py:1017-1088 | the key is held exactly when one was asked for and prepared, bound exactly when the backup was created, discarded exactly when held and unbound; the lock is released exactly when it was taken and closing the key did not raise |
| `ProductionBackup.WritersKeptExactly` | durability/backup_production.py:1051-1072 | the writers are back as captured and healthy exactly after the exits that promise it, and the one further exit is a discard that raised |
| `ProductionBackup.WithoutOneTimeKey` | durability/backup_production.py:1051-1088 | without a one-time key every captured exit but RECOVERY_REQUIRED keeps the writers, and the lock comes back whenever it was taken |
| `ProductionBackup.AllReturnedGivesReceipt` | durability/backup_production.py:965-1088 | a run in which nothing raises and the writers come back as captured hands out a receipt |
| `ProductionBackup.DiscardHidesRecovery` | durability/backup_production.py:1051-1072 | a run whose caller sees the error of the discard while the writers stay stopped |
| `RestoreRun.ExecuteRestore` | durability/restore.py:680-838 | the steps are taken exactly when the plan was accepted, a fresh plan has its digest, the release and the lock were acquired and the destination under the lock is the planned one; every other run mutates nothing; when the steps are taken and every call returns, the restore is published |
| `RestoreRun.EntersExactly` | durability/restore.py:680-745 | what a run that takes its steps rests on: the unchanged accepted plan, compatible or with its upgrade accepted, a fresh plan with its digest, the planned destination, and an opening that returns |
| `RestoreRun.MutationsUnderLock` | durability/restore.py:728-800 | every mutation lies between entering and leaving the lock |
| `RestoreRun.StepsInOrder` | durability/restore.py:730-800 | a step is attempted only after every earlier step of the plan has returned: the database is prepared before it is restored |
| `RestoreRun.ValidatedJustBefore` | durability/restore.py:786-800 | directly before the publication is attempted the validation has returned |
| `RestoreRun.EvidenceIsPrefix` | durability/restore.py:801-829 | completed steps and the failed step are a prefix of the steps this plan takes; the target's state is unknown exactly when publication failed |
| `RestoreRun.AnnouncedExactly` | durability/restore.py:109-125 | what is reported is a prefix of the announced steps exactly when the run failed before the ninth place |
| `RestoreRun.NinthStepFails` | durability/restore.py:770-829 | a run that fails at the ninth place and reports no prefix of the announced steps |
| `RestoreRun.StepsOfPlan` | durability/restore.py:770-773 | of the steps this plan takes, the upgrade is one exactly when it has actions, the acquisition is the first and publication the last |

## Left out

- Host effects: descriptors, modes, owners, fsync, Docker, pg_dump, psql, systemd and apt calls appear only as ports that may fail.
- Library internals: JSON text, zlib, Argon2, AES, Unicode tables, regular expressions on single strings, the secret-pattern heuristics, `urlsplit` and `PurePosixPath` beyond the checks shown are parameters; the laws assumed of them are the named predicates (`KeepsSeparator`, `KeepsComponents`, `PrefixFree`, `TextLaws`, `SealLaws`, `KeyLaw`, `SettlesR2`, `Lawful`).
- The expansion ratio of a ZIP member is compared exactly; the source divides in floating point.
- Run-time type checks of typed records (decisions, assessments, packages, journal records, manifests) have no counterpart; unknown and missing fields of JSON objects are ruled out by the types.
- Error codes: where several checks raise one family of codes the model may return a single code; acceptance and state are exact.
- RequireCompatible: host equality lets `True` equal `1` and distinguishes lists from tuples; evidence here is compared by its normal form.
- Consume: the stages are a list walked in order where the source writes them one after the other; an error raised by the target with the source's own validation code is not distinguished from other errors.
- Execute: the refusal of a plan whose digest was not accepted, before the first call, is not modelled; failures are ordinary exceptions; interrupts, and a failing release of the update lock, are not modelled, and nothing but the host's own calls changes the writers.
- RunsAreSound: a secure read is one step, since a locator's bytes never change under one inode; owner, mode and size checks are part of the failures a step may have.
- Produce: the database dump, the source checks, the secret envelope and the manifest file are given contents or left out; `_cross_check_database_references` compares identifiers only.
- `durability/backup.py` `_build_manifest` and tree enumeration, `_configuration_json` and its verifier, `authorize_activation`, `_cross_check_database_references`, `LocalFilesystemStager.stage` and the recovery blocks of the journals would repeat patterns already proved or add field checks.
- `durability/managed_config.py`, `ownership.py`, `platform.py`, `doctor.py`, the release and updater packages, command lines and entry scripts: closed-field validation and finite tables.
- Timestamps: the source checks their format, never their order, and neither does the model.
