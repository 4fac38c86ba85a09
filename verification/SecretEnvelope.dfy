/**
  Creating and opening a secret envelope.

  Cryptography and JSON text are parameters with ideal laws: what was sealed unseals to the same
  plaintext under the same key, nonce and associated data, and under nothing else; what was written
  as JSON reads back as the same value.  The closed field sets of the envelope, its header and its
  payload are the shapes of the datatypes below; a text of any other shape does not parse.
 */
module SecretEnvelope {
  import opened Wrappers
  import opened BindingWalk
  import opened Digests
  import opened Octets
  import Base64Url

  const ENVELOPE_FORMAT := "animemo.migration-secret-envelope"
  const ENVELOPE_IDENTITY := "animemo.migration-secret-envelope/v1"
  const SUITE_ID := "argon2id-m65536-t3-p4-aes-256-gcm-v1"
  const SALT_BYTES := 16
  const KEY_BYTES := 32
  const NONCE_BYTES := 12
  const TAG_BYTES := 16
  const MAX_ENVELOPE_BYTES := 4 * 1024 * 1024
  const MAX_BINDING_RECORD_BYTES := 2 * 1024 * 1024
  const MAX_SECRET_BYTES := 1024 * 1024
  const MAX_TOTAL_SECRET_BYTES := 2 * 1024 * 1024
  const MAX_SECRET_ENTRIES := 32

  datatype Classification = PreserveOnly | PreserveOrReconfigure
  datatype Handling = Preserve | Reconfigure

  const CREDENTIAL_KEY := "CREDENTIAL_ENCRYPTION_KEY"

  function Policy(name: string): Option<Classification> {
    if name in {CREDENTIAL_KEY, "POSTGRES_PASSWORD", "REDIS_URL"} then Some(PreserveOnly)
    else if name in {"DJANGO_SECRET_KEY", "BANGUMI_OAUTH_CLIENT_SECRET", "RESEND_API_KEY", "TURNSTILE_SECRET"} then
      Some(PreserveOrReconfigure)
    else None
  }

  datatype SecretEntry = SecretEntry(
    name: string, classification: Classification, handling: Handling, material: Bytes)

  datatype ExternalSecret = Passphrase(material: Bytes) | OneTimeKey(material: Bytes)

  datatype ArtifactType = Backup | MigrationBundle

  // ----- Envelope, header and payload

  datatype Binding = Binding(digest: string, artifactId: string, artifactType: ArtifactType)

  datatype Aead = Aead(
    algorithm: string, keyBytes: int, nonce: string, nonceBytes: int, nonceEncoding: string, tagBytes: int)

  datatype Kdf =
    | NoKdf
    | Argon(algorithm: string, iterations: int, memoryKiB: int, outputBytes: int, parallelism: int,
            salt: string, saltEncoding: string)

  datatype Header = Header(
    aead: Aead, binding: Binding, ciphertextEncoding: string, format: string, kdf: Kdf,
    mode: string, schemaVersion: int, suiteId: string)

  datatype Envelope = Envelope(header: Header, ciphertext: string)

  datatype RawEntry = RawEntry(
    name: string, classification: Classification, handling: Handling, value: Option<RawValue>)

  datatype RawValue = RawValue(text: string, encoding: string)

  datatype Payload = Payload(
    binding: Binding, required: bool, schemaVersion: int, entries: seq<RawEntry>, sourceInstanceId: string)

  datatype Opened = Opened(binding: Binding, sourceInstanceId: string, required: bool, entries: seq<SecretEntry>)

  // ----- The ideal library

  datatype Library = Library(
    envelopeBytes: Envelope -> Bytes,
    parseEnvelope: Bytes -> Option<Envelope>,
    payloadBytes: Payload -> Bytes,
    parsePayload: Bytes -> Option<Payload>,
    aadBytes: Header -> Bytes,
    recordBytes: Json -> Bytes,
    sha256: Bytes -> string,
    deriveKey: (Bytes, Bytes) -> Bytes,
    seal: (Bytes, Bytes, Bytes, Bytes) -> Bytes,
    unseal: (Bytes, Bytes, Bytes, Bytes) -> Option<Bytes>)

  /** JSON text reads back, and writes its strings out in full. */
  ghost predicate TextLaws(lib: Library) {
    && (forall e :: lib.parseEnvelope(lib.envelopeBytes(e)) == Some(e))
    && (forall e :: |lib.envelopeBytes(e)| >= |e.ciphertext| && lib.envelopeBytes(e) != [])
    && (forall p :: lib.parsePayload(lib.payloadBytes(p)) == Some(p))
    && (forall h, h' :: lib.aadBytes(h) == lib.aadBytes(h') ==> h == h')
    && (forall j :: IsDigest(lib.sha256(lib.recordBytes(j))))
  }

  /** Sealing is undone by unsealing with the same inputs, and by no others. */
  ghost predicate SealLaws(lib: Library) {
    && (forall k, n, p, a :: lib.unseal(k, n, lib.seal(k, n, p, a), a) == Some(p))
    && (forall k, n, p, a :: |lib.seal(k, n, p, a)| >= TAG_BYTES)
    && (forall k, n, p, a, k', n', a' :: lib.unseal(k', n', lib.seal(k, n, p, a), a').Some?
         ==> k' == k && n' == n && a' == a)
  }

  /** Under one salt, two passphrases never give the same key. */
  ghost predicate KeyLaw(lib: Library) {
    forall a, b, salt :: lib.deriveKey(a, salt) == lib.deriveKey(b, salt) ==> a == b
  }

  predicate IsCanonicalUuid(s: string) {
    |s| == 36 && forall i :: 0 <= i < 36 ==> if i in {8, 13, 18, 23} then s[i] == '-' else IsHex(s[i])
  }

  function Mode(secret: ExternalSecret): string {
    if secret.Passphrase? then "passphrase" else "one-time-key"
  }

  // ----- The binding record

  function Field(j: Json, name: string): (r: Option<Json>)
    ensures r.Some? ==> j.Obj? && r.value in j.values
  {
    if j.Obj? && |j.names| == |j.values| then FieldAt(j.names, j.values, name) else None
  }

  function FieldAt(names: seq<string>, values: seq<Json>, name: string): (r: Option<Json>)
    requires |names| == |values|
    ensures r.Some? ==> r.value in values
  {
    if names == [] then None
    else if names[0] == name then Some(values[0])
    else FieldAt(names[1..], values[1..], name)
  }

  /** dict.get(name, default) */
  function FieldOr(j: Json, name: string, otherwise: Option<Json>): Option<Json> {
    if Field(j, name).Some? then Field(j, name) else otherwise
  }

  predicate Absent(v: Option<Json>) {
    v.None? || v.value.Null?
  }

  function RecordSource(record: Json): Option<Json> {
    var direct := FieldOr(record, "sourceInstanceId", Field(record, "instanceId"));
    if Absent(direct) && Field(record, "source").Some? && Field(record, "source").value.Obj? then
      Field(Field(record, "source").value, "instanceId")
    else direct
  }

  function RecordProfile(record: Json): Option<Json> {
    var direct := Field(record, "secretProfileIdentity");
    if Absent(direct) && Field(record, "secretDisposition").Some? && Field(record, "secretDisposition").value.Obj? then
      Field(Field(record, "secretDisposition").value, "profileIdentity")
    else direct
  }

  predicate RecordIdentifies(record: Json, artifactType: ArtifactType, artifactId: string, sourceInstanceId: string) {
    && Field(record, "format") == Some(Str(
         if artifactType.Backup? then "animemo-instance-backup" else "animemo-migration-bundle"))
    && Field(record, if artifactType.Backup? then "schemaVersion" else "formatVersion") == Some(Int(1))
    && Field(record, if artifactType.Backup? then "backupId" else "bundleId") == Some(Str(artifactId))
    && RecordSource(record) == Some(Str(sourceInstanceId))
    && RecordProfile(record) == Some(Str(ENVELOPE_IDENTITY))
  }

  /** The digest that ties an envelope to its artifact; the bounded walk decides the last line. */
  function BindingDigest(
    lib: Library, record: Json, artifactType: ArtifactType, artifactId: string, sourceInstanceId: string)
    : Result<string, string>
  {
    if !IsCanonicalUuid(artifactId) || !IsCanonicalUuid(sourceInstanceId) || !record.Obj? then
      Err("ARTIFACT_BINDING_INVALID")
    else
      var encoded := lib.recordBytes(record);
      if encoded == [] || |encoded| > MAX_BINDING_RECORD_BYTES then Err("ARTIFACT_BINDING_INVALID")
      else if !RecordIdentifies(record, artifactType, artifactId, sourceInstanceId) then Err("ARTIFACT_BINDING_INVALID")
      else if Nodes(record) > MAX_NODES || !Clean(record) then Err("ARTIFACT_BINDING_INVALID")
      else Ok(lib.sha256(encoded))
  }

  // ----- Entries

  predicate HandlingAllowed(c: Classification, h: Handling) {
    c.PreserveOrReconfigure? || h.Preserve?
  }

  predicate EntryAllowed(e: SecretEntry) {
    && Policy(e.name) == Some(e.classification)
    && HandlingAllowed(e.classification, e.handling)
    && (e.handling.Preserve? ==> 0 < |e.material| <= MAX_SECRET_BYTES)
    && (e.handling.Reconfigure? ==> e.material == [])
  }

  function PreservedBytes(entries: seq<SecretEntry>): nat {
    if entries == [] then 0
    else
      var last := entries[|entries| - 1];
      PreservedBytes(entries[..|entries| - 1]) + if last.handling.Preserve? then |last.material| else 0
  }

  ghost predicate NamesDistinct(entries: seq<SecretEntry>) {
    forall i, j :: 0 <= i < j < |entries| ==> entries[i].name != entries[j].name
  }

  predicate HasName(entries: seq<SecretEntry>, name: string) {
    exists i :: 0 <= i < |entries| && entries[i].name == name
  }

  ghost function Names(entries: seq<SecretEntry>): set<string> {
    set i | 0 <= i < |entries| :: entries[i].name
  }

  ghost predicate EachAllowed(entries: seq<SecretEntry>) {
    forall i :: 0 <= i < |entries| ==> EntryAllowed(entries[i])
  }

  ghost predicate AllowedTogether(entries: seq<SecretEntry>) {
    && EachAllowed(entries)
    && NamesDistinct(entries)
    && PreservedBytes(entries) <= MAX_TOTAL_SECRET_BYTES
  }

  ghost predicate EntriesAllowed(entries: seq<SecretEntry>, required: bool) {
    && |entries| <= MAX_SECRET_ENTRIES
    && AllowedTogether(entries)
    && (required ==> HasName(entries, CREDENTIAL_KEY))
  }

  function MaterialSize(e: SecretEntry): nat {
    if e.handling.Preserve? then |e.material| else 0
  }

  lemma OneMoreEntry(entries: seq<SecretEntry>, e: SecretEntry)
    ensures Names(entries + [e]) == Names(entries) + {e.name}
    ensures PreservedBytes(entries + [e]) == PreservedBytes(entries) + MaterialSize(e)
    ensures AllowedTogether(entries + [e]) ==> AllowedTogether(entries)
    ensures AllowedTogether(entries) ==> (AllowedTogether(entries + [e]) <==>
      EntryAllowed(e) && e.name !in Names(entries) && PreservedBytes(entries) + MaterialSize(e) <= MAX_TOTAL_SECRET_BYTES)
  {
    var more := entries + [e];
    assert more[..|more| - 1] == entries && more[|entries|] == e;
    assert forall i :: 0 <= i < |entries| ==> more[i] == entries[i];
    if e.name in Names(entries) {
      var i :| 0 <= i < |entries| && entries[i].name == e.name;
      assert more[i].name == more[|entries|].name;
    }
  }

  lemma {:induction false} AllowedPrefix(entries: seq<SecretEntry>, n: nat)
    requires n <= |entries| && AllowedTogether(entries)
    ensures AllowedTogether(entries[..n])
    decreases |entries| - n
  {
    if n == |entries| {
      assert entries[..n] == entries;
    } else {
      AllowedPrefix(entries, n + 1);
      assert entries[..n + 1] == entries[..n] + [entries[n]];
      OneMoreEntry(entries[..n], entries[n]);
    }
  }

  /** What the producer's loop knows of the entries it has passed. */
  ghost predicate Counted(passed: seq<SecretEntry>, seen: set<string>, total: nat) {
    AllowedTogether(passed) && seen == Names(passed) && total == PreservedBytes(passed)
  }

  /** One entry, checked against the names and the total so far. */
  method CheckEntry(ghost passed: seq<SecretEntry>, entry: SecretEntry, seen: set<string>, before: nat)
    returns (fits: bool, total: nat)
    requires Counted(passed, seen, before)
    ensures fits <==> AllowedTogether(passed + [entry])
    ensures fits ==> Counted(passed + [entry], seen + {entry.name}, total)
  {
    OneMoreEntry(passed, entry);
    total := before;
    fits := EntryAllowed(entry) && entry.name !in seen;
    if fits && entry.handling.Preserve? {
      total := total + |entry.material|;
      fits := total <= MAX_TOTAL_SECRET_BYTES;
    }
  }

  /** The producer's loop over the entries accepts exactly the allowed lists. */
  method ValidateEntries(entries: seq<SecretEntry>, required: bool) returns (ok: bool)
    ensures ok <==> EntriesAllowed(entries, required)
  {
    if |entries| > MAX_SECRET_ENTRIES {
      return false;
    }
    var seen: set<string> := {};
    var total := 0;
    var n := 0;
    assert entries[..0] == [];
    while n < |entries|
      invariant 0 <= n <= |entries|
      invariant Counted(entries[..n], seen, total)
    {
      assert entries[..n + 1] == entries[..n] + [entries[n]];
      var fits;
      fits, total := CheckEntry(entries[..n], entries[n], seen, total);
      if !fits {
        if AllowedTogether(entries) { AllowedPrefix(entries, n + 1); }
        return false;
      }
      seen := seen + {entries[n].name};
      n := n + 1;
    }
    assert entries[..|entries|] == entries;
    NamedIffPresent(entries, CREDENTIAL_KEY);
    return !required || CREDENTIAL_KEY in seen;
  }

  lemma NamedIffPresent(entries: seq<SecretEntry>, name: string)
    ensures HasName(entries, name) <==> name in Names(entries)
  {
  }

  /** The external secret must not be stored inside its own envelope. */
  predicate ReusesCredentialKey(secret: ExternalSecret, entries: seq<SecretEntry>) {
    exists i :: 0 <= i < |entries| && entries[i].name == CREDENTIAL_KEY && entries[i].material == secret.material
  }

  // ----- Producer

  function BuildHeader(secret: ExternalSecret, binding: Binding, salt: Bytes, nonce: Bytes): Header {
    Header(
      Aead("AES-256-GCM", KEY_BYTES, Base64Url.Encode(nonce), NONCE_BYTES, "base64url", TAG_BYTES),
      binding, "base64url", ENVELOPE_FORMAT,
      if secret.Passphrase? then Argon("Argon2id", 3, 65536, KEY_BYTES, 4, Base64Url.Encode(salt), "base64url")
      else NoKdf,
      Mode(secret), 1, SUITE_ID)
  }

  function RawOf(e: SecretEntry): RawEntry {
    RawEntry(e.name, e.classification, e.handling,
             if e.handling.Preserve? then Some(RawValue(Base64Url.Encode(e.material), "base64url")) else None)
  }

  function RawsOf(entries: seq<SecretEntry>): (r: seq<RawEntry>)
    ensures |r| == |entries|
    ensures forall i :: 0 <= i < |r| ==> r[i] == RawOf(entries[i])
  {
    seq(|entries|, i requires 0 <= i < |entries| => RawOf(entries[i]))
  }

  function DeriveKey(lib: Library, secret: ExternalSecret, salt: Bytes): Bytes {
    if secret.OneTimeKey? then secret.material else lib.deriveKey(secret.material, salt)
  }

  ghost function Create(
    lib: Library, secret: ExternalSecret, artifactType: ArtifactType, artifactId: string, record: Json,
    sourceInstanceId: string, entries: seq<SecretEntry>, required: bool, salt: Bytes, nonce: Bytes)
    : Result<Bytes, string>
  {
    if !IsCanonicalUuid(artifactId) || !IsCanonicalUuid(sourceInstanceId) then Err("ARTIFACT_IDENTITY_INVALID")
    else
      var digest := BindingDigest(lib, record, artifactType, artifactId, sourceInstanceId);
      if digest.Err? then Err(digest.error)
      else if !EntriesAllowed(entries, required) then Err("SECRET_ENTRY_INVALID")
      else if ReusesCredentialKey(secret, entries) then Err("EXTERNAL_SECRET_REUSE_FORBIDDEN")
      else
        var binding := Binding(digest.value, artifactId, artifactType);
        var header := BuildHeader(secret, binding, salt, nonce);
        var plaintext := lib.payloadBytes(Payload(binding, required, 1, RawsOf(entries), sourceInstanceId));
        var key := DeriveKey(lib, secret, salt);
        var ciphertext := lib.seal(key, nonce, plaintext, lib.aadBytes(header));
        if lib.unseal(key, nonce, ciphertext, lib.aadBytes(header)) != Some(plaintext) then
          Err("ENVELOPE_SELF_VERIFICATION_FAILED")
        else
          var encoded := lib.envelopeBytes(Envelope(header, Base64Url.Encode(ciphertext)));
          if |encoded| > MAX_ENVELOPE_BYTES then Err("SECRET_PROFILE_INVALID") else Ok(encoded)
  }

  // ----- Consumer

  function CheckOuter(root: Envelope): Result<(), string> {
    var h := root.header;
    if h.format != ENVELOPE_FORMAT then
      Err(if h.format != "" then "ENVELOPE_VERSION_UNSUPPORTED" else "ENVELOPE_STRUCTURE_CORRUPT")
    else if h.schemaVersion != 1 then
      Err(if h.schemaVersion > 0 then "ENVELOPE_VERSION_UNSUPPORTED" else "ENVELOPE_STRUCTURE_CORRUPT")
    else if h.suiteId != SUITE_ID then
      Err(if h.suiteId != "" then "ENVELOPE_SUITE_UNSUPPORTED" else "ENVELOPE_STRUCTURE_CORRUPT")
    else if h.mode != "passphrase" && h.mode != "one-time-key" then Err("ENVELOPE_STRUCTURE_CORRUPT")
    else if h.ciphertextEncoding != "base64url" then Err("ENVELOPE_AUTHENTICATION_FAILED")
    else if !IsCanonicalUuid(h.binding.artifactId) || !IsDigest(h.binding.digest) then
      Err("ENVELOPE_STRUCTURE_CORRUPT")
    else Ok(())
  }

  function DecodeExactly(text: string, length: nat): Option<Bytes> {
    var decoded := Base64Url.Decode(text, length);
    if decoded.Some? && |decoded.value| == length then decoded else None
  }

  /** Salt (empty without a KDF) and nonce, when every pinned parameter is as the suite says. */
  function CryptoMetadata(h: Header): Option<(Bytes, Bytes)> {
    var nonce := DecodeExactly(h.aead.nonce, NONCE_BYTES);
    if h.aead != Aead("AES-256-GCM", KEY_BYTES, h.aead.nonce, NONCE_BYTES, "base64url", TAG_BYTES) || nonce.None? then None
    else if h.mode == "one-time-key" then
      if h.kdf.NoKdf? then Some(([], nonce.value)) else None
    else if h.kdf.NoKdf? || h.kdf != Argon("Argon2id", 3, 65536, KEY_BYTES, 4, h.kdf.salt, "base64url") then None
    else
      var salt := DecodeExactly(h.kdf.salt, SALT_BYTES);
      if salt.None? then None else Some((salt.value, nonce.value))
  }

  function OpenEntry(raw: RawEntry): Option<SecretEntry> {
    if Policy(raw.name) != Some(raw.classification) || !HandlingAllowed(raw.classification, raw.handling) then None
    else if raw.handling.Preserve? then
      if raw.value.None? || raw.value.value.encoding != "base64url" then None
      else
        var material := Base64Url.Decode(raw.value.value.text, MAX_SECRET_BYTES);
        if material.None? || material.value == [] then None
        else Some(SecretEntry(raw.name, raw.classification, Preserve, material.value))
    else if raw.value.Some? then None
    else Some(SecretEntry(raw.name, raw.classification, Reconfigure, []))
  }

  function OpenEntries(raws: seq<RawEntry>): (r: Option<seq<SecretEntry>>)
    ensures r.Some? ==> |r.value| == |raws|
    ensures r.Some? ==> forall i :: 0 <= i < |raws| ==> OpenEntry(raws[i]) == Some(r.value[i])
    ensures r.Some? ==> NamesDistinct(r.value)
  {
    if raws == [] then Some([])
    else
      var init := OpenEntries(raws[..|raws| - 1]);
      var last := OpenEntry(raws[|raws| - 1]);
      if init.None? || last.None? || HasName(init.value, last.value.name) then None
      else Some(init.value + [last.value])
  }

  function ValidateInner(p: Payload, header: Header): Result<Opened, string> {
    if p.schemaVersion != 1 then
      Err(if p.schemaVersion > 0 then "ENVELOPE_VERSION_UNSUPPORTED" else "ENVELOPE_STRUCTURE_CORRUPT")
    else if !IsCanonicalUuid(p.sourceInstanceId) || |p.entries| > MAX_SECRET_ENTRIES || p.binding != header.binding then
      Err("ENVELOPE_STRUCTURE_CORRUPT")
    else
      var entries := OpenEntries(p.entries);
      if entries.None? || (p.required && !HasName(entries.value, CREDENTIAL_KEY)) then Err("ENVELOPE_STRUCTURE_CORRUPT")
      else Ok(Opened(header.binding, p.sourceInstanceId, p.required, entries.value))
  }

  function Open(
    lib: Library, encoded: Bytes, secret: ExternalSecret, artifactType: ArtifactType, artifactId: string,
    record: Json, sourceInstanceId: string)
    : Result<Opened, string>
  {
    if encoded == [] || |encoded| > MAX_ENVELOPE_BYTES || lib.parseEnvelope(encoded).None? then
      Err("ENVELOPE_STRUCTURE_CORRUPT")
    else
      var root := lib.parseEnvelope(encoded).value;
      var outer := CheckOuter(root);
      var digest := BindingDigest(lib, record, artifactType, artifactId, sourceInstanceId);
      if outer.Err? then Err(outer.error)
      else if digest.Err? then Err(digest.error)
      else if root.header.mode != Mode(secret) || root.header.binding != Binding(digest.value, artifactId, artifactType) then
        Err("ENVELOPE_AUTHENTICATION_FAILED")
      else
        var metadata := CryptoMetadata(root.header);
        var ciphertext := Base64Url.Decode(root.ciphertext, MAX_ENVELOPE_BYTES);
        if metadata.None? || ciphertext.None? || |ciphertext.value| < TAG_BYTES then
          Err("ENVELOPE_AUTHENTICATION_FAILED")
        else
          var key := DeriveKey(lib, secret, metadata.value.0);
          var plaintext := lib.unseal(key, metadata.value.1, ciphertext.value, lib.aadBytes(root.header));
          if plaintext.None? then Err("ENVELOPE_AUTHENTICATION_FAILED")
          else if lib.parsePayload(plaintext.value).None? then Err("ENVELOPE_STRUCTURE_CORRUPT")
          else
            var inner := ValidateInner(lib.parsePayload(plaintext.value).value, root.header);
            if inner.Err? then inner
            else if inner.value.sourceInstanceId != sourceInstanceId then Err("ENVELOPE_AUTHENTICATION_FAILED")
            else if ReusesCredentialKey(secret, inner.value.entries) then Err("ENVELOPE_STRUCTURE_CORRUPT")
            else inner
  }

  // ----- Opening what was created

  lemma OpenRawOf(e: SecretEntry)
    requires EntryAllowed(e)
    ensures OpenEntry(RawOf(e)) == Some(e)
  {
    if e.handling.Preserve? { Base64Url.DecodeOfEncode(e.material, MAX_SECRET_BYTES); }
  }

  lemma OpenOneMore(entries: seq<SecretEntry>, e: SecretEntry)
    requires OpenEntries(RawsOf(entries)) == Some(entries)
    requires OpenEntry(RawOf(e)) == Some(e) && !HasName(entries, e.name)
    ensures OpenEntries(RawsOf(entries + [e])) == Some(entries + [e])
  {
    assert RawsOf(entries + [e])[..|entries|] == RawsOf(entries);
  }

  lemma LastIsNew(entries: seq<SecretEntry>)
    requires entries != [] && NamesDistinct(entries) && EachAllowed(entries)
    ensures entries == entries[..|entries| - 1] + [entries[|entries| - 1]]
    ensures EachAllowed(entries[..|entries| - 1]) && EntryAllowed(entries[|entries| - 1])
    ensures NamesDistinct(entries[..|entries| - 1])
    ensures !HasName(entries[..|entries| - 1], entries[|entries| - 1].name)
  {
  }

  lemma {:induction false} OpenRawsOf(entries: seq<SecretEntry>)
    requires EachAllowed(entries) && NamesDistinct(entries)
    ensures OpenEntries(RawsOf(entries)) == Some(entries)
    decreases |entries|
  {
    if entries != [] {
      var init, last := entries[..|entries| - 1], entries[|entries| - 1];
      LastIsNew(entries);
      OpenRawsOf(init);
      OpenRawOf(last);
      OpenOneMore(init, last);
    }
  }

  lemma MetadataOfHeader(secret: ExternalSecret, binding: Binding, salt: Bytes, nonce: Bytes)
    requires |nonce| == NONCE_BYTES && (secret.Passphrase? ==> |salt| == SALT_BYTES)
    ensures CryptoMetadata(BuildHeader(secret, binding, salt, nonce))
      == Some((if secret.Passphrase? then salt else [], nonce))
  {
    Base64Url.DecodeOfEncode(nonce, NONCE_BYTES);
    if secret.Passphrase? { Base64Url.DecodeOfEncode(salt, SALT_BYTES); }
  }

  lemma CiphertextDecodes(ciphertext: Bytes)
    requires |Base64Url.Encode(ciphertext)| <= MAX_ENVELOPE_BYTES
    ensures Base64Url.Decode(Base64Url.Encode(ciphertext), MAX_ENVELOPE_BYTES) == Some(ciphertext)
  {
    Base64Url.EncodingIsLonger(ciphertext);
    Base64Url.DecodeOfEncode(ciphertext, MAX_ENVELOPE_BYTES);
  }

  lemma OuterOfHeader(secret: ExternalSecret, binding: Binding, salt: Bytes, nonce: Bytes, ciphertext: string)
    requires IsCanonicalUuid(binding.artifactId) && IsDigest(binding.digest)
    ensures CheckOuter(Envelope(BuildHeader(secret, binding, salt, nonce), ciphertext)) == Ok(())
  {
  }

  lemma InnerOfPayload(header: Header, required: bool, entries: seq<SecretEntry>, sourceInstanceId: string)
    requires IsCanonicalUuid(sourceInstanceId) && EntriesAllowed(entries, required)
    ensures ValidateInner(Payload(header.binding, required, 1, RawsOf(entries), sourceInstanceId), header)
      == Ok(Opened(header.binding, sourceInstanceId, required, entries))
  {
    OpenRawsOf(entries);
  }

  /** When every stage of an open passes. */
  lemma OpenPasses(
    lib: Library, encoded: Bytes, secret: ExternalSecret, record: Json, binding: Binding, sourceInstanceId: string,
    root: Envelope, salt: Bytes, nonce: Bytes, ciphertext: Bytes, plaintext: Bytes, payload: Payload, result: Opened)
    requires encoded != [] && |encoded| <= MAX_ENVELOPE_BYTES && lib.parseEnvelope(encoded) == Some(root)
    requires CheckOuter(root) == Ok(()) && root.header.mode == Mode(secret) && root.header.binding == binding
    requires BindingDigest(lib, record, binding.artifactType, binding.artifactId, sourceInstanceId) == Ok(binding.digest)
    requires CryptoMetadata(root.header) == Some((salt, nonce))
    requires Base64Url.Decode(root.ciphertext, MAX_ENVELOPE_BYTES) == Some(ciphertext) && |ciphertext| >= TAG_BYTES
    requires lib.unseal(DeriveKey(lib, secret, salt), nonce, ciphertext, lib.aadBytes(root.header)) == Some(plaintext)
    requires lib.parsePayload(plaintext) == Some(payload) && ValidateInner(payload, root.header) == Ok(result)
    requires result.sourceInstanceId == sourceInstanceId && !ReusesCredentialKey(secret, result.entries)
    ensures Open(lib, encoded, secret, binding.artifactType, binding.artifactId, record, sourceInstanceId) == Ok(result)
  {
  }

  /** The same secret, artifact and record give back exactly the producer's entries and flags. */
  lemma OpenOfCreate(
    lib: Library, secret: ExternalSecret, artifactType: ArtifactType, artifactId: string, record: Json,
    sourceInstanceId: string, entries: seq<SecretEntry>, required: bool, salt: Bytes, nonce: Bytes)
    requires TextLaws(lib) && SealLaws(lib)
    requires |nonce| == NONCE_BYTES && |salt| == SALT_BYTES
    requires Create(lib, secret, artifactType, artifactId, record, sourceInstanceId, entries, required, salt, nonce).Ok?
    ensures var encoded :=
        Create(lib, secret, artifactType, artifactId, record, sourceInstanceId, entries, required, salt, nonce).value;
      var digest := BindingDigest(lib, record, artifactType, artifactId, sourceInstanceId);
      Open(lib, encoded, secret, artifactType, artifactId, record, sourceInstanceId)
        == Ok(Opened(Binding(digest.value, artifactId, artifactType), sourceInstanceId, required, entries))
  {
    var digest := BindingDigest(lib, record, artifactType, artifactId, sourceInstanceId).value;
    var binding := Binding(digest, artifactId, artifactType);
    var header := BuildHeader(secret, binding, salt, nonce);
    var payload := Payload(binding, required, 1, RawsOf(entries), sourceInstanceId);
    var key := DeriveKey(lib, secret, salt);
    var ciphertext := lib.seal(key, nonce, lib.payloadBytes(payload), lib.aadBytes(header));
    var root := Envelope(header, Base64Url.Encode(ciphertext));
    assert lib.parseEnvelope(lib.envelopeBytes(root)) == Some(root);
    OuterOfHeader(secret, binding, salt, nonce, root.ciphertext);
    MetadataOfHeader(secret, binding, salt, nonce);
    CiphertextDecodes(ciphertext);
    InnerOfPayload(header, required, entries, sourceInstanceId);
    var saltUsed := if secret.Passphrase? then salt else [];
    assert DeriveKey(lib, secret, saltUsed) == key;
    OpenPasses(lib, lib.envelopeBytes(root), secret, record, binding, sourceInstanceId, root, saltUsed, nonce,
               ciphertext, lib.payloadBytes(payload), payload, Opened(binding, sourceInstanceId, required, entries));
  }

  /**
    Nothing else opens it: whatever envelope text carries the created ciphertext, and whatever the
    caller expects, an accepted open used the producer's key and saw the producer's whole header,
    so the artifact, its record digest and the entries are the producer's.
   */
  lemma OnlyTheProducersHeaderOpens(
    lib: Library, key: Bytes, nonce: Bytes, payload: Payload, header: Header,
    encoded: Bytes, secret: ExternalSecret, artifactType: ArtifactType, artifactId: string,
    record: Json, sourceInstanceId: string)
    requires TextLaws(lib) && SealLaws(lib)
    requires lib.parseEnvelope(encoded).Some?
    requires Base64Url.Decode(lib.parseEnvelope(encoded).value.ciphertext, MAX_ENVELOPE_BYTES)
      == Some(lib.seal(key, nonce, lib.payloadBytes(payload), lib.aadBytes(header)))
    requires Open(lib, encoded, secret, artifactType, artifactId, record, sourceInstanceId).Ok?
    ensures lib.parseEnvelope(encoded).value.header == header
    ensures header.binding
      == Binding(BindingDigest(lib, record, artifactType, artifactId, sourceInstanceId).value, artifactId, artifactType)
    ensures secret.OneTimeKey? ==> secret.material == key
    ensures secret.Passphrase? ==> lib.deriveKey(secret.material, CryptoMetadata(header).value.0) == key
    ensures sourceInstanceId == payload.sourceInstanceId
    ensures Some(Open(lib, encoded, secret, artifactType, artifactId, record, sourceInstanceId).value.entries)
      == OpenEntries(payload.entries)
  {
    var root := lib.parseEnvelope(encoded).value;
    var metadata := CryptoMetadata(root.header).value;
    var ciphertext := lib.seal(key, nonce, lib.payloadBytes(payload), lib.aadBytes(header));
    var used := DeriveKey(lib, secret, metadata.0);
    assert lib.unseal(used, metadata.1, ciphertext, lib.aadBytes(root.header)).Some?;
    assert lib.unseal(key, nonce, ciphertext, lib.aadBytes(header)) == Some(lib.payloadBytes(payload));
  }

  /** A header as the producer builds it, with a ciphertext that fits, reads back as its metadata and ciphertext. */
  lemma BuiltReads(
    lib: Library, secret: ExternalSecret, binding: Binding, salt: Bytes, nonce: Bytes, ciphertext: Bytes, root: Envelope)
    requires TextLaws(lib) && |nonce| == NONCE_BYTES && |salt| == SALT_BYTES
    requires root == Envelope(BuildHeader(secret, binding, salt, nonce), Base64Url.Encode(ciphertext))
    requires |lib.envelopeBytes(root)| <= MAX_ENVELOPE_BYTES
    ensures lib.parseEnvelope(lib.envelopeBytes(root)) == Some(root)
    ensures root.header.mode == if secret.Passphrase? then "passphrase" else "one-time-key"
    ensures CryptoMetadata(root.header) == Some((if secret.Passphrase? then salt else [], nonce))
    ensures Base64Url.Decode(root.ciphertext, MAX_ENVELOPE_BYTES) == Some(ciphertext)
  {
    MetadataOfHeader(secret, binding, salt, nonce);
    CiphertextDecodes(ciphertext);
  }

  /** The envelope a successful creation writes. */
  ghost function Written(
    lib: Library, secret: ExternalSecret, payload: Payload, salt: Bytes, nonce: Bytes): Envelope
  {
    var header := BuildHeader(secret, payload.binding, salt, nonce);
    var key := if secret.Passphrase? then lib.deriveKey(secret.material, salt) else secret.material;
    Envelope(header, Base64Url.Encode(lib.seal(key, nonce, lib.payloadBytes(payload), lib.aadBytes(header))))
  }

  predicate RecordedAs(payload: Payload, digest: string, artifactType: ArtifactType, artifactId: string,
                       sourceInstanceId: string, entries: seq<SecretEntry>, required: bool) {
    payload == Payload(Binding(digest, artifactId, artifactType), required, 1, RawsOf(entries), sourceInstanceId)
  }

  lemma CreateChecks(
    lib: Library, secret: ExternalSecret, artifactType: ArtifactType, artifactId: string, record: Json,
    sourceInstanceId: string, entries: seq<SecretEntry>, required: bool, salt: Bytes, nonce: Bytes)
    requires Create(lib, secret, artifactType, artifactId, record, sourceInstanceId, entries, required, salt, nonce).Ok?
    ensures BindingDigest(lib, record, artifactType, artifactId, sourceInstanceId).Ok?
    ensures EntriesAllowed(entries, required) && !ReusesCredentialKey(secret, entries)
  {
  }

  lemma CreateWrites(
    lib: Library, secret: ExternalSecret, artifactType: ArtifactType, artifactId: string, record: Json,
    sourceInstanceId: string, entries: seq<SecretEntry>, required: bool, salt: Bytes, nonce: Bytes, payload: Payload)
    requires SealLaws(lib)
    requires BindingDigest(lib, record, artifactType, artifactId, sourceInstanceId).Ok?
    requires EntriesAllowed(entries, required) && !ReusesCredentialKey(secret, entries)
    requires RecordedAs(payload, BindingDigest(lib, record, artifactType, artifactId, sourceInstanceId).value,
                        artifactType, artifactId, sourceInstanceId, entries, required)
    ensures Create(lib, secret, artifactType, artifactId, record, sourceInstanceId, entries, required, salt, nonce)
      == var encoded := lib.envelopeBytes(Written(lib, secret, payload, salt, nonce));
         if |encoded| <= MAX_ENVELOPE_BYTES then Ok(encoded) else Err("SECRET_PROFILE_INVALID")
  {
  }

  /**
    A creation fails only for a record that does not identify the artifact, entries that are not
    allowed, an external secret that is stored among the entries, or an envelope that is too long.
   */
  lemma CreatedExactly(
    lib: Library, secret: ExternalSecret, artifactType: ArtifactType, artifactId: string, record: Json,
    sourceInstanceId: string, entries: seq<SecretEntry>, required: bool, salt: Bytes, nonce: Bytes, payload: Payload)
    requires SealLaws(lib)
    requires BindingDigest(lib, record, artifactType, artifactId, sourceInstanceId).Ok?
    requires RecordedAs(payload, BindingDigest(lib, record, artifactType, artifactId, sourceInstanceId).value,
                        artifactType, artifactId, sourceInstanceId, entries, required)
    ensures Create(lib, secret, artifactType, artifactId, record, sourceInstanceId, entries, required, salt, nonce).Ok? <==>
      && EntriesAllowed(entries, required)
      && (forall i :: 0 <= i < |entries| && entries[i].name == CREDENTIAL_KEY ==> entries[i].material != secret.material)
      && |lib.envelopeBytes(Written(lib, secret, payload, salt, nonce))| <= MAX_ENVELOPE_BYTES
  {
    if EntriesAllowed(entries, required) && !ReusesCredentialKey(secret, entries) {
      CreateWrites(
        lib, secret, artifactType, artifactId, record, sourceInstanceId, entries, required, salt, nonce, payload);
    } else if Create(
      lib, secret, artifactType, artifactId, record, sourceInstanceId, entries, required, salt, nonce).Ok? {
      CreateChecks(lib, secret, artifactType, artifactId, record, sourceInstanceId, entries, required, salt, nonce);
    }
  }

  /**
    What a created envelope is: the header names the secret's mode, salt and nonce, and the ciphertext
    is the producer's payload under the one-time key itself, or under the key derived from the
    passphrase and the salt.
   */
  lemma CreatedEnvelope(
    lib: Library, secret: ExternalSecret, artifactType: ArtifactType, artifactId: string, record: Json,
    sourceInstanceId: string, entries: seq<SecretEntry>, required: bool, salt: Bytes, nonce: Bytes)
    returns (root: Envelope, payload: Payload)
    requires TextLaws(lib) && SealLaws(lib) && |nonce| == NONCE_BYTES && |salt| == SALT_BYTES
    requires Create(lib, secret, artifactType, artifactId, record, sourceInstanceId, entries, required, salt, nonce).Ok?
    ensures lib.parseEnvelope(
      Create(lib, secret, artifactType, artifactId, record, sourceInstanceId, entries, required, salt, nonce).value)
      == Some(root)
    ensures root.header.mode == if secret.Passphrase? then "passphrase" else "one-time-key"
    ensures CryptoMetadata(root.header) == Some((if secret.Passphrase? then salt else [], nonce))
    ensures var key := if secret.Passphrase? then lib.deriveKey(secret.material, salt) else secret.material;
      Base64Url.Decode(root.ciphertext, MAX_ENVELOPE_BYTES)
        == Some(lib.seal(key, nonce, lib.payloadBytes(payload), lib.aadBytes(root.header)))
    ensures root.header.binding == payload.binding && payload.required == required
    ensures payload.binding
      == Binding(BindingDigest(lib, record, artifactType, artifactId, sourceInstanceId).value, artifactId, artifactType)
    ensures payload.sourceInstanceId == sourceInstanceId && OpenEntries(payload.entries) == Some(entries)
  {
    CreateChecks(lib, secret, artifactType, artifactId, record, sourceInstanceId, entries, required, salt, nonce);
    var digest := BindingDigest(lib, record, artifactType, artifactId, sourceInstanceId).value;
    payload := Payload(Binding(digest, artifactId, artifactType), required, 1, RawsOf(entries), sourceInstanceId);
    CreateWrites(
      lib, secret, artifactType, artifactId, record, sourceInstanceId, entries, required, salt, nonce, payload);
    root := Written(lib, secret, payload, salt, nonce);
    var key := if secret.Passphrase? then lib.deriveKey(secret.material, salt) else secret.material;
    var ciphertext := lib.seal(key, nonce, lib.payloadBytes(payload), lib.aadBytes(root.header));
    BuiltReads(lib, secret, payload.binding, salt, nonce, ciphertext, root);
    OpenRawsOf(entries);
  }

  /** The key of an accepted open decides the secret. */
  lemma SameKeySameSecret(
    lib: Library, secret: ExternalSecret, salt: Bytes, nonce: Bytes, root: Envelope, payload: Payload,
    encoded: Bytes, other: ExternalSecret, artifactType: ArtifactType, artifactId: string,
    record: Json, sourceInstanceId: string)
    requires TextLaws(lib) && SealLaws(lib) && KeyLaw(lib)
    requires lib.parseEnvelope(encoded) == Some(root)
    requires root.header.mode == if secret.Passphrase? then "passphrase" else "one-time-key"
    requires CryptoMetadata(root.header) == Some((if secret.Passphrase? then salt else [], nonce))
    requires var key := if secret.Passphrase? then lib.deriveKey(secret.material, salt) else secret.material;
      Base64Url.Decode(root.ciphertext, MAX_ENVELOPE_BYTES)
        == Some(lib.seal(key, nonce, lib.payloadBytes(payload), lib.aadBytes(root.header)))
    requires Open(lib, encoded, other, artifactType, artifactId, record, sourceInstanceId).Ok?
    ensures other == secret
    ensures root.header.binding
      == Binding(BindingDigest(lib, record, artifactType, artifactId, sourceInstanceId).value, artifactId, artifactType)
    ensures sourceInstanceId == payload.sourceInstanceId
  {
    var key := if secret.Passphrase? then lib.deriveKey(secret.material, salt) else secret.material;
    OnlyTheProducersHeaderOpens(lib, key, nonce, payload, root.header, encoded, other, artifactType, artifactId,
                                record, sourceInstanceId);
    assert root.header.mode == Mode(other);
    assert other.Passphrase? <==> secret.Passphrase?;
  }

  /** No other secret, of either kind, opens what one secret created, whatever artifact is expected. */
  lemma OnlyTheSameSecretOpens(
    lib: Library, secret: ExternalSecret, artifactType: ArtifactType, artifactId: string, record: Json,
    sourceInstanceId: string, entries: seq<SecretEntry>, required: bool, salt: Bytes, nonce: Bytes,
    other: ExternalSecret, expectedType: ArtifactType, expectedId: string, expectedRecord: Json, expectedSource: string)
    requires TextLaws(lib) && SealLaws(lib) && KeyLaw(lib)
    requires |nonce| == NONCE_BYTES && |salt| == SALT_BYTES
    requires Create(lib, secret, artifactType, artifactId, record, sourceInstanceId, entries, required, salt, nonce).Ok?
    requires Open(
      lib, Create(lib, secret, artifactType, artifactId, record, sourceInstanceId, entries, required, salt, nonce).value,
      other, expectedType, expectedId, expectedRecord, expectedSource).Ok?
    ensures other == secret
    ensures expectedType == artifactType && expectedId == artifactId && expectedSource == sourceInstanceId
    ensures BindingDigest(lib, expectedRecord, expectedType, expectedId, expectedSource).value
      == BindingDigest(lib, record, artifactType, artifactId, sourceInstanceId).value
  {
    var root, payload :=
      CreatedEnvelope(lib, secret, artifactType, artifactId, record, sourceInstanceId, entries, required, salt, nonce);
    SameKeySameSecret(
      lib, secret, salt, nonce, root, payload,
      Create(lib, secret, artifactType, artifactId, record, sourceInstanceId, entries, required, salt, nonce).value,
      other, expectedType, expectedId, expectedRecord, expectedSource);
  }

  // ----- What any accepted open has checked

  lemma PolicyNames(name: string)
    ensures Policy(name).Some? ==> name in {
      "CREDENTIAL_ENCRYPTION_KEY", "POSTGRES_PASSWORD", "REDIS_URL", "DJANGO_SECRET_KEY",
      "BANGUMI_OAUTH_CLIENT_SECRET", "RESEND_API_KEY", "TURNSTILE_SECRET"}
    ensures name == "CREDENTIAL_ENCRYPTION_KEY" || name == "POSTGRES_PASSWORD" || name == "REDIS_URL" ==>
      Policy(name) == Some(PreserveOnly)
  {
  }

  /** An entry as it leaves the envelope. */
  predicate SoundEntry(e: SecretEntry) {
    && e.name in {
         "CREDENTIAL_ENCRYPTION_KEY", "POSTGRES_PASSWORD", "REDIS_URL", "DJANGO_SECRET_KEY",
         "BANGUMI_OAUTH_CLIENT_SECRET", "RESEND_API_KEY", "TURNSTILE_SECRET"}
    && (e.handling == Reconfigure ==> e.material == [])
    && (e.handling == Preserve ==> 0 < |e.material| <= 1024 * 1024 + 2)
    && (e.name == "CREDENTIAL_ENCRYPTION_KEY" || e.name == "POSTGRES_PASSWORD" || e.name == "REDIS_URL" ==>
          e.handling == Preserve)
  }

  lemma OpenedEntrySound(raw: RawEntry)
    requires OpenEntry(raw).Some?
    ensures SoundEntry(OpenEntry(raw).value) && OpenEntry(raw).value.name == raw.name
  {
    PolicyNames(raw.name);
    if raw.value.Some? && Base64Url.Decode(raw.value.value.text, MAX_SECRET_BYTES).Some? {
      Base64Url.DecodedLength(raw.value.value.text, MAX_SECRET_BYTES);
    }
  }

  /** The parameters of the one supported suite. */
  predicate PinnedHeader(h: Header, secret: ExternalSecret) {
    && h.format == "animemo.migration-secret-envelope" && h.schemaVersion == 1
    && h.suiteId == "argon2id-m65536-t3-p4-aes-256-gcm-v1" && h.ciphertextEncoding == "base64url"
    && h.aead.algorithm == "AES-256-GCM" && h.aead.keyBytes == 32 && h.aead.nonceBytes == 12 && h.aead.tagBytes == 16
    && h.aead.nonceEncoding == "base64url"
    && match secret
       case Passphrase(_) =>
         && h.mode == "passphrase" && h.kdf.Argon? && h.kdf.algorithm == "Argon2id" && h.kdf.memoryKiB == 65536
         && h.kdf.iterations == 3 && h.kdf.parallelism == 4 && h.kdf.outputBytes == 32
       case OneTimeKey(_) => h.mode == "one-time-key" && h.kdf.NoKdf?
  }

  lemma MetadataPinned(h: Header, secret: ExternalSecret)
    requires h.mode == Mode(secret) && CryptoMetadata(h).Some?
    ensures h.aead == Aead("AES-256-GCM", 32, h.aead.nonce, 12, "base64url", 16)
    ensures secret.Passphrase? ==> h.kdf.Argon? && h.kdf == Argon("Argon2id", 3, 65536, 32, 4, h.kdf.salt, "base64url")
    ensures secret.OneTimeKey? ==> h.kdf.NoKdf?
    ensures |CryptoMetadata(h).value.1| == 12 && (secret.Passphrase? ==> |CryptoMetadata(h).value.0| == 16)
  {
    assert "passphrase" != "one-time-key";
  }

  /** Whatever was sealed by whomever: an accepted envelope is of the one suite, in the secret's own mode. */
  lemma OpenedHeaderPinned(
    lib: Library, encoded: Bytes, secret: ExternalSecret, artifactType: ArtifactType, artifactId: string, record: Json,
    sourceInstanceId: string)
    requires Open(lib, encoded, secret, artifactType, artifactId, record, sourceInstanceId).Ok?
    ensures lib.parseEnvelope(encoded).Some? && PinnedHeader(lib.parseEnvelope(encoded).value.header, secret)
    ensures 0 < |encoded| <= 4 * 1024 * 1024
  {
    MetadataPinned(lib.parseEnvelope(encoded).value.header, secret);
  }

  lemma InnerSound(p: Payload, header: Header, k: nat)
    requires ValidateInner(p, header).Ok? && k < |p.entries|
    ensures |ValidateInner(p, header).value.entries| == |p.entries|
    ensures SoundEntry(ValidateInner(p, header).value.entries[k])
  {
    OpenedEntrySound(p.entries[k]);
  }

  lemma InnerTogether(p: Payload, header: Header)
    requires ValidateInner(p, header).Ok?
    ensures var o := ValidateInner(p, header).value;
      && |o.entries| <= 32 && NamesDistinct(o.entries)
      && (o.required ==> HasName(o.entries, "CREDENTIAL_ENCRYPTION_KEY"))
      && p.schemaVersion == 1 && p.binding == header.binding && o.binding == header.binding
  {
  }

  /**
    And what comes out is sound: few, differently named, known entries of bounded size, with the credential
    key if that is required, and without the secret that opened the envelope.
   */
  lemma OpenedIsSound(
    lib: Library, encoded: Bytes, secret: ExternalSecret, artifactType: ArtifactType, artifactId: string, record: Json,
    sourceInstanceId: string, k: nat)
    requires Open(lib, encoded, secret, artifactType, artifactId, record, sourceInstanceId).Ok?
    ensures var o := Open(lib, encoded, secret, artifactType, artifactId, record, sourceInstanceId).value;
      && |o.entries| <= 32 && NamesDistinct(o.entries)
      && (o.required ==> HasName(o.entries, "CREDENTIAL_ENCRYPTION_KEY"))
      && o.sourceInstanceId == sourceInstanceId
      && o.binding.artifactId == artifactId && o.binding.artifactType == artifactType
      && (k < |o.entries| ==>
            && SoundEntry(o.entries[k])
            && (o.entries[k].name == "CREDENTIAL_ENCRYPTION_KEY" ==> o.entries[k].material != secret.material))
  {
    var root := lib.parseEnvelope(encoded).value;
    var metadata := CryptoMetadata(root.header).value;
    var plaintext := lib.unseal(
      DeriveKey(lib, secret, metadata.0), metadata.1, Base64Url.Decode(root.ciphertext, MAX_ENVELOPE_BYTES).value,
      lib.aadBytes(root.header));
    var payload := lib.parsePayload(plaintext.value).value;
    InnerTogether(payload, root.header);
    if k < |payload.entries| { InnerSound(payload, root.header, k); }
  }
}
