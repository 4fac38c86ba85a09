/**
  The closed set of member paths of a migration bundle: eight core members, and the content-addressed
  plugin packages and local media.
 */
module MigrationMembers {
  import opened ChecksumText
  import opened Digests
  import opened PathText
  import opened RelativePaths

  const CAS_PREFIX := "plugins/cas/"
  const CAS_SUFFIX := ".ajplugin"
  const LOCAL_PREFIX := "media/local/"

  predicate AllHex(s: string) {
    forall k :: 0 <= k < |s| ==> IsHex(s[k])
  }

  predicate CoreMember(path: string) {
    || path == "database.sql.gz" || path == "database.metadata.json" || path == "plugins/manifest.json"
    || path == "media/manifest.json" || path == "config/non-secret.json" || path == "secrets/secret-envelope.json"
    || path == "private/manifest.json" || path == "updater/state.json"
  }

  predicate PluginMember(path: string) {
    |path| == 85 && path[..12] == CAS_PREFIX && AllHex(path[12..76]) && path[76..] == CAS_SUFFIX
  }

  predicate LocalMember(path: string) {
    |path| == 76 && path[..12] == LOCAL_PREFIX && AllHex(path[12..])
  }

  predicate AllowedMember(path: string) {
    CoreMember(path) || PluginMember(path) || LocalMember(path)
  }

  predicate Member(path: string) {
    CanonicalRelative(path) && AllowedMember(path)
  }

  // ----- What all of them have in common

  predicate Letters(s: string) {
    forall k :: 0 <= k < |s| ==> s[k] >= ' ' && s[k] <= '~'
  }

  predicate Lower(c: char) {
    'a' <= c <= 'z' || '0' <= c <= '9' || c == '.' || c == '-' || c == '/'
  }

  predicate SlashAt(s: string, k: nat)
    requires k < |s|
  {
    s[k] == '/'
  }

  predicate NameFrom(s: string, k: nat) {
    k < |s| && s[k] != '/' && s[k] != '.'
  }

  /** Lower-case letters, digits and punctuation; after each slash a name that does not start with a dot. */
  predicate Tidy(s: string) {
    && (forall k :: 0 <= k < |s| ==> Lower(s[k]))
    && (forall k :: 0 <= k < |s| && SlashAt(s, k) ==> NameFrom(s, k + 1))
  }

  predicate TidyPath(s: string) {
    Tidy(s) && |s| <= MAX_PART_BYTES && NameFrom(s, 0)
  }

  lemma DatabaseTidy(path: string)
    requires path == "database.sql.gz" || path == "database.metadata.json"
    ensures TidyPath(path)
  {
  }

  lemma ManifestTidy(path: string)
    requires path == "plugins/manifest.json" || path == "media/manifest.json"
    ensures TidyPath(path)
  {
  }

  lemma ConfigTidy(path: string)
    requires path == "config/non-secret.json" || path == "updater/state.json"
    ensures TidyPath(path)
  {
  }

  lemma EnvelopeTidy(path: string)
    requires path == "secrets/secret-envelope.json"
    ensures TidyPath(path)
  {
  }

  lemma PrivateTidy(path: string)
    requires path == "private/manifest.json"
    ensures TidyPath(path)
  {
  }

  lemma CoreTidy(path: string)
    requires CoreMember(path)
    ensures TidyPath(path)
  {
    if path == "database.sql.gz" || path == "database.metadata.json" {
      DatabaseTidy(path);
    } else if path == "config/non-secret.json" || path == "updater/state.json" {
      ConfigTidy(path);
    } else if path == "secrets/secret-envelope.json" {
      EnvelopeTidy(path);
    } else if path == "private/manifest.json" {
      PrivateTidy(path);
    } else {
      ManifestTidy(path);
    }
  }

  lemma PrefixesTidy(s: string)
    requires s == CAS_PREFIX || s == LOCAL_PREFIX
    ensures |s| == 12 && Tidy(s[..11]) && s[11] == '/' && NameFrom(s[..11], 0)
  {
  }

  lemma SuffixTidy()
    ensures Tidy(CAS_SUFFIX)
  {
  }

  lemma TidyConcat(directory: string, name: string)
    requires Tidy(directory) && NameFrom(directory, 0) && Tidy(name) && NameFrom(name, 0)
    requires |directory| + |name| < MAX_PART_BYTES
    ensures TidyPath(directory + "/" + name)
  {
    var s, n := directory + "/" + name, |directory|;
    forall k | 0 <= k < |s| && SlashAt(s, k) ensures NameFrom(s, k + 1) {
      if k < n {
        assert SlashAt(directory, k);
      } else if k > n {
        assert SlashAt(name, k - n - 1);
      }
    }
  }

  lemma HexTidy(digits: string, suffix: string)
    requires AllHex(digits) && digits != "" && Tidy(suffix)
    ensures Tidy(digits + suffix) && NameFrom(digits + suffix, 0)
  {
    var s, n := digits + suffix, |digits|;
    forall k | 0 <= k < |s| && SlashAt(s, k) ensures NameFrom(s, k + 1) {
      assert SlashAt(suffix, k - n);
    }
  }

  lemma PluginTidy(path: string)
    requires PluginMember(path)
    ensures TidyPath(path)
  {
    var directory, name := path[..11], path[12..];
    PrefixesTidy(CAS_PREFIX);
    SuffixTidy();
    HexTidy(path[12..76], CAS_SUFFIX);
    assert name == path[12..76] + CAS_SUFFIX && directory == CAS_PREFIX[..11];
    TidyConcat(directory, name);
    assert path[11] == path[..12][11];
    assert path == directory + "/" + name;
  }

  lemma LocalTidy(path: string)
    requires LocalMember(path)
    ensures TidyPath(path)
  {
    var directory, name := path[..11], path[12..];
    PrefixesTidy(LOCAL_PREFIX);
    HexTidy(name, "");
    assert name + "" == name && directory == LOCAL_PREFIX[..11];
    TidyConcat(directory, name);
    assert path[11] == path[..12][11];
    assert path == directory + "/" + name;
  }

  lemma MembersTidy(path: string)
    requires AllowedMember(path)
    ensures TidyPath(path)
  {
    if PluginMember(path) {
      PluginTidy(path);
    } else if LocalMember(path) {
      LocalTidy(path);
    } else {
      CoreTidy(path);
    }
  }

  /** No member path breaks a line. */
  lemma MembersUnbroken(path: string)
    requires AllowedMember(path)
    ensures Unbroken(path)
  {
    MembersTidy(path);
  }

  // ----- Tidy paths are canonical

  lemma {:induction false} AsciiSize(s: string)
    requires Letters(s)
    ensures Utf8Size(s) == |s|
  {
    if s != "" { AsciiSize(s[1..]); }
  }

  /** The components of a tidy text: only the first may be empty or start with a dot. */
  lemma {:induction false} TidyParts(s: string)
    requires Tidy(s)
    ensures var parts := SplitAt(s, '/');
      && (forall k :: 1 <= k < |parts| ==> NameFrom(parts[k], 0))
      && (forall k :: 0 <= k < |parts| ==> Letters(parts[k]) && |parts[k]| <= |s|)
      && (if s == "" || s[0] == '/' then parts[0] == "" else parts[0] != "" && parts[0][0] == s[0])
  {
    if s != "" {
      forall k | 0 <= k < |s[1..]| && SlashAt(s[1..], k) ensures NameFrom(s[1..], k + 1) {
        assert SlashAt(s, k + 1);
      }
      TidyParts(s[1..]);
      if s[0] == '/' { assert SlashAt(s, 0); }
    }
  }

  lemma TidyIsCanonical(path: string)
    requires TidyPath(path)
    ensures CanonicalRelative(path)
  {
    var parts := SplitAt(path, '/');
    TidyParts(path);
    AsciiSize(path);
    forall k | 0 <= k < |parts| ensures Utf8Size(parts[k]) <= MAX_PART_BYTES && Ordinary(parts[k]) {
      AsciiSize(parts[k]);
    }
    CanonicalMeans(path);
  }

  /** Every path of the closed set is canonical: the first check never refuses what the second allows. */
  lemma AllowedIsMember(path: string)
    ensures Member(path) <==> AllowedMember(path)
  {
    if AllowedMember(path) {
      MembersTidy(path);
      TidyIsCanonical(path);
    }
  }
}
