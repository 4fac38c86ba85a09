/**
  The canonical relative path of a backup or migration member.

  The host parses the text as a pure POSIX path, which drops empty and "." components, and asks that
  the parsed path prints as the text it came from.
 */
module RelativePaths {
  import opened PathText

  const MAX_PATH_BYTES := 4096
  const MAX_PART_BYTES := 255

  /** Bytes of the UTF-8 encoding. */
  function Utf8Size(s: string): nat {
    if s == "" then 0 else CharSize(s[0]) + Utf8Size(s[1..])
  }

  function CharSize(c: char): nat {
    if c < '\U{80}' then 1 else if c < '\U{800}' then 2 else if c < '\U{10000}' then 3 else 4
  }

  /** The components the host's path object keeps. */
  function Kept(parts: seq<string>): seq<string> {
    if parts == [] then []
    else (if parts[0] == "" || parts[0] == "." then [] else [parts[0]]) + Kept(parts[1..])
  }

  function Printed(parts: seq<string>): string {
    if parts == [] then "." else Join(parts)
  }

  function ParsedParts(value: string): seq<string> {
    Kept(SplitAt(value, '/'))
  }

  /** The check as the host performs it. */
  predicate CanonicalRelative(value: string) {
    && value != "" && '\\' !in value && '\0' !in value
    && value[0] != '/'
    && ".." !in ParsedParts(value)
    && Printed(ParsedParts(value)) == value
    && Utf8Size(value) <= MAX_PATH_BYTES
    && (forall k :: 0 <= k < |ParsedParts(value)| ==> Utf8Size(ParsedParts(value)[k]) <= MAX_PART_BYTES)
  }

  predicate Ordinary(part: string) {
    part != "" && part != "." && part != ".."
  }

  predicate AllOrdinary(parts: seq<string>) {
    forall k :: 0 <= k < |parts| ==> Ordinary(parts[k])
  }

  predicate Short(value: string, parts: seq<string>) {
    Utf8Size(value) <= MAX_PATH_BYTES && forall k :: 0 <= k < |parts| ==> Utf8Size(parts[k]) <= MAX_PART_BYTES
  }

  lemma {:induction false} KeptMembers(parts: seq<string>, p: string)
    ensures p in Kept(parts) <==> p in parts && p != "" && p != "."
  {
    if parts != [] {
      KeptMembers(parts[1..], p);
      assert parts == [parts[0]] + parts[1..];
    }
  }

  lemma {:induction false} KeptAll(parts: seq<string>)
    requires AllOrdinary(parts)
    ensures Kept(parts) == parts
  {
    if parts != [] { KeptAll(parts[1..]); }
  }

  lemma SlashFirst(value: string)
    ensures value == "" || value[0] == '/' ==> SplitAt(value, '/')[0] == ""
  {
  }

  /**
    Canonical paths are exactly the short texts whose components are ordinary names, and the lone
    dot, which the host's path object prints as itself.
   */
  lemma CanonicalMeans(value: string)
    ensures CanonicalRelative(value)
      <==> '\\' !in value && '\0' !in value
           && (value == "." || (AllOrdinary(SplitAt(value, '/')) && Short(value, SplitAt(value, '/'))))
  {
    var parts := SplitAt(value, '/');
    JoinOfSplit(value);
    if value == "." {
      SplitPlain(".");
      assert Kept(["."]) == [];
      assert Utf8Size(".") == 1;
    } else if AllOrdinary(parts) {
      KeptAll(parts);
      SlashFirst(value);
    } else if CanonicalRelative(value) {
      var kept := Kept(parts);
      forall p | p in kept ensures '/' !in p && Ordinary(p) {
        KeptMembers(parts, p);
      }
      assert forall k :: 0 <= k < |kept| ==> kept[k] in kept;
      SplitOfJoin(kept);
      assert false;
    }
  }

  /** A short list of ordinary separator-free names joins to a canonical path. */
  lemma JoinedIsCanonical(parts: seq<string>)
    requires parts != [] && AllOrdinary(parts) && Short(Join(parts), parts)
    requires forall k :: 0 <= k < |parts| ==> '/' !in parts[k]
    requires '\\' !in Join(parts) && '\0' !in Join(parts)
    ensures CanonicalRelative(Join(parts))
  {
    SplitOfJoin(parts);
    CanonicalMeans(Join(parts));
  }
}
