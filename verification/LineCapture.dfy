/**
  The capped capture of a process pipe: a raw prefix, and the classes recognised in its lines.

  Byte strings are written as strings of their Latin-1 characters.  The capture is fed block by
  block; its reference classifies the whole stream at once.
 */
module LineCapture {

  const STREAM_LIMIT := 1024 * 1024
  const LINE_LIMIT := 4096

  // ----- Recognition of one line

  datatype Category =
    | SIGNATURE | CERTIFICATE | SOURCE_IDENTITY | LOCK | RATE_LIMIT
    | DNS | NETWORK | DISK | PARTIAL_INDEX | FETCH_FAILED

  function Markers(c: Category): seq<string> {
    match c
    case SIGNATURE => ["no_pubkey", "not signed", "invalid signature", "signatures couldn"]
    case CERTIFICATE => ["certificate verification failed", "certificate is not trusted"]
    case SOURCE_IDENTITY => ["does not have a release file", "changed its", "hash sum mismatch"]
    case LOCK => ["could not get lock", "unable to acquire the dpkg frontend lock"]
    case RATE_LIMIT => ["429 too many requests", "429  too many requests"]
    case DNS => ["temporary failure resolving", "could not resolve"]
    case NETWORK => ["connection failed", "connection timed out", "could not connect"]
    case DISK => ["no space left on device", "input/output error", "read-only file system"]
    case PARTIAL_INDEX => ["some index files failed to download", "old ones used instead"]
    case FETCH_FAILED => ["failed to fetch"]
  }

  const HOSTS: seq<string> := ["archive.ubuntu.com", "security.ubuntu.com", "ports.ubuntu.com"]
  const INDEXES: seq<string> := ["InRelease", "Release", "Packages", "Translation", "DEP-11", "Contents"]

  function Lower(c: char): char {
    if 'A' <= c <= 'Z' then (c as int + 32) as char else c
  }

  function Lowered(s: string): (r: string)
    ensures |r| == |s|
    ensures forall i :: 0 <= i < |s| ==> r[i] == Lower(s[i])
  {
    seq(|s|, i requires 0 <= i < |s| => Lower(s[i]))
  }

  predicate HostChar(c: char) {
    'a' <= c <= 'z' || '0' <= c <= '9' || c == '.' || c == '-'
  }

  predicate IndexChar(c: char) {
    'a' <= c <= 'z' || 'A' <= c <= 'Z' || '0' <= c <= '9'
  }

  predicate MatchesAt(s: string, m: string, i: nat) {
    i + |m| <= |s| && s[i..i + |m|] == m
  }

  predicate Contains(s: string, m: string) {
    exists i :: 0 <= i <= |s| && MatchesAt(s, m, i)
  }

  /** A match with no character of the class right before or right after it. */
  predicate ContainsWord(s: string, m: string, wordChar: char -> bool) {
    exists i :: 0 <= i <= |s| && WordAt(s, m, wordChar, i)
  }

  datatype Found = Found(categories: set<Category>, hosts: set<string>, indexes: set<string>) {
    function Plus(other: Found): Found {
      Found(categories + other.categories, hosts + other.hosts, indexes + other.indexes)
    }
  }

  const NOTHING := Found({}, {}, {})

  function Recognise(line: string): Found {
    var lowered := Lowered(line);
    Found(
      set c: Category | exists k :: 0 <= k < |Markers(c)| && Contains(lowered, Markers(c)[k]),
      set h | h in HOSTS && ContainsWord(lowered, h, HostChar),
      set x | x in INDEXES && ContainsWord(line, x, IndexChar))
  }

  // ----- What recognition means

  /** Somewhere in the line this text stands, in whatever letter case. */
  predicate ShowsAt(line: string, m: string, i: nat) {
    i + |m| <= |line| && Lowered(line[i..i + |m|]) == m
  }

  lemma LoweredSlice(s: string, i: nat, j: nat)
    requires i <= j <= |s|
    ensures Lowered(s)[i..j] == Lowered(s[i..j])
  {
  }

  lemma ContainsLowered(line: string, m: string)
    ensures Contains(Lowered(line), m) <==> exists i: nat :: ShowsAt(line, m, i)
  {
    if i :| 0 <= i <= |Lowered(line)| && MatchesAt(Lowered(line), m, i) {
      LoweredSlice(line, i, i + |m|);
      assert ShowsAt(line, m, i);
    }
    if i: nat :| ShowsAt(line, m, i) {
      LoweredSlice(line, i, i + |m|);
      assert MatchesAt(Lowered(line), m, i);
    }
  }

  /** A line is of a class exactly when one of its markers stands in it, whatever the letter case. */
  lemma CategoryMeans(line: string, c: Category)
    ensures c in Recognise(line).categories <==> exists k, i: nat :: 0 <= k < |Markers(c)| && ShowsAt(line, Markers(c)[k], i)
  {
    if c in Recognise(line).categories {
      var k :| 0 <= k < |Markers(c)| && Contains(Lowered(line), Markers(c)[k]);
      ContainsLowered(line, Markers(c)[k]);
    }
    if k, i: nat :| 0 <= k < |Markers(c)| && ShowsAt(line, Markers(c)[k], i) {
      ContainsLowered(line, Markers(c)[k]);
    }
  }

  /** Between other characters than those of its own kind. */
  predicate StandsAlone(s: string, m: string, wordChar: char -> bool, before: string, after: string) {
    && s == before + m + after
    && (before != "" ==> !wordChar(before[|before| - 1])) && (after != "" ==> !wordChar(after[0]))
  }

  lemma WordMeans(s: string, m: string, wordChar: char -> bool)
    ensures ContainsWord(s, m, wordChar) <==> exists before, after :: StandsAlone(s, m, wordChar, before, after)
  {
    if i :| 0 <= i <= |s| && WordAt(s, m, wordChar, i) {
      assert s == s[..i] + m + s[i + |m|..];
      assert StandsAlone(s, m, wordChar, s[..i], s[i + |m|..]);
    }
    if before, after :| StandsAlone(s, m, wordChar, before, after) {
      WordBetween(s, m, wordChar, before, after);
    }
  }

  lemma WordBetween(s: string, m: string, wordChar: char -> bool, before: string, after: string)
    requires StandsAlone(s, m, wordChar, before, after)
    ensures WordAt(s, m, wordChar, |before|)
  {
  }

  /** A known host is found exactly where it stands alone, in whatever letter case. */
  lemma HostMeans(line: string, h: string)
    ensures h in Recognise(line).hosts <==>
      h in HOSTS && exists before, after :: StandsAlone(Lowered(line), h, HostChar, before, after)
  {
    WordMeans(Lowered(line), h, HostChar);
  }

  /** A known index is found exactly where it stands alone, spelled as it is. */
  lemma IndexMeans(line: string, x: string)
    ensures x in Recognise(line).indexes <==>
      x in INDEXES && exists before, after :: StandsAlone(line, x, IndexChar, before, after)
  {
    WordMeans(line, x, IndexChar);
  }

  predicate LineBreak(c: char) {
    c == '\n' || c == '\r'
  }

  predicate OneLine(m: string) {
    m != "" && '\n' !in m && '\r' !in m
  }

  // One lemma for each table keeps the search through the letters of its literals small.

  lemma SignatureMarkers(k: nat)
    ensures k < |Markers(SIGNATURE)| ==> OneLine(Markers(SIGNATURE)[k])
  {
  }

  lemma CertificateMarkers(k: nat)
    ensures k < |Markers(CERTIFICATE)| ==> OneLine(Markers(CERTIFICATE)[k])
  {
  }

  lemma SourceIdentityMarkers(k: nat)
    ensures k < |Markers(SOURCE_IDENTITY)| ==> OneLine(Markers(SOURCE_IDENTITY)[k])
  {
  }

  lemma LockMarkers(k: nat)
    ensures k < |Markers(LOCK)| ==> OneLine(Markers(LOCK)[k])
  {
  }

  lemma RateLimitMarkers(k: nat)
    ensures k < |Markers(RATE_LIMIT)| ==> OneLine(Markers(RATE_LIMIT)[k])
  {
  }

  lemma DnsMarkers(k: nat)
    ensures k < |Markers(DNS)| ==> OneLine(Markers(DNS)[k])
  {
  }

  lemma NetworkMarkers(k: nat)
    ensures k < |Markers(NETWORK)| ==> OneLine(Markers(NETWORK)[k])
  {
  }

  lemma DiskMarkers(k: nat)
    ensures k < |Markers(DISK)| ==> OneLine(Markers(DISK)[k])
  {
  }

  lemma PartialIndexMarkers(k: nat)
    ensures k < |Markers(PARTIAL_INDEX)| ==> OneLine(Markers(PARTIAL_INDEX)[k])
  {
  }

  lemma FetchFailedMarkers(k: nat)
    ensures k < |Markers(FETCH_FAILED)| ==> OneLine(Markers(FETCH_FAILED)[k])
  {
  }

  lemma MarkersAreOneLine(c: Category, k: nat)
    requires k < |Markers(c)|
    ensures OneLine(Markers(c)[k])
  {
    match c
    case SIGNATURE => SignatureMarkers(k);
    case CERTIFICATE => CertificateMarkers(k);
    case SOURCE_IDENTITY => SourceIdentityMarkers(k);
    case LOCK => LockMarkers(k);
    case RATE_LIMIT => RateLimitMarkers(k);
    case DNS => DnsMarkers(k);
    case NETWORK => NetworkMarkers(k);
    case DISK => DiskMarkers(k);
    case PARTIAL_INDEX => PartialIndexMarkers(k);
    case FETCH_FAILED => FetchFailedMarkers(k);
  }

  lemma NamesAreOneLine()
    ensures forall h :: h in HOSTS ==> OneLine(h)
    ensures forall x :: x in INDEXES ==> OneLine(x)
  {
  }

  /** A match never spans a line break, so what follows one cannot create or destroy a match. */
  lemma MatchesIgnoreTerminator(p: string, m: string, i: nat)
    requires OneLine(m)
    ensures MatchesAt(p + "\r\n", m, i) <==> MatchesAt(p, m, i)
    ensures MatchesAt(p + "\r", m, i) <==> MatchesAt(p, m, i)
    ensures !MatchesAt("\n", m, i)
  {
    BreakNotMatched(p + "\r\n", m, i, |p|);
    BreakNotMatched(p + "\r\n", m, i, |p| + 1);
    BreakNotMatched(p + "\r", m, i, |p|);
    BreakNotMatched("\n", m, i, 0);
    if i + |m| <= |p| {
      assert (p + "\r\n")[i..i + |m|] == p[i..i + |m|] == (p + "\r")[i..i + |m|];
    }
  }

  /** The position of a line break lies outside every match. */
  lemma BreakNotMatched(s: string, m: string, i: nat, at: nat)
    requires OneLine(m) && at < |s| && LineBreak(s[at])
    ensures MatchesAt(s, m, i) ==> at < i || at >= i + |m|
  {
    if MatchesAt(s, m, i) {
      forall k | 0 <= k < |m| ensures s[i + k] == m[k] && !LineBreak(s[i + k]) {
        assert s[i..i + |m|][k] == m[k] && m[k] in m;
      }
    }
  }

  lemma ContainsIgnoresTerminator(p: string, m: string)
    requires OneLine(m)
    ensures Contains(p + "\r\n", m) <==> Contains(p, m)
    ensures Contains(p + "\r", m) <==> Contains(p, m)
    ensures !Contains("\n", m)
  {
    forall i: nat
      ensures MatchesAt(p + "\r\n", m, i) <==> MatchesAt(p, m, i)
      ensures MatchesAt(p + "\r", m, i) <==> MatchesAt(p, m, i)
      ensures !MatchesAt("\n", m, i)
    {
      MatchesIgnoreTerminator(p, m, i);
    }
  }

  predicate WordAt(s: string, m: string, wordChar: char -> bool, i: nat) {
    && MatchesAt(s, m, i)
    && (i == 0 || !wordChar(s[i - 1]))
    && (i + |m| == |s| || !wordChar(s[i + |m|]))
  }

  lemma WordIgnoresTerminator(p: string, m: string, wordChar: char -> bool)
    requires OneLine(m) && !wordChar('\r') && !wordChar('\n')
    ensures ContainsWord(p + "\r\n", m, wordChar) <==> ContainsWord(p, m, wordChar)
    ensures ContainsWord(p + "\r", m, wordChar) <==> ContainsWord(p, m, wordChar)
    ensures !ContainsWord("\n", m, wordChar)
  {
    forall i: nat
      ensures WordAt(p + "\r\n", m, wordChar, i) <==> WordAt(p, m, wordChar, i)
      ensures WordAt(p + "\r", m, wordChar, i) <==> WordAt(p, m, wordChar, i)
      ensures !WordAt("\n", m, wordChar, i)
    {
      MatchesIgnoreTerminator(p, m, i);
    }
  }

  /** A carriage return, with or without its line feed, adds nothing to what a line shows. */
  lemma RecogniseIgnoresTerminator(p: string)
    ensures Recognise(p + "\r\n") == Recognise(p + "\r")
    ensures Recognise("\n") == NOTHING
  {
    NamesAreOneLine();
    var q := Lowered(p);
    assert Lowered(p + "\r\n") == q + "\r\n" && Lowered(p + "\r") == q + "\r" && Lowered("\n") == "\n";
    forall c: Category, k | 0 <= k < |Markers(c)|
      ensures Contains(q + "\r\n", Markers(c)[k]) <==> Contains(q + "\r", Markers(c)[k])
      ensures !Contains("\n", Markers(c)[k])
    {
      MarkersAreOneLine(c, k);
      ContainsIgnoresTerminator(q, Markers(c)[k]);
    }
    forall h | h in HOSTS
      ensures ContainsWord(q + "\r\n", h, HostChar) <==> ContainsWord(q + "\r", h, HostChar)
      ensures !ContainsWord("\n", h, HostChar)
    {
      WordIgnoresTerminator(q, h, HostChar);
    }
    forall x | x in INDEXES
      ensures ContainsWord(p + "\r\n", x, IndexChar) <==> ContainsWord(p + "\r", x, IndexChar)
      ensures !ContainsWord("\n", x, IndexChar)
    {
      WordIgnoresTerminator(p, x, IndexChar);
    }
  }

  // ----- Cutting a block into lines, terminators kept

  /** Length of the first line of a non-empty block, terminator included. */
  function LineEnd(s: string): (n: nat)
    requires s != ""
    ensures 1 <= n <= |s|
    decreases |s|
  {
    if s[0] == '\n' then 1
    else if s[0] == '\r' then if |s| > 1 && s[1] == '\n' then 2 else 1
    else if |s| == 1 then 1
    else 1 + LineEnd(s[1..])
  }

  predicate Complete(part: string) {
    part != "" && LineBreak(part[|part| - 1])
  }

  // ----- The state of a capture, and what one block does to it

  datatype State = State(
    raw: string, pending: string, discard: bool, seen: nat, truncated: bool, found: Found)
  {
    ghost predicate Valid() {
      && |raw| <= STREAM_LIMIT && |pending| <= LINE_LIMIT
      && (discard ==> pending == "")
    }
  }

  const FRESH := State("", "", false, 0, false, NOTHING)

  /** What a line shows; the theory of chunking holds for any recogniser. */
  type Recogniser = string -> Found

  /** One piece of a line, as cut by the block boundaries. */
  function TakePart(rec: Recogniser, st: State, part: string): State {
    var overflow := !st.discard && |st.pending| + |part| > LINE_LIMIT;
    var discard := st.discard || overflow;
    var pending := if st.discard then st.pending else if overflow then "" else st.pending + part;
    var truncated := st.truncated || overflow;
    if Complete(part) then
      State(st.raw, "", false, st.seen, truncated, if discard then st.found else st.found.Plus(rec(pending)))
    else
      State(st.raw, pending, discard, st.seen, truncated, st.found)
  }

  function TakeLines(rec: Recogniser, st: State, block: string): (r: State)
    ensures r.raw == st.raw && r.seen == st.seen
    decreases |block|
  {
    if block == "" then st
    else TakeLines(rec, TakePart(rec, st, block[..LineEnd(block)]), block[LineEnd(block)..])
  }

  /** The raw prefix and the counters. */
  function TakeRaw(st: State, block: string): (r: State)
    requires |st.raw| <= STREAM_LIMIT
    ensures |r.raw| <= STREAM_LIMIT
  {
    var remaining := STREAM_LIMIT - |st.raw|;
    st.(raw := st.raw + if |block| > remaining then block[..remaining] else block,
        seen := st.seen + |block|,
        truncated := st.truncated || |block| > remaining)
  }

  function Fed(rec: Recogniser, st: State, block: string): (r: State)
    requires |st.raw| <= STREAM_LIMIT
    ensures |r.raw| <= STREAM_LIMIT
  {
    TakeLines(rec, TakeRaw(st, block), block)
  }

  /** End of stream: a last line without terminator still counts. */
  function Finished(rec: Recogniser, st: State): State {
    st.(pending := "",
        found := if !st.discard && st.pending != "" then st.found.Plus(rec(st.pending)) else st.found)
  }

  class Capture {
    const rec: Recogniser
    var raw: string
    var pending: string
    var discardLine: bool
    var bytesSeen: nat
    var truncated: bool
    var categories: set<Category>
    var hosts: set<string>
    var indexes: set<string>

    ghost function Contents(): State
      reads this
    {
      State(raw, pending, discardLine, bytesSeen, truncated, Found(categories, hosts, indexes))
    }

    constructor ()
      ensures Contents() == FRESH && rec == Recognise
    {
      rec := Recognise;
      raw, pending, discardLine, bytesSeen, truncated := "", "", false, 0, false;
      categories, hosts, indexes := {}, {}, {};
    }

    method Line(line: string)
      modifies this`categories, this`hosts, this`indexes
      ensures Contents() == old(Contents()).(found := old(Contents()).found.Plus(rec(line)))
    {
      var shown := rec(line);
      categories := categories + shown.categories;
      hosts := hosts + shown.hosts;
      indexes := indexes + shown.indexes;
    }

    /** The loop body: one piece of a line. */
    method Part(part: string)
      requires part != ""
      modifies this
      ensures Contents() == TakePart(rec, old(Contents()), part)
    {
      var complete := part[|part| - 1] == '\n' || part[|part| - 1] == '\r';
      if !discardLine {
        if |pending| + |part| > LINE_LIMIT {
          pending := "";
          discardLine := true;
          truncated := true;
        } else {
          pending := pending + part;
        }
      }
      if complete {
        if !discardLine {
          Line(pending);
        }
        pending := "";
        discardLine := false;
      }
    }

    method Feed(block: string)
      requires |raw| <= STREAM_LIMIT
      modifies this
      ensures Contents() == Fed(rec, old(Contents()), block)
    {
      bytesSeen := bytesSeen + |block|;
      var remaining := STREAM_LIMIT - |raw|;
      raw := raw + if |block| > remaining then block[..remaining] else block;
      truncated := truncated || |block| > remaining;
      ghost var goal := TakeLines(rec, Contents(), block);
      var rest := block;
      while rest != ""
        invariant TakeLines(rec, Contents(), rest) == goal
        decreases |rest|
      {
        Part(rest[..LineEnd(rest)]);
        rest := rest[LineEnd(rest)..];
      }
    }

    method Finish()
      modifies this
      ensures Contents() == Finished(rec, old(Contents()))
    {
      if !discardLine && pending != "" {
        Line(pending);
      }
      pending := "";
    }
  }

  // ----- Chunking

  /** A cut between two blocks falls inside a CR LF pair. */
  predicate CutsPair(a: string, b: string) {
    a != "" && b != "" && a[|a| - 1] == '\r' && b[0] == '\n'
  }

  /** Where the first line of a concatenation ends. */
  lemma {:induction false} LineEndConcat(a: string, b: string)
    requires a != "" && !CutsPair(a, b)
    ensures LineBreak(a[LineEnd(a) - 1]) ==> LineEnd(a + b) == LineEnd(a)
    ensures !LineBreak(a[LineEnd(a) - 1]) ==> LineEnd(a) == |a| && LineEnd(a + b) == |a| + (if b == "" then 0 else LineEnd(b))
    decreases |a|
  {
    assert (a + b)[0] == a[0];
    if a[0] != '\n' && a[0] != '\r' {
      if |a| == 1 {
        assert (a + b)[1..] == b;
      } else {
        assert (a + b)[1..] == a[1..] + b;
        LineEndConcat(a[1..], b);
      }
    } else if a[0] == '\r' && |a| == 1 && b != "" {
      assert (a + b)[1] == b[0];
    } else if |a| > 1 {
      assert (a + b)[1] == a[1];
    }
  }

  /** Two pieces of one line have the effect of the line. */
  lemma PartsJoin(rec: Recogniser, st: State, t: string, h: string)
    requires st.Valid() && t != "" && h != "" && !Complete(t)
    ensures TakePart(rec, TakePart(rec, st, t), h) == TakePart(rec, st, t + h)
  {
    assert (t + h)[|t + h| - 1] == h[|h| - 1];
    assert st.pending + t + h == st.pending + (t + h);
  }

  lemma PartKeepsValid(rec: Recogniser, st: State, part: string)
    requires st.Valid()
    ensures TakePart(rec, st, part).Valid()
  {
  }

  lemma {:induction false} LinesKeepValid(rec: Recogniser, st: State, block: string)
    requires st.Valid()
    ensures TakeLines(rec, st, block).Valid()
    decreases |block|
  {
    if block != "" {
      PartKeepsValid(rec, st, block[..LineEnd(block)]);
      LinesKeepValid(rec, TakePart(rec, st, block[..LineEnd(block)]), block[LineEnd(block)..]);
    }
  }

  lemma TakeFirstLine(rec: Recogniser, st: State, block: string)
    requires block != ""
    ensures TakeLines(rec, st, block) == TakeLines(rec, TakePart(rec, st, block[..LineEnd(block)]), block[LineEnd(block)..])
  {
  }

  /** A block that starts with the line x. */
  lemma TakeLineThen(rec: Recogniser, st: State, x: string, y: string)
    requires x != "" && LineEnd(x + y) == |x|
    ensures TakeLines(rec, st, x + y) == TakeLines(rec, TakePart(rec, st, x), y)
  {
    TakeFirstLine(rec, st, x + y);
    assert (x + y)[..|x|] == x && (x + y)[|x|..] == y;
  }

  /** A last, unfinished line is continued by the first line of the next block. */
  lemma UnfinishedLineContinues(rec: Recogniser, st: State, a: string, first: string, rest: string)
    requires st.Valid() && a != "" && first != "" && !Complete(a) && LineEnd(a) == |a|
    requires LineEnd(first + rest) == |first| && LineEnd(a + first + rest) == |a + first|
    ensures TakeLines(rec, TakeLines(rec, st, a), first + rest) == TakeLines(rec, st, a + first + rest)
  {
    assert a + "" == a;
    TakeLineThen(rec, st, a, "");
    TakeLineThen(rec, TakePart(rec, st, a), first, rest);
    PartsJoin(rec, st, a, first);
    TakeLineThen(rec, st, a + first, rest);
  }

  lemma {:induction false} LinesConcat(rec: Recogniser, st: State, a: string, b: string)
    requires st.Valid() && !CutsPair(a, b)
    ensures TakeLines(rec, TakeLines(rec, st, a), b) == TakeLines(rec, st, a + b)
    decreases |a|
  {
    if a == "" || b == "" {
      assert a + b == if a == "" then b else a;
      return;
    }
    LineEndConcat(a, b);
    var n := LineEnd(a);
    if LineBreak(a[n - 1]) {
      var line, more := a[..n], a[n..];
      assert a == line + more && a + b == line + (more + b);
      TakeLineThen(rec, st, line, more);
      TakeLineThen(rec, st, line, more + b);
      PartKeepsValid(rec, st, line);
      RestCutsNoPair(a, b, n);
      LinesConcat(rec, TakePart(rec, st, line), more, b);
    } else {
      var first, rest := b[..LineEnd(b)], b[LineEnd(b)..];
      assert b == first + rest && a + b == a + first + rest;
      UnfinishedLineContinues(rec, st, a, first, rest);
    }
  }

  lemma RestCutsNoPair(a: string, b: string, n: nat)
    requires !CutsPair(a, b) && n <= |a|
    ensures !CutsPair(a[n..], b)
  {
  }

  /** The raw part never depends on chunking, and never touches the line part. */
  lemma RawConcat(st: State, a: string, b: string)
    requires st.Valid()
    ensures TakeRaw(TakeRaw(st, a), b) == TakeRaw(st, a + b)
    ensures TakeRaw(st, a).Valid()
  {
    var remaining := STREAM_LIMIT - |st.raw|;
    if |a| <= remaining {
      if |a + b| > remaining {
        assert (a + b)[..remaining] == a + b[..remaining - |a|];
      } else {
        assert st.raw + a + b == st.raw + (a + b);
      }
    } else {
      assert (a + b)[..remaining] == a[..remaining];
      assert b[..0] == "";
    }
  }

  lemma RawCommutesWithPart(rec: Recogniser, st: State, x: string, part: string)
    requires st.Valid()
    ensures TakePart(rec, st, part).raw == st.raw
    ensures TakeRaw(TakePart(rec, st, part), x) == TakePart(rec, TakeRaw(st, x), part)
  {
  }

  lemma {:induction false} RawCommutes(rec: Recogniser, st: State, x: string, block: string)
    requires st.Valid()
    ensures TakeLines(rec, st, block).raw == st.raw
    ensures TakeRaw(TakeLines(rec, st, block), x) == TakeLines(rec, TakeRaw(st, x), block)
    decreases |block|
  {
    if block != "" {
      var part, rest := block[..LineEnd(block)], block[LineEnd(block)..];
      PartKeepsValid(rec, st, part);
      RawCommutesWithPart(rec, st, x, part);
      TakeFirstLine(rec, st, block);
      TakeFirstLine(rec, TakeRaw(st, x), block);
      RawCommutes(rec, TakePart(rec, st, part), x, rest);
    }
  }

  /** Feeding two blocks is feeding their concatenation, unless the cut splits a CR LF pair. */
  lemma FeedConcat(rec: Recogniser, st: State, a: string, b: string)
    requires st.Valid() && !CutsPair(a, b)
    ensures Fed(rec, st, a).Valid()
    ensures Fed(rec, Fed(rec, st, a), b) == Fed(rec, st, a + b)
  {
    RawConcat(st, a, b);
    LinesKeepValid(rec, TakeRaw(st, a), a);
    RawCommutes(rec, TakeRaw(st, a), b, a);
    RawConcat(TakeRaw(st, a), b, "");
    LinesConcat(rec, TakeRaw(TakeRaw(st, a), b), a, b);
  }

  function Concat(blocks: seq<string>): string {
    if blocks == [] then "" else blocks[0] + Concat(blocks[1..])
  }

  function FedAll(rec: Recogniser, st: State, blocks: seq<string>): State
    requires st.Valid()
    decreases |blocks|
  {
    if blocks == [] then st
    else
      FeedConcat(rec, st, blocks[0], "");
      FedAll(rec, Fed(rec, st, blocks[0]), blocks[1..])
  }

  ghost predicate NoPairCut(blocks: seq<string>) {
    blocks == [] || (!CutsPair(blocks[0], Concat(blocks[1..])) && NoPairCut(blocks[1..]))
  }

  /** Any way of cutting a stream that keeps its CR LF pairs whole leaves the same capture. */
  lemma {:induction false} ChunkingIsIrrelevant(rec: Recogniser, st: State, blocks: seq<string>)
    requires st.Valid() && NoPairCut(blocks)
    ensures FedAll(rec, st, blocks) == Fed(rec, st, Concat(blocks))
    decreases |blocks|
  {
    if blocks == [] {
      assert st.raw + "" == st.raw;
    } else {
      FeedConcat(rec, st, blocks[0], "");
      ChunkingIsIrrelevant(rec, Fed(rec, st, blocks[0]), blocks[1..]);
      FeedConcat(rec, st, blocks[0], Concat(blocks[1..]));
    }
  }

  lemma {:induction false} NoReturnsNoPairs(blocks: seq<string>)
    requires '\r' !in Concat(blocks)
    ensures NoPairCut(blocks)
    decreases |blocks|
  {
    if blocks != [] { NoReturnsNoPairs(blocks[1..]); }
  }

  /** In particular no cut matters in a stream without carriage returns. */
  lemma ChunkingWithoutReturns(rec: Recogniser, st: State, blocks: seq<string>)
    requires st.Valid() && '\r' !in Concat(blocks)
    ensures FedAll(rec, st, blocks) == Fed(rec, st, Concat(blocks))
  {
    NoReturnsNoPairs(blocks);
    ChunkingIsIrrelevant(rec, st, blocks);
  }

  // ----- The whole stream at once

  function LineFound(rec: Recogniser, line: string): Found {
    if |line| <= LINE_LIMIT then rec(line) else NOTHING
  }

  /** What the lines of a stream show; overlong lines show nothing. */
  function StreamFound(rec: Recogniser, s: string): Found
    decreases |s|
  {
    if s == "" then NOTHING else LineFound(rec, s[..LineEnd(s)]).Plus(StreamFound(rec, s[LineEnd(s)..]))
  }

  /** The same of the completed lines only: what follows the last terminator has not been looked at yet. */
  function CompletedFound(rec: Recogniser, s: string): Found
    decreases |s|
  {
    if s == "" then NOTHING
    else
      var line := s[..LineEnd(s)];
      (if Complete(line) then LineFound(rec, line) else NOTHING).Plus(CompletedFound(rec, s[LineEnd(s)..]))
  }

  predicate AnyOverlong(s: string)
    decreases |s|
  {
    s != "" && (LineEnd(s) > LINE_LIMIT || AnyOverlong(s[LineEnd(s)..]))
  }

  lemma PlusLaws(a: Found, b: Found, c: Found)
    ensures a.Plus(b).Plus(c) == a.Plus(b.Plus(c))
    ensures a.Plus(NOTHING) == a && NOTHING.Plus(a) == a
  {
  }

  /** A whole line taken between lines. */
  lemma WholeLine(rec: Recogniser, st: State, line: string)
    requires st.Valid() && st.pending == "" && !st.discard && line != ""
    ensures Complete(line) ==>
      && TakePart(rec, st, line).Valid()
      && TakePart(rec, st, line).pending == "" && !TakePart(rec, st, line).discard
      && TakePart(rec, st, line).found == st.found.Plus(LineFound(rec, line))
    ensures !Complete(line) ==> TakePart(rec, st, line).found == st.found
    ensures !Complete(line) ==> Finished(rec, TakePart(rec, st, line)).found == st.found.Plus(LineFound(rec, line))
    ensures TakePart(rec, st, line).truncated == (st.truncated || |line| > LINE_LIMIT)
    ensures TakePart(rec, st, line).raw == st.raw && TakePart(rec, st, line).seen == st.seen
  {
    assert "" + line == line;
    PlusLaws(st.found, NOTHING, NOTHING);
  }

  ghost predicate Summarised(rec: Recogniser, st: State, s: string, end: State) {
    && end.raw == st.raw && end.seen == st.seen
    && end.truncated == (st.truncated || AnyOverlong(s))
    && end.found == st.found.Plus(StreamFound(rec, s))
  }

  lemma {:induction false} LinesSummarised(rec: Recogniser, st: State, s: string)
    requires st.Valid() && st.pending == "" && !st.discard
    ensures Summarised(rec, st, s, Finished(rec, TakeLines(rec, st, s)))
    decreases |s|
  {
    if s == "" {
      PlusLaws(st.found, NOTHING, NOTHING);
    } else {
      var line, rest := s[..LineEnd(s)], s[LineEnd(s)..];
      TakeFirstLine(rec, st, s);
      WholeLine(rec, st, line);
      PlusLaws(st.found, LineFound(rec, line), StreamFound(rec, rest));
      if Complete(line) {
        PartKeepsValid(rec, st, line);
        LinesSummarised(rec, TakePart(rec, st, line), rest);
      } else {
        OnlyLastLineUnfinished(s);
        PlusLaws(st.found.Plus(LineFound(rec, line)), NOTHING, NOTHING);
        assert rest == "";
      }
    }
  }

  /** The same before the last line is finished. */
  lemma {:induction false} LinesCompleted(rec: Recogniser, st: State, s: string)
    requires st.Valid() && st.pending == "" && !st.discard
    ensures TakeLines(rec, st, s).truncated == (st.truncated || AnyOverlong(s))
    ensures TakeLines(rec, st, s).found == st.found.Plus(CompletedFound(rec, s))
    decreases |s|
  {
    if s == "" {
      PlusLaws(st.found, NOTHING, NOTHING);
    } else {
      var line, rest := s[..LineEnd(s)], s[LineEnd(s)..];
      TakeFirstLine(rec, st, s);
      WholeLine(rec, st, line);
      if Complete(line) {
        PlusLaws(st.found, LineFound(rec, line), CompletedFound(rec, rest));
        PartKeepsValid(rec, st, line);
        LinesCompleted(rec, TakePart(rec, st, line), rest);
      } else {
        OnlyLastLineUnfinished(s);
        PlusLaws(st.found, NOTHING, NOTHING);
        assert rest == "";
      }
    }
  }

  lemma {:induction false} OnlyLastLineUnfinished(s: string)
    requires s != "" && !LineBreak(s[LineEnd(s) - 1])
    ensures LineEnd(s) == |s|
    decreases |s|
  {
    if s[0] != '\n' && s[0] != '\r' && |s| > 1 { OnlyLastLineUnfinished(s[1..]); }
  }

  /** The capture of a whole stream, stated without blocks, buffers or discard flags. */
  lemma CaptureSummarisesStream(rec: Recogniser, s: string)
    ensures Summarised(rec, State(RawPrefix(s), "", false, |s|, |s| > STREAM_LIMIT, NOTHING), s,
                       Finished(rec, Fed(rec, FRESH, s)))
  {
    FreshRaw(s);
    LinesSummarised(rec, TakeRaw(FRESH, s), s);
  }

  function RawPrefix(s: string): string {
    if |s| > STREAM_LIMIT then s[..STREAM_LIMIT] else s
  }

  lemma FreshRaw(s: string)
    ensures TakeRaw(FRESH, s) == State(RawPrefix(s), "", false, |s|, |s| > STREAM_LIMIT, NOTHING)
  {
    assert "" + RawPrefix(s) == RawPrefix(s);
  }

  // ----- The one cut that can matter

  /**
    Inside a CR LF pair, with the line up to its CR filling the limit exactly: the pair in one
    piece is one byte too long, in two pieces it is a full line and an empty one.
   */
  predicate CutsAtLimit(rec: Recogniser, st: State, a: string, b: string)
    requires st.Valid()
  {
    CutsPair(a, b) && !LineStart(rec, st, a).discard && |LineStart(rec, st, a).pending| + 1 == LINE_LIMIT
  }

  /** The capture just before the carriage return that ends a block. */
  function LineStart(rec: Recogniser, st: State, a: string): State
    requires st.Valid() && a != ""
  {
    Fed(rec, st, a[..|a| - 1])
  }

  lemma TakeLinesShort(rec: Recogniser, st: State)
    ensures TakeLines(rec, st, "\r") == TakePart(rec, st, "\r")
    ensures TakeLines(rec, st, "\n") == TakePart(rec, st, "\n")
    ensures TakeLines(rec, st, "\r\n") == TakePart(rec, st, "\r\n")
  {
    assert "\r"[..1] == "\r" && "\r"[1..] == "";
    assert "\n"[..1] == "\n" && "\n"[1..] == "";
    assert "\r\n"[..2] == "\r\n" && "\r\n"[2..] == "";
  }

  /** A recogniser for which the terminator of a line is not part of what it shows. */
  ghost predicate TerminatorBlind(rec: Recogniser) {
    rec("\n") == NOTHING && forall p: string :: rec(p + "\r\n") == rec(p + "\r")
  }

  lemma RecogniseIsTerminatorBlind()
    ensures TerminatorBlind(Recognise)
  {
    RecogniseIgnoresTerminator("");
    forall p: string ensures Recognise(p + "\r\n") == Recognise(p + "\r") {
      RecogniseIgnoresTerminator(p);
    }
  }

  ghost function PairInOne(rec: Recogniser, st: State): State {
    TakePart(rec, st, "\r\n")
  }

  ghost function PairInTwo(rec: Recogniser, st: State): State {
    TakePart(rec, TakePart(rec, st, "\r"), "\n")
  }

  /** The pair by itself: only a line that fills the limit with its CR tells the cuts apart. */
  lemma PairCut(rec: Recogniser, st: State)
    requires st.Valid() && TerminatorBlind(rec)
    ensures st.discard || |st.pending| + 1 != LINE_LIMIT ==> PairInOne(rec, st) == PairInTwo(rec, st)
    ensures !st.discard && |st.pending| + 1 == LINE_LIMIT ==>
      PairInOne(rec, st) == PairInTwo(rec, st).(truncated := true, found := st.found)
    ensures !st.discard && |st.pending| + 1 == LINE_LIMIT ==>
      PairInTwo(rec, st) == st.(pending := "", found := st.found.Plus(rec(st.pending + "\r")))
  {
    var line := st.pending + "\r";
    assert "" + "\n" == "\n";
    PlusLaws(st.found.Plus(rec(line)), NOTHING, NOTHING);
    PlusLaws(st.found, NOTHING, NOTHING);
    assert rec(st.pending + "\r\n") == rec(st.pending + "\r");
  }

  /** Feeding differs from feeding at once in nothing but what the pair changed. */
  lemma {:induction false} LinesAddOn(rec: Recogniser, st: State, truncated: bool, extra: Found, s: string)
    requires st.Valid()
    ensures TakeLines(rec, st.(truncated := st.truncated || truncated, found := st.found.Plus(extra)), s)
         == TakeLines(rec, st, s).(truncated := TakeLines(rec, st, s).truncated || truncated,
                                   found := TakeLines(rec, st, s).found.Plus(extra))
    decreases |s|
  {
    if s != "" {
      var other := st.(truncated := st.truncated || truncated, found := st.found.Plus(extra));
      var part, rest := s[..LineEnd(s)], s[LineEnd(s)..];
      TakeFirstLine(rec, st, s);
      TakeFirstLine(rec, other, s);
      PartKeepsValid(rec, st, part);
      PartAddsOn(rec, st, truncated, extra, part);
      LinesAddOn(rec, TakePart(rec, st, part), truncated, extra, rest);
    }
  }

  lemma PartAddsOn(rec: Recogniser, st: State, truncated: bool, extra: Found, part: string)
    requires st.Valid()
    ensures TakePart(rec, st.(truncated := st.truncated || truncated, found := st.found.Plus(extra)), part)
         == TakePart(rec, st, part).(truncated := TakePart(rec, st, part).truncated || truncated,
                                     found := TakePart(rec, st, part).found.Plus(extra))
  {
  }

  /** Both ways of feeding a cut pair, reduced to the pair and what follows it. */
  lemma PairReduced(rec: Recogniser, st: State, a: string, b: string)
    requires st.Valid() && CutsPair(a, b)
    ensures var t := TakeRaw(LineStart(rec, st, a), "\r" + b);
      && t.Valid()
      && Fed(rec, st, a + b) == TakeLines(rec, PairInOne(rec, t), b[1..])
      && Fed(rec, Fed(rec, st, a), b) == TakeLines(rec, PairInTwo(rec, t), b[1..])
  {
    var pre, rest := a[..|a| - 1], b[1..];
    assert a == pre + "\r" && b == "\n" + rest && a + b == pre + ("\r" + b) && "\r" + b == "\r\n" + rest;
    FeedConcat(rec, st, pre, "\r" + b);
    FeedConcat(rec, st, pre, "\r");
    var u := Fed(rec, st, pre);
    var t := TakeRaw(u, "\r" + b);
    RawConcat(u, "\r" + b, "");
    RawConcat(u, "\r", b);
    TakeLinesShort(rec, t);
    LinesConcat(rec, t, "\r\n", rest);
    var v := TakeRaw(u, "\r");
    TakeLinesShort(rec, v);
    RawCommutesWithPart(rec, v, b, "\r");
    PartKeepsValid(rec, t, "\r");
    TakeLinesShort(rec, TakePart(rec, t, "\r"));
    LinesConcat(rec, TakePart(rec, t, "\r"), "\n", rest);
  }

  /**
    What the cut adds is lost in what comes after it: the capture is truncated anyway, by the raw limit or
    by an overlong later line, and the cut line shows nothing that is not shown as well.
   */
  predicate Hidden(rec: Recogniser, start: State, b: string, shown: Found)
    requires b != "" && |start.raw| <= STREAM_LIMIT
  {
    && (TakeRaw(start, "\r" + b).truncated || AnyOverlong(b[1..]))
    && start.found.Plus(rec(start.pending + "\r")).Plus(shown) == start.found.Plus(shown)
  }

  /**
    When a cut does not matter, exactly: it keeps the pair whole, or the line does not fill the limit with
    its CR, or the rest of the stream hides the difference; for the capture as it goes on the completed
    lines of the rest do, and for the final one all of its lines.
   */
  lemma ChunkingExactly(rec: Recogniser, st: State, a: string, b: string)
    requires st.Valid() && TerminatorBlind(rec)
    ensures Fed(rec, Fed(rec, st, a), b) == Fed(rec, st, a + b)
      <==> !CutsAtLimit(rec, st, a, b) || Hidden(rec, LineStart(rec, st, a), b, CompletedFound(rec, b[1..]))
    ensures Finished(rec, Fed(rec, Fed(rec, st, a), b)) == Finished(rec, Fed(rec, st, a + b))
      <==> !CutsAtLimit(rec, st, a, b) || Hidden(rec, LineStart(rec, st, a), b, StreamFound(rec, b[1..]))
  {
    if !CutsPair(a, b) {
      FeedConcat(rec, st, a, b);
    } else {
      PairReduced(rec, st, a, b);
      var t := TakeRaw(LineStart(rec, st, a), "\r" + b);
      PairCut(rec, t);
      if CutsAtLimit(rec, st, a, b) {
        CutAtLimit(rec, t, b[1..]);
      }
    }
  }

  /** The two ways of feeding the pair differ in the truncation and in what is found, and in nothing else. */
  lemma CutAtLimit(rec: Recogniser, t: State, rest: string)
    requires t.Valid() && TerminatorBlind(rec) && !t.discard && |t.pending| + 1 == LINE_LIMIT
    ensures var one, two := TakeLines(rec, PairInOne(rec, t), rest), TakeLines(rec, PairInTwo(rec, t), rest);
      var line := rec(t.pending + "\r");
      && one == two.(truncated := true, found := t.found.Plus(CompletedFound(rec, rest)))
      && two.truncated == (t.truncated || AnyOverlong(rest))
      && two.found == t.found.Plus(line).Plus(CompletedFound(rec, rest))
      && Finished(rec, one) == Finished(rec, two).(truncated := true, found := t.found.Plus(StreamFound(rec, rest)))
      && Finished(rec, two).found == t.found.Plus(line).Plus(StreamFound(rec, rest))
  {
    var line := rec(t.pending + "\r");
    var base := t.(pending := "");
    PairCut(rec, t);
    PlusLaws(t.found, NOTHING, NOTHING);
    LinesAddOn(rec, base, true, NOTHING, rest);
    LinesAddOn(rec, base, false, line, rest);
    PlusLaws(TakeLines(rec, base, rest).found, NOTHING, NOTHING);
    LinesCompleted(rec, PairInOne(rec, t), rest);
    LinesCompleted(rec, PairInTwo(rec, t), rest);
    LinesSummarised(rec, PairInOne(rec, t), rest);
    LinesSummarised(rec, PairInTwo(rec, t), rest);
  }

  /** The difference is real: 4095 characters and a CR, then the LF. */
  lemma CutAtLimitDiffers(rec: Recogniser)
    requires TerminatorBlind(rec)
    ensures var a := seq(LINE_LIMIT - 1, i => 'x') + "\r";
      !Fed(rec, Fed(rec, FRESH, a), "\n").truncated && Fed(rec, FRESH, a + "\n").truncated
  {
    var x := seq(LINE_LIMIT - 1, i => 'x');
    var a := x + "\r";
    assert a[..|a| - 1] == x;
    OneUnbrokenLine(x);
    var start := LineStart(rec, FRESH, a);
    TakeFirstLine(rec, TakeRaw(FRESH, x), x);
    assert x[..|x|] == x && x[|x|..] == "";
    assert start == TakePart(rec, TakeRaw(FRESH, x), x);
    assert "" + x == x;
    assert start.pending == x && !start.truncated;
    PairReduced(rec, FRESH, a, "\n");
    var t := TakeRaw(start, "\r" + "\n");
    PairCut(rec, t);
    assert "\n"[1..] == "";
  }

  lemma {:induction false} OneUnbrokenLine(x: string)
    requires x != "" && forall i :: 0 <= i < |x| ==> !LineBreak(x[i])
    ensures LineEnd(x) == |x|
    decreases |x|
  {
    if |x| > 1 { OneUnbrokenLine(x[1..]); }
  }
}
