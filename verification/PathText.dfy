/**
  Paths as text: components joined by a separator, and cut at it.
 */
module PathText {

  /** "/".join(parts) */
  function Join(parts: seq<string>): string {
    if parts == [] then ""
    else if |parts| == 1 then parts[0]
    else parts[0] + "/" + Join(parts[1..])
  }

  function SplitAt(s: string, separator: char): (r: seq<string>)
    ensures |r| >= 1
    ensures forall i :: 0 <= i < |r| ==> separator !in r[i]
  {
    if s == "" then [""]
    else
      var rest := SplitAt(s[1..], separator);
      if s[0] == separator then [""] + rest else [[s[0]] + rest[0]] + rest[1..]
  }

  /** Splitting at separators loses nothing. */
  lemma {:induction false} JoinOfSplit(s: string)
    ensures Join(SplitAt(s, '/')) == s
  {
    if s != "" {
      JoinOfSplit(s[1..]);
      var rest := SplitAt(s[1..], '/');
      assert s == [s[0]] + s[1..];
      if s[0] != '/' && |rest| > 1 {
        assert ([[s[0]] + rest[0]] + rest[1..])[1..] == rest[1..];
        assert [s[0]] + rest[0] + "/" + Join(rest[1..]) == [s[0]] + (rest[0] + "/" + Join(rest[1..]));
      }
      if s[0] == '/' {
        assert ([""] + rest)[1..] == rest;
      }
    }
  }

  /** A list of separator-free components is what its text splits into. */
  lemma {:induction false} SplitOfJoin(parts: seq<string>)
    requires parts != [] && forall i :: 0 <= i < |parts| ==> '/' !in parts[i]
    ensures SplitAt(Join(parts), '/') == parts
  {
    if |parts| == 1 {
      SplitPlain(parts[0]);
    } else {
      SplitOfJoin(parts[1..]);
      SplitHead(parts[0], Join(parts[1..]));
    }
  }

  lemma {:induction false} SplitPlain(s: string)
    requires '/' !in s
    ensures SplitAt(s, '/') == [s]
  {
    if s != "" {
      assert s[0] in s;
      SplitPlain(s[1..]);
      assert s == [s[0]] + s[1..];
    }
  }

  lemma {:induction false} SplitHead(head: string, rest: string)
    requires '/' !in head
    ensures SplitAt(head + "/" + rest, '/') == [head] + SplitAt(rest, '/')
  {
    var s := head + "/" + rest;
    if head == "" {
      assert s[1..] == rest;
    } else {
      assert head[0] in head;
      SplitHead(head[1..], rest);
      assert s[1..] == head[1..] + "/" + rest;
      assert head == [head[0]] + head[1..];
    }
  }
}
