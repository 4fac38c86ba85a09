/**
  The seen-sets of the host's loops: the image of a list under a key, and distinctness of keys.
 */
module Collections {
  import opened Ordering

  function Map<T, U>(f: T -> U, xs: seq<T>): (r: seq<U>)
    ensures |r| == |xs| && forall k :: 0 <= k < |xs| ==> r[k] == f(xs[k])
  {
    if xs == [] then [] else Map(f, xs[..|xs| - 1]) + [f(xs[|xs| - 1])]
  }

  lemma MapOneMore<T, U>(f: T -> U, xs: seq<T>, n: nat)
    requires n < |xs|
    ensures Map(f, xs[..n + 1]) == Map(f, xs[..n]) + [f(xs[n])]
  {
    assert xs[..n + 1][..n] == xs[..n];
  }

  function Images<T, U(==)>(f: T -> U, xs: seq<T>): set<U> {
    if xs == [] then {} else Images(f, xs[..|xs| - 1]) + {f(xs[|xs| - 1])}
  }

  ghost predicate Distinct<T, U>(f: T -> U, xs: seq<T>) {
    forall i, j :: 0 <= i < j < |xs| ==> f(xs[i]) != f(xs[j])
  }

  lemma {:induction false} InImages<T, U>(f: T -> U, xs: seq<T>, u: U)
    ensures u in Images(f, xs) <==> exists k :: 0 <= k < |xs| && f(xs[k]) == u
    decreases |xs|
  {
    if xs != [] {
      var front, last := xs[..|xs| - 1], |xs| - 1;
      InImages(f, front, u);
      if u in Images(f, front) {
        var k :| 0 <= k < |front| && f(front[k]) == u;
        assert f(xs[k]) == u;
      } else if f(xs[last]) != u {
        forall k | 0 <= k < |xs| ensures f(xs[k]) != u {
          if k < last { assert front[k] == xs[k]; }
        }
      }
    }
  }

  /** The image of the first `n + 1` elements. */
  lemma ImagesOneMore<T, U>(f: T -> U, xs: seq<T>, n: nat)
    requires n < |xs|
    ensures Images(f, xs[..n + 1]) == Images(f, xs[..n]) + {f(xs[n])}
  {
    assert xs[..n + 1][..n] == xs[..n];
  }

  /** The keys stay distinct exactly when the next one has not been seen. */
  lemma DistinctOneMore<T, U>(f: T -> U, xs: seq<T>, n: nat)
    requires n < |xs|
    ensures Distinct(f, xs[..n + 1]) <==> Distinct(f, xs[..n]) && f(xs[n]) !in Images(f, xs[..n])
    ensures Distinct(f, xs) ==> Distinct(f, xs[..n + 1])
  {
    var front, longer := xs[..n], xs[..n + 1];
    InImages(f, front, f(xs[n]));
    assert forall k :: 0 <= k < n ==> longer[k] == front[k] && front[k] == xs[k];
    assert longer[n] == xs[n];
    if Distinct(f, front) && f(xs[n]) !in Images(f, front) {
      forall i, j | 0 <= i < j < |longer| ensures f(longer[i]) != f(longer[j]) {
        if j == n { assert f(front[i]) != f(xs[n]); }
      }
    }
  }

  /** Keys of a list are distinct whatever its order. */
  lemma {:induction false} DistinctPermuted<T, U>(f: T -> U, a: seq<T>, b: seq<T>)
    requires multiset(a) == multiset(b)
    ensures Distinct(f, a) <==> Distinct(f, b)
  {
    if Distinct(f, a) { DistinctAlong(f, a, b); }
    if Distinct(f, b) { DistinctAlong(f, b, a); }
  }

  lemma DistinctAlong<T, U>(f: T -> U, a: seq<T>, b: seq<T>)
    requires multiset(a) == multiset(b) && Distinct(f, a)
    ensures Distinct(f, b)
  {
    forall i, j | 0 <= i < j < |b| ensures f(b[i]) != f(b[j]) {
      if f(b[i]) == f(b[j]) {
        assert b[i] in multiset(b) && b[j] in multiset(b);
        assert b[i] in a && b[j] in a;
        SameKeySame(f, a, b[i], b[j]);
        Twice(b, i, j);
        Once(f, a, b[i]);
      }
    }
  }

  lemma SameKeySame<T, U>(f: T -> U, xs: seq<T>, x: T, y: T)
    requires Distinct(f, xs) && x in xs && y in xs && f(x) == f(y)
    ensures x == y
  {
  }

  lemma Twice<T>(xs: seq<T>, i: nat, j: nat)
    requires i < j < |xs| && xs[i] == xs[j]
    ensures multiset(xs)[xs[i]] >= 2
  {
    assert xs == xs[..j] + [xs[j]] + xs[j + 1..];
    assert xs[..j] == xs[..i] + [xs[i]] + xs[i + 1..j];
  }

  lemma {:induction false} Once<T, U>(f: T -> U, xs: seq<T>, x: T)
    requires Distinct(f, xs)
    ensures multiset(xs)[x] <= 1
    decreases |xs|
  {
    if xs != [] {
      var front, last := xs[..|xs| - 1], xs[|xs| - 1];
      assert xs == front + [last];
      Once(f, front, x);
      if x == last {
        assert x !in front;
        assert x !in multiset(front);
      }
    }
  }

  lemma SameMembers<T>(a: seq<T>, b: seq<T>, x: T)
    requires multiset(a) == multiset(b)
    ensures x in a <==> x in b
  {
    assert x in a <==> x in multiset(a);
    assert x in b <==> x in multiset(b);
  }

  /** The keys a list has do not depend on its order. */
  lemma ImagesAlong<T, U>(f: T -> U, a: seq<T>, b: seq<T>, u: U)
    requires multiset(a) == multiset(b)
    ensures u in Images(f, a) ==> u in Images(f, b)
  {
    InImages(f, a, u);
    InImages(f, b, u);
    if u in Images(f, a) {
      var i :| 0 <= i < |a| && f(a[i]) == u;
      SameMembers(a, b, a[i]);
      var k :| 0 <= k < |b| && b[k] == a[i];
      assert f(b[k]) == u;
    }
  }

  /** A list stays ascending when its next element sorts after its last one. */
  lemma AscendingOneMore<T>(xs: seq<T>, x: T, key: T -> Key)
    ensures Ascending(xs + [x], key)
      <==> Ascending(xs, key) && (xs != [] ==> KeyBefore(key(xs[|xs| - 1]), key(x)))
  {
    var longer := xs + [x];
    if Ascending(longer, key) {
      assert forall k :: 0 <= k < |xs| ==> longer[k] == xs[k];
      assert xs != [] ==> KeyBefore(key(longer[|xs| - 1]), key(longer[|xs|]));
    } else if Ascending(xs, key) && xs != [] && KeyBefore(key(xs[|xs| - 1]), key(x)) {
      forall i, j | 0 <= i < j < |longer| ensures KeyBefore(key(longer[i]), key(longer[j])) {
        if j == |xs| && i < |xs| - 1 {
          KeyTransitive(key(xs[i]), key(xs[|xs| - 1]), key(x));
        }
      }
    }
  }

  lemma AscendingPrefix<T>(xs: seq<T>, n: nat, key: T -> Key)
    requires n <= |xs| && Ascending(xs, key)
    ensures Ascending(xs[..n], key)
  {
  }

  /** A member of a list is a member of every reordering. */
  lemma Elsewhere<T>(a: seq<T>, b: seq<T>, i: nat) returns (k: nat)
    requires multiset(a) == multiset(b) && i < |a|
    ensures k < |b| && b[k] == a[i]
  {
    assert a[i] in multiset(b);
    k :| 0 <= k < |b| && b[k] == a[i];
  }
}
