/**
  The order in which every inventory, manifest and checksum set is written.

  The host code sorts by the UTF-8 encoding of a string.  UTF-8 keeps code point order, so the
  model compares strings code point by code point, and tuples of strings component by component.
 */
module Ordering {

  type Key = seq<string>

  /** `a` sorts strictly before `b`. */
  predicate Before(a: string, b: string) {
    b != [] && (a == [] || a[0] < b[0] || (a[0] == b[0] && Before(a[1..], b[1..])))
  }

  /** Up to `k` the strings agree, and there `a` ends or has the smaller character. */
  predicate SmallerAt(a: string, b: string, k: nat) {
    k <= |a| && k < |b| && a[..k] == b[..k] && (k == |a| || a[k] < b[k])
  }

  /** One string sorts before another when it is a proper prefix, or smaller at the first difference. */
  lemma {:induction false} BeforeMeans(a: string, b: string)
    ensures Before(a, b) <==> exists k: nat :: SmallerAt(a, b, k)
    decreases |a|
  {
    if a != [] && b != [] && a[0] == b[0] {
      BeforeMeans(a[1..], b[1..]);
      if k: nat :| SmallerAt(a[1..], b[1..], k) {
        SmallerLater(a, b, k);
      }
      if k: nat :| SmallerAt(a, b, k) {
        SmallerEarlier(a, b, k);
      }
    } else if Before(a, b) {
      assert SmallerAt(a, b, 0);
    } else if k: nat :| SmallerAt(a, b, k) {
      FirstAgrees(a, b, k);
    }
  }

  lemma FirstAgrees(a: string, b: string, k: nat)
    requires SmallerAt(a, b, k)
    ensures k > 0 ==> a != [] && b != [] && a[0] == b[0]
  {
    if k > 0 { assert a[..k][0] == a[0] && b[..k][0] == b[0]; }
  }

  lemma SmallerLater(a: string, b: string, k: nat)
    requires a != [] && b != [] && a[0] == b[0] && SmallerAt(a[1..], b[1..], k)
    ensures SmallerAt(a, b, k + 1)
  {
    assert a[..k + 1] == [a[0]] + a[1..][..k] && b[..k + 1] == [b[0]] + b[1..][..k];
  }

  lemma SmallerEarlier(a: string, b: string, k: nat)
    requires a != [] && b != [] && a[0] == b[0] && SmallerAt(a, b, k)
    ensures k > 0 && SmallerAt(a[1..], b[1..], k - 1)
  {
    if k > 0 {
      assert a[1..][..k - 1] == a[..k][1..] && b[1..][..k - 1] == b[..k][1..];
    }
  }

  lemma {:induction false} BeforeIrreflexive(a: string)
    ensures !Before(a, a)
  {
    if a != [] { BeforeIrreflexive(a[1..]); }
  }

  lemma {:induction false} BeforeTransitive(a: string, b: string, c: string)
    requires Before(a, b) && Before(b, c)
    ensures Before(a, c)
  {
    if a != [] && a[0] == b[0] && b[0] == c[0] { BeforeTransitive(a[1..], b[1..], c[1..]); }
  }

  lemma {:induction false} BeforeTotal(a: string, b: string)
    ensures Before(a, b) || a == b || Before(b, a)
  {
    if a != [] && b != [] && a[0] == b[0] {
      BeforeTotal(a[1..], b[1..]);
      if a[1..] == b[1..] { assert a == [a[0]] + a[1..] && b == [b[0]] + b[1..]; }
    }
  }

  /** Tuple order. */
  predicate KeyBefore(a: Key, b: Key) {
    b != [] && (a == [] || Before(a[0], b[0]) || (a[0] == b[0] && KeyBefore(a[1..], b[1..])))
  }

  lemma {:induction false} KeyIrreflexive(a: Key)
    ensures !KeyBefore(a, a)
  {
    if a != [] {
      BeforeIrreflexive(a[0]);
      KeyIrreflexive(a[1..]);
    }
  }

  lemma {:induction false} KeyTransitive(a: Key, b: Key, c: Key)
    requires KeyBefore(a, b) && KeyBefore(b, c)
    ensures KeyBefore(a, c)
  {
    if a != [] {
      if Before(a[0], b[0]) && Before(b[0], c[0]) {
        BeforeTransitive(a[0], b[0], c[0]);
      } else if a[0] == b[0] && b[0] == c[0] {
        KeyTransitive(a[1..], b[1..], c[1..]);
      }
    }
  }

  lemma {:induction false} KeyTotal(a: Key, b: Key)
    ensures KeyBefore(a, b) || a == b || KeyBefore(b, a)
  {
    if a != [] && b != [] {
      BeforeTotal(a[0], b[0]);
      if a[0] == b[0] {
        KeyTotal(a[1..], b[1..]);
        if a[1..] == b[1..] { assert a == [a[0]] + a[1..] && b == [b[0]] + b[1..]; }
      }
    }
  }

  /** Non-descending, as a stable sort leaves a list. */
  ghost predicate Sorted<T>(xs: seq<T>, key: T -> Key) {
    forall i, j :: 0 <= i < j < |xs| ==> !KeyBefore(key(xs[j]), key(xs[i]))
  }

  /** Ascending without repeats. */
  ghost predicate Ascending<T>(xs: seq<T>, key: T -> Key) {
    forall i, j :: 0 <= i < j < |xs| ==> KeyBefore(key(xs[i]), key(xs[j]))
  }

  function Insert<T>(x: T, xs: seq<T>, key: T -> Key): (r: seq<T>)
    ensures multiset(r) == multiset{x} + multiset(xs)
  {
    if xs == [] then [x]
    else if KeyBefore(key(xs[0]), key(x)) then
      assert xs == [xs[0]] + xs[1..];
      [xs[0]] + Insert(x, xs[1..], key)
    else [x] + xs
  }

  /** The stable sort by key of the host language. */
  function SortBy<T>(xs: seq<T>, key: T -> Key): (r: seq<T>)
    ensures multiset(r) == multiset(xs)
    ensures |r| == |xs|
  {
    if xs == [] then [] else
      assert xs == [xs[0]] + xs[1..];
      var r := Insert(xs[0], SortBy(xs[1..], key), key);
      assert |multiset(r)| == |r| && |multiset(xs)| == |xs|;
      r
  }

  lemma {:induction false} InsertSorted<T>(x: T, xs: seq<T>, key: T -> Key)
    requires Sorted(xs, key)
    ensures Sorted(Insert(x, xs, key), key)
  {
    if xs != [] {
      var rest := xs[1..];
      if KeyBefore(key(xs[0]), key(x)) {
        InsertSorted(x, rest, key);
        var tail := Insert(x, rest, key);
        forall j | 0 <= j < |tail| ensures !KeyBefore(key(tail[j]), key(xs[0])) {
          assert tail[j] in multiset(tail);
          if tail[j] == x {
            if KeyBefore(key(x), key(xs[0])) { KeyTransitive(key(x), key(xs[0]), key(x)); KeyIrreflexive(key(x)); }
          } else {
            assert tail[j] in rest;
          }
        }
      } else {
        forall j | 0 <= j < |xs| ensures !KeyBefore(key(xs[j]), key(x)) {
          if KeyBefore(key(xs[j]), key(x)) {
            KeyTotal(key(xs[0]), key(x));
            if key(xs[0]) != key(x) {
              KeyTransitive(key(xs[j]), key(x), key(xs[0]));
            }
          }
        }
      }
    }
  }

  lemma {:induction false} SortBySorted<T>(xs: seq<T>, key: T -> Key)
    ensures Sorted(SortBy(xs, key), key)
  {
    if xs != [] {
      SortBySorted(xs[1..], key);
      InsertSorted(xs[0], SortBy(xs[1..], key), key);
    }
  }

  /** Sorting a sorted list changes nothing. */
  lemma {:induction false} SortOfSorted<T>(xs: seq<T>, key: T -> Key)
    requires Sorted(xs, key)
    ensures SortBy(xs, key) == xs
  {
    if xs != [] {
      SortOfSorted(xs[1..], key);
      assert xs == [xs[0]] + xs[1..];
      if |xs| > 1 { assert !KeyBefore(key(xs[1]), key(xs[0])); }
    }
  }

  /** With distinct keys a sorted list is ascending. */
  lemma SortedDistinctAscending<T>(xs: seq<T>, key: T -> Key)
    requires Sorted(xs, key)
    requires forall i, j :: 0 <= i < j < |xs| ==> key(xs[i]) != key(xs[j])
    ensures Ascending(xs, key)
  {
    forall i, j | 0 <= i < j < |xs| ensures KeyBefore(key(xs[i]), key(xs[j])) {
      KeyTotal(key(xs[i]), key(xs[j]));
    }
  }

  ghost function Elements<T>(xs: seq<T>): set<T> {
    set x | x in xs
  }

  lemma EmptyElements<T>(xs: seq<T>)
    ensures Elements(xs) == {} <==> xs == []
  {
    if |xs| > 0 { assert xs[0] in Elements(xs); }
  }

  lemma ElementsTail<T>(xs: seq<T>, key: T -> Key)
    requires Ascending(xs, key) && xs != []
    ensures Elements(xs[1..]) == Elements(xs) - {xs[0]}
  {
    KeyIrreflexive(key(xs[0]));
    forall x | x in Elements(xs) - {xs[0]} ensures x in Elements(xs[1..]) {
      var i :| 0 <= i < |xs| && xs[i] == x;
      assert xs[1..][i - 1] == x;
    }
    assert xs[0] !in xs[1..];
  }

  /** No member of an ascending list sorts before its head. */
  lemma HeadFirst<T>(xs: seq<T>, x: T, key: T -> Key)
    requires Ascending(xs, key) && x in xs
    ensures x == xs[0] || KeyBefore(key(xs[0]), key(x))
  {
    var i :| 0 <= i < |xs| && xs[i] == x;
  }

  /** An ascending list is determined by its contents. */
  lemma {:induction false} AscendingUnique<T>(xs: seq<T>, ys: seq<T>, key: T -> Key)
    requires Ascending(xs, key) && Ascending(ys, key)
    requires Elements(xs) == Elements(ys)
    ensures xs == ys
  {
    EmptyElements(xs);
    EmptyElements(ys);
    if xs != [] {
      assert xs[0] in Elements(ys) && ys[0] in Elements(xs);
      HeadFirst(xs, ys[0], key);
      HeadFirst(ys, xs[0], key);
      if xs[0] != ys[0] {
        KeyTransitive(key(xs[0]), key(ys[0]), key(xs[0]));
        KeyIrreflexive(key(xs[0]));
      }
      ElementsTail(xs, key);
      ElementsTail(ys, key);
      AscendingUnique(xs[1..], ys[1..], key);
      assert xs == [xs[0]] + xs[1..] && ys == [ys[0]] + ys[1..];
    }
  }
}
