/**
  Normalisation of identity evidence: a recursive walk with one shared node counter.

  A mapping is the list of its entries in insertion order.  The secret-pattern heuristics for field
  names and strings are parameters.
 */
module Evidence {
  import opened Wrappers
  import opened Ordering

  datatype FieldName = Name(text: string) | NotText

  datatype Value =
    | Null
    | Bool(b: bool)
    | Int(i: int)
    | Str(s: string)
    | Sequence(items: seq<Value>)
    | Mapping(fields: seq<(FieldName, Value)>)
    | Foreign                                    // a float, bytes, or any other object

  datatype Heuristics = Heuristics(sensitiveName: string -> bool, sensitiveString: string -> bool)

  const MAX_DEPTH := 16
  const MAX_MEMBERS := 256
  const MAX_STRING := 4096
  const MAX_NAME := 128

  function Children(v: Value): (r: seq<Value>)
    ensures forall k :: 0 <= k < |r| ==> r[k] < v
  {
    match v
    case Sequence(items) => items
    case Mapping(fields) => Values(fields)
    case _ => []
  }

  function Values(fields: seq<(FieldName, Value)>): (r: seq<Value>)
    ensures |r| == |fields| && forall k :: 0 <= k < |r| ==> r[k] == fields[k].1
  {
    seq(|fields|, k requires 0 <= k < |fields| => fields[k].1)
  }

  // ----- The reference

  /** What a node must satisfy by itself. */
  predicate NodeAllowed(h: Heuristics, v: Value) {
    match v
    case Str(s) => |s| <= MAX_STRING && !h.sensitiveString(s)
    case Mapping(fields) => forall k :: 0 <= k < |fields| ==> NameAllowed(h, fields[k].0)
    case Foreign => false
    case _ => true
  }

  predicate NameAllowed(h: Heuristics, name: FieldName) {
    name.Name? && 0 < |name.text| <= MAX_NAME && !h.sensitiveName(name.text)
  }

  /** Every node is allowed and none lies deeper than the bound. */
  predicate Allowed(h: Heuristics, v: Value, depth: nat)
    decreases v
  {
    && depth <= MAX_DEPTH && NodeAllowed(h, v)
    && forall k :: 0 <= k < |Children(v)| ==> Allowed(h, Children(v)[k], depth + 1)
  }

  function Count(v: Value): nat
    decreases v, 1
  {
    1 + CountAll(Children(v), v)
  }

  function CountAll(vs: seq<Value>, ghost parent: Value): nat
    requires forall k :: 0 <= k < |vs| ==> vs[k] < parent
    decreases parent, 0, |vs|
  {
    if vs == [] then 0 else CountAll(vs[..|vs| - 1], parent) + Count(vs[|vs| - 1])
  }

  function FieldKey(field: (FieldName, Value)): Key {
    if field.0.Name? then [field.0.text] else []
  }

  function SortedFields(fields: seq<(FieldName, Value)>): (r: seq<(FieldName, Value)>)
    ensures |r| == |fields| && multiset(r) == multiset(fields)
    ensures forall k :: 0 <= k < |r| ==> r[k] in fields
  {
    var r := SortBy(fields, FieldKey);
    assert forall k :: 0 <= k < |r| ==> r[k] in multiset(r);
    r
  }

  /** The same tree with the fields of every mapping in order. */
  function Normal(v: Value): Value
    decreases v
  {
    match v
    case Sequence(items) => Sequence(seq(|items|, k requires 0 <= k < |items| => Normal(items[k])))
    case Mapping(fields) =>
      var sorted := SortedFields(fields);
      Mapping(seq(|sorted|, k requires 0 <= k < |sorted| => (sorted[k].0, Normal(sorted[k].1))))
    case _ => v
  }

  /** Accepted evidence, normalised. */
  ghost function NormalEvidence(h: Heuristics, v: Value): Option<Value> {
    if v.Mapping? && Allowed(h, v, 0) && Count(v) <= MAX_MEMBERS then Some(Normal(v)) else None
  }

  // ----- Counting does not depend on order

  function Total(vs: seq<Value>): nat {
    if vs == [] then 0 else Total(vs[..|vs| - 1]) + Count(vs[|vs| - 1])
  }

  lemma {:induction false} CountAllIsTotal(vs: seq<Value>, parent: Value)
    requires forall k :: 0 <= k < |vs| ==> vs[k] < parent
    ensures CountAll(vs, parent) == Total(vs)
    decreases |vs|
  {
    if vs != [] { CountAllIsTotal(vs[..|vs| - 1], parent); }
  }

  lemma {:induction false} TotalAtLeast(vs: seq<Value>)
    ensures Total(vs) >= |vs|
  {
    if vs != [] { TotalAtLeast(vs[..|vs| - 1]); }
  }

  lemma TotalLast(vs: seq<Value>, last: Value)
    ensures Total(vs + [last]) == Total(vs) + Count(last)
  {
    assert (vs + [last])[..|vs|] == vs;
  }

  lemma CutBefore(vs: seq<Value>, k: nat)
    requires k < |vs| - 1
    ensures vs == vs[..|vs| - 1] + [vs[|vs| - 1]]
    ensures vs[..k] + vs[k + 1..] == vs[..|vs| - 1][..k] + vs[..|vs| - 1][k + 1..] + [vs[|vs| - 1]]
  {
  }

  lemma {:induction false} TotalRemove(vs: seq<Value>, k: nat)
    requires k < |vs|
    ensures Total(vs) == Total(vs[..k] + vs[k + 1..]) + Count(vs[k])
    decreases |vs|
  {
    var front, last := vs[..|vs| - 1], vs[|vs| - 1];
    if k == |vs| - 1 {
      assert vs[..k] + vs[k + 1..] == front;
    } else {
      TotalRemove(front, k);
      CutBefore(vs, k);
      TotalLast(front, last);
      TotalLast(front[..k] + front[k + 1..], last);
    }
  }

  lemma SomewhereIn<T>(a: seq<T>, b: seq<T>) returns (k: nat)
    requires multiset(a) == multiset(b) && a != []
    ensures k < |b| && b[k] == a[0]
  {
    assert a[0] in multiset(b);
    k :| 0 <= k < |b| && b[k] == a[0];
  }

  lemma {:induction false} TotalPermuted(a: seq<Value>, b: seq<Value>)
    requires multiset(a) == multiset(b)
    ensures Total(a) == Total(b)
    decreases |a|
  {
    if a != [] {
      var k := SomewhereIn(a, b);
      WithoutSame(a, b, 0, k);
      TotalPermuted(Without(a, 0), Without(b, k));
      TotalRemove(a, 0);
      TotalRemove(b, k);
    } else {
      assert |multiset(b)| == 0;
    }
  }

  lemma RemoveAt<T>(xs: seq<T>, k: nat)
    requires k < |xs|
    ensures multiset(xs) == multiset(xs[..k] + xs[k + 1..]) + multiset{xs[k]}
  {
    assert xs == xs[..k] + [xs[k]] + xs[k + 1..];
  }

  function Without<T>(xs: seq<T>, k: nat): seq<T>
    requires k < |xs|
  {
    xs[..k] + xs[k + 1..]
  }

  lemma ValuesWithout(fields: seq<(FieldName, Value)>, k: nat)
    requires k < |fields|
    ensures multiset(Values(fields)) == multiset(Values(Without(fields, k))) + multiset{fields[k].1}
  {
    assert Values(Without(fields, k)) == Values(fields)[..k] + Values(fields)[k + 1..];
    RemoveAt(Values(fields), k);
  }

  lemma WithoutSame<T>(a: seq<T>, b: seq<T>, i: nat, k: nat)
    requires multiset(a) == multiset(b)
    requires i < |a| && k < |b| && a[i] == b[k]
    ensures multiset(Without(a, i)) == multiset(Without(b, k))
  {
    RemoveAt(a, i);
    RemoveAt(b, k);
    assert multiset(Without(a, i)) == multiset(a) - multiset{a[i]};
    assert multiset(Without(b, k)) == multiset(b) - multiset{a[i]};
  }

  lemma {:induction false} ValuesPermuted(a: seq<(FieldName, Value)>, b: seq<(FieldName, Value)>)
    requires multiset(a) == multiset(b)
    ensures multiset(Values(a)) == multiset(Values(b))
    decreases |a|
  {
    assert |a| == |multiset(a)| == |multiset(b)| == |b|;
    if a != [] {
      assert a[0] in multiset(b);
      var k :| 0 <= k < |b| && b[k] == a[0];
      WithoutSame(a, b, 0, k);
      ValuesPermuted(Without(a, 0), Without(b, k));
      ValuesWithout(a, 0);
      ValuesWithout(b, k);
    }
  }

  lemma CountOfMapping(fields: seq<(FieldName, Value)>)
    ensures Count(Mapping(fields)) == 1 + Total(Values(SortedFields(fields)))
  {
    var v := Mapping(fields);
    CountAllIsTotal(Children(v), v);
    ValuesPermuted(fields, SortedFields(fields));
    TotalPermuted(Values(fields), Values(SortedFields(fields)));
  }

  lemma CountOfSequence(items: seq<Value>)
    ensures Count(Sequence(items)) == 1 + Total(items)
  {
    CountAllIsTotal(items, Sequence(items));
  }

  // ----- The checks on the members of a node

  lemma MembersOfFront<T>(xs: seq<T>)
    requires xs != []
    ensures forall x :: x in xs <==> x in xs[..|xs| - 1] || x == xs[|xs| - 1]
  {
    forall x ensures x in xs <==> x in xs[..|xs| - 1] || x == xs[|xs| - 1] {
      assert xs == xs[..|xs| - 1] + [xs[|xs| - 1]];
    }
  }

  /** Every listed value is allowed at this depth. */
  predicate AllAllowed(h: Heuristics, vs: seq<Value>, depth: nat) {
    vs == [] || (AllAllowed(h, vs[..|vs| - 1], depth) && Allowed(h, vs[|vs| - 1], depth))
  }

  predicate EachAllowed(h: Heuristics, vs: seq<Value>, depth: nat) {
    forall v :: v in vs ==> Allowed(h, v, depth)
  }

  lemma {:induction false} AllAllowedEach(h: Heuristics, vs: seq<Value>, depth: nat)
    ensures AllAllowed(h, vs, depth) <==> EachAllowed(h, vs, depth)
    decreases |vs|
  {
    if vs != [] {
      var front := vs[..|vs| - 1];
      AllAllowedEach(h, front, depth);
      MembersOfFront(vs);
      var last := vs[|vs| - 1];
      assert last in vs;
      if AllAllowed(h, vs, depth) {
        forall v | v in vs ensures Allowed(h, v, depth) {
          if v != last { assert v in front; }
        }
      } else if AllAllowed(h, front, depth) {
        assert !Allowed(h, last, depth);
      }
    }
  }

  predicate NamesAllowed(h: Heuristics, fields: seq<(FieldName, Value)>) {
    fields == [] || (NamesAllowed(h, fields[..|fields| - 1]) && NameAllowed(h, fields[|fields| - 1].0))
  }

  lemma {:induction false} NamesAllowedEach(h: Heuristics, fields: seq<(FieldName, Value)>)
    ensures NamesAllowed(h, fields) <==> forall f :: f in fields ==> NameAllowed(h, f.0)
    decreases |fields|
  {
    if fields != [] {
      var front := fields[..|fields| - 1];
      NamesAllowedEach(h, front);
      MembersOfFront(fields);
    }
  }

  /** A mapping is allowed exactly when its names and its values are, whatever their order. */
  lemma AllowedMapping(h: Heuristics, fields: seq<(FieldName, Value)>, order: seq<(FieldName, Value)>, depth: nat)
    requires multiset(order) == multiset(fields)
    ensures Allowed(h, Mapping(fields), depth)
      <==> depth <= MAX_DEPTH && NamesAllowed(h, order) && AllAllowed(h, Values(order), depth + 1)
  {
    AllAllowedEach(h, Values(order), depth + 1);
    ValuesPermuted(fields, order);
    MembersOfMultiset(Values(fields), Values(order));
    assert EachAllowed(h, Values(fields), depth + 1) <==> EachAllowed(h, Values(order), depth + 1);
    NamesOfMapping(h, fields, order);
    AllowedByMember(h, Mapping(fields), depth);
  }

  lemma NamesOfMapping(h: Heuristics, fields: seq<(FieldName, Value)>, order: seq<(FieldName, Value)>)
    requires multiset(order) == multiset(fields)
    ensures NodeAllowed(h, Mapping(fields)) <==> NamesAllowed(h, order)
  {
    NamesAllowedEach(h, order);
    MembersOfMultiset(fields, order);
    if NodeAllowed(h, Mapping(fields)) {
      forall f | f in order ensures NameAllowed(h, f.0) {
        assert f in fields;
      }
    }
    assert forall k :: 0 <= k < |fields| ==> fields[k] in order;
  }

  lemma AllowedSequence(h: Heuristics, items: seq<Value>, depth: nat)
    ensures Allowed(h, Sequence(items), depth) <==> depth <= MAX_DEPTH && AllAllowed(h, items, depth + 1)
  {
    AllAllowedEach(h, items, depth + 1);
    assert Children(Sequence(items)) == items;
    AllowedByMember(h, Sequence(items), depth);
  }

  lemma AllowedByMember(h: Heuristics, v: Value, depth: nat)
    ensures Allowed(h, v, depth)
      <==> depth <= MAX_DEPTH && NodeAllowed(h, v) && EachAllowed(h, Children(v), depth + 1)
  {
    var children := Children(v);
    assert forall k :: 0 <= k < |children| ==> children[k] in children;
    if forall k :: 0 <= k < |children| ==> Allowed(h, children[k], depth + 1) {
      forall c | c in children ensures Allowed(h, c, depth + 1) {
        var k :| 0 <= k < |children| && children[k] == c;
      }
    }
  }

  lemma MembersOfMultiset<T>(a: seq<T>, b: seq<T>)
    requires multiset(a) == multiset(b)
    ensures forall x :: x in a <==> x in b
  {
    forall x ensures x in a <==> x in b {
      assert x in a <==> x in multiset(a);
      assert x in b <==> x in multiset(b);
    }
  }

  // ----- The walk

  class Counter {
    var n: nat

    constructor ()
      ensures n == 0
    {
      n := 0;
    }
  }

  function NormalEach(vs: seq<Value>): (r: seq<Value>) {
    if vs == [] then [] else NormalEach(vs[..|vs| - 1]) + [Normal(vs[|vs| - 1])]
  }

  function NormalFields(fields: seq<(FieldName, Value)>): (r: seq<(FieldName, Value)>) {
    if fields == [] then []
    else NormalFields(fields[..|fields| - 1]) + [(fields[|fields| - 1].0, Normal(fields[|fields| - 1].1))]
  }

  lemma {:induction false} NormalEachAt(vs: seq<Value>)
    ensures |NormalEach(vs)| == |vs| && forall k :: 0 <= k < |vs| ==> NormalEach(vs)[k] == Normal(vs[k])
    decreases |vs|
  {
    if vs != [] {
      var front := vs[..|vs| - 1];
      NormalEachAt(front);
      forall k | 0 <= k < |vs| ensures NormalEach(vs)[k] == Normal(vs[k]) {
        assert k < |front| ==> front[k] == vs[k];
      }
    }
  }

  lemma {:induction false} NormalFieldsAt(fields: seq<(FieldName, Value)>)
    ensures |NormalFields(fields)| == |fields|
    ensures forall k :: 0 <= k < |fields| ==> NormalFields(fields)[k] == (fields[k].0, Normal(fields[k].1))
    decreases |fields|
  {
    if fields != [] {
      var front := fields[..|fields| - 1];
      NormalFieldsAt(front);
      forall k | 0 <= k < |fields| ensures NormalFields(fields)[k] == (fields[k].0, Normal(fields[k].1)) {
        assert k < |front| ==> front[k] == fields[k];
      }
    }
  }

  lemma NormalSequence(items: seq<Value>)
    ensures Normal(Sequence(items)) == Sequence(NormalEach(items))
  {
    NormalEachAt(items);
    assert seq(|items|, k requires 0 <= k < |items| => Normal(items[k])) == NormalEach(items);
  }

  lemma NormalMapping(fields: seq<(FieldName, Value)>)
    ensures Normal(Mapping(fields)) == Mapping(NormalFields(SortedFields(fields)))
  {
    var sorted := SortedFields(fields);
    NormalFieldsAt(sorted);
    assert seq(|sorted|, k requires 0 <= k < |sorted| => (sorted[k].0, Normal(sorted[k].1))) == NormalFields(sorted);
  }

  // ----- What the normal form keeps

  ghost predicate Reordered(order: seq<(FieldName, Value)>, fields: seq<(FieldName, Value)>) {
    multiset(order) == multiset(fields) && |order| == |fields|
  }

  /**
    The same data: equal leaves, sequences item by item in order, and mappings whose entries can be
    paired, each name with the same name and its value with the same data.
   */
  ghost predicate SameData(a: Value, b: Value)
    decreases a
  {
    match a
    case Sequence(items) =>
      b.Sequence? && |items| == |b.items| && forall k :: 0 <= k < |items| ==> SameData(items[k], b.items[k])
    case Mapping(fields) =>
      b.Mapping? && exists order :: Reordered(order, fields) && |order| == |b.fields| && Paired(a, order, b.fields)
    case _ => a == b
  }

  ghost predicate Paired(parent: Value, order: seq<(FieldName, Value)>, fields: seq<(FieldName, Value)>)
    requires parent.Mapping? && |order| == |fields|
    decreases parent, 0
  {
    forall k :: 0 <= k < |order| ==>
      order[k] in parent.fields && order[k].0 == fields[k].0 && SameData(order[k].1, fields[k].1)
  }

  /** In every mapping of the tree no entry comes before one whose name sorts before its own. */
  ghost predicate SortedThroughout(v: Value)
    decreases v
  {
    match v
    case Sequence(items) => forall k :: 0 <= k < |items| ==> SortedThroughout(items[k])
    case Mapping(fields) =>
      && (forall i, j :: 0 <= i < j < |fields| && fields[i].0.Name? && fields[j].0.Name? ==>
           !Before(fields[j].0.text, fields[i].0.text))
      && forall k :: 0 <= k < |fields| ==> SortedThroughout(fields[k].1)
    case _ => true
  }

  lemma ReorderedMembers(order: seq<(FieldName, Value)>, fields: seq<(FieldName, Value)>)
    requires Reordered(order, fields)
    ensures forall k :: 0 <= k < |order| ==> order[k] in fields
  {
    forall k | 0 <= k < |order| ensures order[k] in fields {
      assert order[k] in multiset(order);
    }
  }

  /** Normalising keeps the data. */
  lemma {:induction false} NormalSameData(v: Value)
    ensures SameData(v, Normal(v))
    decreases v
  {
    match v
    case Sequence(items) =>
      forall k | 0 <= k < |items| ensures SameData(items[k], Normal(v).items[k]) {
        NormalSameData(items[k]);
      }
    case Mapping(fields) =>
      var sorted := SortedFields(fields);
      NormalFieldsAt(sorted);
      NormalMapping(fields);
      forall k | 0 <= k < |sorted| ensures SameData(sorted[k].1, Normal(sorted[k].1)) {
        assert sorted[k] in fields;
        NormalSameData(sorted[k].1);
      }
      assert Reordered(sorted, fields) && Paired(v, sorted, NormalFields(sorted));
    case _ =>
  }

  lemma NamesInOrder(fields: seq<(FieldName, Value)>)
    requires Sorted(fields, FieldKey)
    ensures forall i, j :: 0 <= i < j < |fields| && fields[i].0.Name? && fields[j].0.Name? ==>
      !Before(fields[j].0.text, fields[i].0.text)
  {
    forall i, j | 0 <= i < j < |fields| && fields[i].0.Name? && fields[j].0.Name?
      ensures !Before(fields[j].0.text, fields[i].0.text)
    {
      assert !KeyBefore(FieldKey(fields[j]), FieldKey(fields[i]));
    }
  }

  /** Normalising sorts every mapping. */
  lemma {:induction false} NormalSorted(v: Value)
    ensures SortedThroughout(Normal(v))
    decreases v
  {
    match v
    case Sequence(items) =>
      forall k | 0 <= k < |items| ensures SortedThroughout(Normal(items[k])) {
        NormalSorted(items[k]);
      }
    case Mapping(fields) =>
      var sorted := SortedFields(fields);
      NormalFieldsAt(sorted);
      NormalMapping(fields);
      SortedNormalFields(fields);
      NamesInOrder(NormalFields(sorted));
      forall k | 0 <= k < |sorted| ensures SortedThroughout(Normal(sorted[k].1)) {
        assert sorted[k] in fields;
        NormalSorted(sorted[k].1);
      }
    case _ =>
  }

  lemma SortedNormalFields(fields: seq<(FieldName, Value)>)
    ensures Sorted(NormalFields(SortedFields(fields)), FieldKey)
  {
    var sorted := SortedFields(fields);
    SortBySorted(fields, FieldKey);
    NormalFieldsAt(sorted);
  }

  // ----- One normal form for the same data

  ghost predicate DistinctKeys(fields: seq<(FieldName, Value)>) {
    forall i, j :: 0 <= i < j < |fields| ==> FieldKey(fields[i]) != FieldKey(fields[j])
  }

  /** No mapping of the tree has two entries under one name, as in a dictionary. */
  ghost predicate Dictionaries(v: Value)
    decreases v
  {
    && (v.Mapping? ==> DistinctKeys(v.fields))
    && forall k :: 0 <= k < |Children(v)| ==> Dictionaries(Children(v)[k])
  }

  lemma TwicePresent<T>(xs: seq<T>, i: nat, j: nat)
    requires i < j < |xs| && xs[i] == xs[j]
    ensures multiset(xs)[xs[i]] >= 2
  {
    RemoveAt(xs, i);
    assert Without(xs, i)[j - 1] == xs[i];
  }

  lemma OncePresent(fields: seq<(FieldName, Value)>, i: nat)
    requires i < |fields| && DistinctKeys(fields)
    ensures multiset(fields)[fields[i]] == 1
  {
    RemoveAt(fields, i);
    forall j | 0 <= j < |Without(fields, i)| ensures Without(fields, i)[j] != fields[i] {
      assert Without(fields, i)[j] == if j < i then fields[j] else fields[j + 1];
    }
  }

  lemma StillDistinct(order: seq<(FieldName, Value)>, fields: seq<(FieldName, Value)>)
    requires multiset(order) == multiset(fields) && DistinctKeys(fields)
    ensures DistinctKeys(order)
  {
    forall i, j | 0 <= i < j < |order| ensures FieldKey(order[i]) != FieldKey(order[j]) {
      assert order[i] in multiset(order) && order[j] in multiset(order);
      var p :| 0 <= p < |fields| && fields[p] == order[i];
      var q :| 0 <= q < |fields| && fields[q] == order[j];
      if p == q {
        TwicePresent(order, i, j);
        OncePresent(fields, p);
      }
    }
  }

  /** Fields paired by name, whose paired values have one normal form. */
  ghost predicate Matched(order: seq<(FieldName, Value)>, fields: seq<(FieldName, Value)>) {
    && |order| == |fields|
    && forall k :: 0 <= k < |order| ==> order[k].0 == fields[k].0 && Normal(order[k].1) == Normal(fields[k].1)
  }

  lemma NormalFieldsMatched(order: seq<(FieldName, Value)>, fields: seq<(FieldName, Value)>)
    requires Matched(order, fields)
    ensures NormalFields(order) == NormalFields(fields)
  {
    NormalFieldsAt(order);
    NormalFieldsAt(fields);
  }

  lemma NormalFieldsElements(a: seq<(FieldName, Value)>, b: seq<(FieldName, Value)>)
    requires multiset(a) == multiset(b)
    ensures Elements(NormalFields(a)) == Elements(NormalFields(b))
  {
    NormalFieldsAt(a);
    NormalFieldsAt(b);
    MembersOfMultiset(a, b);
    forall i | 0 <= i < |a| ensures NormalFields(a)[i] in NormalFields(b) {
      assert a[i] in b;
      var j :| 0 <= j < |b| && b[j] == a[i];
      assert NormalFields(b)[j] == NormalFields(a)[i];
    }
    forall i | 0 <= i < |b| ensures NormalFields(b)[i] in NormalFields(a) {
      assert b[i] in a;
      var j :| 0 <= j < |a| && a[j] == b[i];
      assert NormalFields(a)[j] == NormalFields(b)[i];
    }
  }

  lemma NormalFieldsAscending(fields: seq<(FieldName, Value)>)
    requires DistinctKeys(fields)
    ensures Ascending(NormalFields(SortedFields(fields)), FieldKey)
  {
    StillDistinct(SortedFields(fields), fields);
    SortedNormalFields(fields);
    NormalFieldsAt(SortedFields(fields));
    SortedDistinctAscending(NormalFields(SortedFields(fields)), FieldKey);
  }

  lemma MatchedSameNormal(
    fields: seq<(FieldName, Value)>, order: seq<(FieldName, Value)>, others: seq<(FieldName, Value)>)
    requires multiset(order) == multiset(fields) && DistinctKeys(fields) && Matched(order, others)
    ensures Normal(Mapping(fields)) == Normal(Mapping(others))
  {
    StillDistinct(order, fields);
    assert DistinctKeys(others) by {
      forall i, j | 0 <= i < j < |others| ensures FieldKey(others[i]) != FieldKey(others[j]) {
        assert FieldKey(order[i]) != FieldKey(order[j]);
      }
    }
    NormalFieldsMatched(order, others);
    NormalFieldsElements(SortedFields(fields), order);
    NormalFieldsElements(SortedFields(others), others);
    NormalFieldsAscending(fields);
    NormalFieldsAscending(others);
    AscendingUnique(NormalFields(SortedFields(fields)), NormalFields(SortedFields(others)), FieldKey);
    NormalMapping(fields);
    NormalMapping(others);
  }

  /** Trees of dictionaries that hold the same data, in whatever order, have one normal form. */
  lemma {:induction false} SameDataSameNormal(a: Value, b: Value)
    requires Dictionaries(a) && SameData(a, b)
    ensures Normal(a) == Normal(b)
    decreases a
  {
    match a
    case Sequence(items) =>
      forall k | 0 <= k < |items| ensures Normal(items[k]) == Normal(b.items[k]) {
        assert Children(a)[k] == items[k];
        SameDataSameNormal(items[k], b.items[k]);
      }
    case Mapping(fields) =>
      var order: seq<(FieldName, Value)> :| Reordered(order, fields) && |order| == |b.fields| && Paired(a, order, b.fields);
      forall k | 0 <= k < |order| ensures Normal(order[k].1) == Normal(b.fields[k].1) {
        var i :| 0 <= i < |fields| && fields[i] == order[k];
        assert Children(a)[i] == order[k].1;
        SameDataSameNormal(order[k].1, b.fields[k].1);
      }
      MatchedSameNormal(fields, order, b.fields);
    case _ =>
  }

  // ----- What an allowed tree may hold

  /** `x` is the tree itself or lies somewhere below it. */
  ghost predicate Within(x: Value, v: Value)
    decreases v
  {
    x == v || exists k :: 0 <= k < |Children(v)| && Within(x, Children(v)[k])
  }

  /** Nothing secret, over-long or foreign lies anywhere in an allowed tree. */
  lemma {:induction false} AllowedThroughout(h: Heuristics, v: Value, depth: nat, x: Value)
    requires Allowed(h, v, depth) && Within(x, v)
    ensures !x.Foreign?
    ensures x.Str? ==> |x.s| <= 4096 && !h.sensitiveString(x.s)
    ensures x.Mapping? ==> forall k :: 0 <= k < |x.fields| ==>
      x.fields[k].0.Name? && 0 < |x.fields[k].0.text| <= 128 && !h.sensitiveName(x.fields[k].0.text)
    decreases v
  {
    if x != v {
      var k :| 0 <= k < |Children(v)| && Within(x, Children(v)[k]);
      AllowedThroughout(h, Children(v)[k], depth + 1, x);
    }
  }

  /** The checks on the first `n + 1` values, from those on the first `n`. */
  lemma {:induction false} OneMoreValue(h: Heuristics, vs: seq<Value>, depth: nat, n: nat)
    requires n < |vs|
    ensures AllAllowed(h, vs[..n + 1], depth) <==> AllAllowed(h, vs[..n], depth) && Allowed(h, vs[n], depth)
    ensures AllAllowed(h, vs, depth) ==> AllAllowed(h, vs[..n + 1], depth)
    ensures Total(vs[..n + 1]) == Total(vs[..n]) + Count(vs[n]) && Total(vs[..n + 1]) <= Total(vs)
    ensures NormalEach(vs[..n + 1]) == NormalEach(vs[..n]) + [Normal(vs[n])]
    decreases |vs| - n
  {
    assert vs[..n + 1][..n] == vs[..n];
    if n + 1 == |vs| {
      assert vs[..n + 1] == vs;
    } else {
      OneMoreValue(h, vs, depth, n + 1);
    }
  }

  lemma {:induction false} OneMoreField(h: Heuristics, fields: seq<(FieldName, Value)>, n: nat)
    requires n < |fields|
    ensures NamesAllowed(h, fields[..n + 1]) <==> NamesAllowed(h, fields[..n]) && NameAllowed(h, fields[n].0)
    ensures NamesAllowed(h, fields) ==> NamesAllowed(h, fields[..n + 1])
    ensures NormalFields(fields[..n + 1]) == NormalFields(fields[..n]) + [(fields[n].0, Normal(fields[n].1))]
    decreases |fields| - n
  {
    assert fields[..n + 1][..n] == fields[..n];
    if n + 1 == |fields| {
      assert fields[..n + 1] == fields;
    } else {
      OneMoreField(h, fields, n + 1);
    }
  }

  method NormalizeAll(h: Heuristics, items: seq<Value>, depth: nat, counter: Counter, ghost parent: Value)
    returns (r: Result<seq<Value>, string>)
    requires forall k :: 0 <= k < |items| ==> items[k] < parent
    requires counter.n <= MAX_MEMBERS
    modifies counter
    ensures r.Ok? <==> AllAllowed(h, items, depth) && old(counter.n) + Total(items) <= MAX_MEMBERS
    ensures r.Ok? ==> counter.n == old(counter.n) + Total(items) && r.value == NormalEach(items)
    decreases parent, 0, |items|
  {
    var normalized: seq<Value> := [];
    var k := 0;
    while k < |items|
      invariant 0 <= k <= |items|
      invariant AllAllowed(h, items[..k], depth) && normalized == NormalEach(items[..k])
      invariant counter.n == old(counter.n) + Total(items[..k]) && counter.n <= MAX_MEMBERS
    {
      OneMoreValue(h, items, depth, k);
      var one := NormalizeJson(h, items[k], depth, counter);
      if one.Err? {
        return Err(one.error);
      }
      normalized := normalized + [one.value];
      k := k + 1;
    }
    assert items[..|items|] == items;
    return Ok(normalized);
  }

  /** A field's name is checked just before its value is normalised. */
  method NormalizeField(
    h: Heuristics, field: (FieldName, Value), depth: nat, counter: Counter, ghost parent: Value)
    returns (r: Result<(FieldName, Value), string>)
    requires field.1 < parent && counter.n <= MAX_MEMBERS
    modifies counter
    ensures r.Ok? <==>
      FieldAllowed(h, field, depth) && old(counter.n) + Count(field.1) <= MAX_MEMBERS
    ensures r.Ok? ==> counter.n == old(counter.n) + Count(field.1) && r.value == (field.0, Normal(field.1))
    decreases parent, 0, 0
  {
    var name := field.0;
    if name.NotText? || name.text == "" || |name.text| > MAX_NAME {
      return Err("IDENTITY_EVIDENCE_INVALID");
    }
    if h.sensitiveName(name.text) {
      return Err("SENSITIVE_EVIDENCE_FORBIDDEN");
    }
    var one := NormalizeJson(h, field.1, depth, counter);
    if one.Err? {
      return Err(one.error);
    }
    return Ok((name, one.value));
  }

  /** The first `k` fields are allowed and normalised. */
  ghost predicate FieldsDone(
    h: Heuristics, fields: seq<(FieldName, Value)>, depth: nat, k: nat, normalized: seq<(FieldName, Value)>)
    requires k <= |fields|
  {
    && NamesAllowed(h, fields[..k]) && AllAllowed(h, Values(fields)[..k], depth)
    && normalized == NormalFields(fields[..k])
  }

  predicate FieldAllowed(h: Heuristics, field: (FieldName, Value), depth: nat) {
    NameAllowed(h, field.0) && Allowed(h, field.1, depth)
  }

  lemma OneMoreDone(
    h: Heuristics, fields: seq<(FieldName, Value)>, depth: nat, k: nat, normalized: seq<(FieldName, Value)>)
    requires k < |fields| && FieldsDone(h, fields, depth, k, normalized)
    ensures FieldAllowed(h, fields[k], depth) ==>
      FieldsDone(h, fields, depth, k + 1, normalized + [(fields[k].0, Normal(fields[k].1))])
    ensures NamesAllowed(h, fields) && AllAllowed(h, Values(fields), depth) ==> FieldAllowed(h, fields[k], depth)
    ensures Total(Values(fields)[..k + 1]) == Total(Values(fields)[..k]) + Count(fields[k].1) <= Total(Values(fields))
  {
    OneMoreValue(h, Values(fields), depth, k);
    OneMoreField(h, fields, k);
  }

  lemma AllDone(h: Heuristics, fields: seq<(FieldName, Value)>, depth: nat, normalized: seq<(FieldName, Value)>)
    requires FieldsDone(h, fields, depth, |fields|, normalized)
    ensures NamesAllowed(h, fields) && AllAllowed(h, Values(fields), depth) && normalized == NormalFields(fields)
    ensures Values(fields)[..|fields|] == Values(fields)
  {
    assert fields[..|fields|] == fields && Values(fields)[..|fields|] == Values(fields);
  }

  /** Field names are checked as their turn comes. */
  method NormalizeFields(
    h: Heuristics, fields: seq<(FieldName, Value)>, depth: nat, counter: Counter, ghost parent: Value)
    returns (r: Result<seq<(FieldName, Value)>, string>)
    requires forall k :: 0 <= k < |fields| ==> fields[k].1 < parent
    requires counter.n <= MAX_MEMBERS
    modifies counter
    ensures r.Ok? <==>
      && NamesAllowed(h, fields) && AllAllowed(h, Values(fields), depth)
      && old(counter.n) + Total(Values(fields)) <= MAX_MEMBERS
    ensures r.Ok? ==> counter.n == old(counter.n) + Total(Values(fields)) && r.value == NormalFields(fields)
    decreases parent, 0, |fields|
  {
    var normalized: seq<(FieldName, Value)> := [];
    var k := 0;
    while k < |fields|
      invariant 0 <= k <= |fields|
      invariant FieldsDone(h, fields, depth, k, normalized)
      invariant counter.n == old(counter.n) + Total(Values(fields)[..k]) && counter.n <= MAX_MEMBERS
    {
      OneMoreDone(h, fields, depth, k, normalized);
      var one := NormalizeField(h, fields[k], depth, counter, parent);
      if one.Err? {
        return Err(one.error);
      }
      normalized := normalized + [one.value];
      k := k + 1;
    }
    AllDone(h, fields, depth, normalized);
    return Ok(normalized);
  }

  method NormalizeMapping(h: Heuristics, value: Value, depth: nat, counter: Counter)
    returns (r: Result<Value, string>)
    requires value.Mapping? && 1 <= counter.n <= MAX_MEMBERS && depth <= MAX_DEPTH
    modifies counter
    ensures r.Ok? <==> Allowed(h, value, depth) && old(counter.n) + Count(value) - 1 <= MAX_MEMBERS
    ensures r.Ok? ==> r.value == Normal(value) && counter.n == old(counter.n) + Count(value) - 1
    decreases value, 0, |value.fields| + 1
  {
    var fields := value.fields;
    var sorted := SortedFields(fields);
    CountOfMapping(fields);
    TotalAtLeast(Values(sorted));
    AllowedMapping(h, fields, sorted, depth);
    NormalMapping(fields);
    if |fields| > MAX_MEMBERS {
      return Err("IDENTITY_EVIDENCE_INVALID");
    }
    if exists k :: 0 <= k < |fields| && fields[k].0.NotText? {
      NamesAllowedEach(h, fields);
      AllowedMapping(h, fields, fields, depth);
      return Err("IDENTITY_EVIDENCE_INVALID");
    }
    var normalized := NormalizeFields(h, sorted, depth + 1, counter, value);
    if normalized.Err? {
      return Err(normalized.error);
    }
    return Ok(Mapping(normalized.value));
  }

  method NormalizeSequence(h: Heuristics, value: Value, depth: nat, counter: Counter)
    returns (r: Result<Value, string>)
    requires value.Sequence? && 1 <= counter.n <= MAX_MEMBERS && depth <= MAX_DEPTH
    modifies counter
    ensures r.Ok? <==> Allowed(h, value, depth) && old(counter.n) + Count(value) - 1 <= MAX_MEMBERS
    ensures r.Ok? ==> r.value == Normal(value) && counter.n == old(counter.n) + Count(value) - 1
    decreases value, 0, |value.items| + 1
  {
    CountOfSequence(value.items);
    TotalAtLeast(value.items);
    AllowedSequence(h, value.items, depth);
    NormalSequence(value.items);
    if |value.items| > MAX_MEMBERS {
      return Err("IDENTITY_EVIDENCE_INVALID");
    }
    var normalized := NormalizeAll(h, value.items, depth + 1, counter, value);
    if normalized.Err? {
      return Err(normalized.error);
    }
    return Ok(Sequence(normalized.value));
  }

  /**
    The walk accepts exactly the trees that are allowed from this depth on and still fit the shared
    counter, and returns their normal form.
   */
  method NormalizeJson(h: Heuristics, value: Value, depth: nat, counter: Counter)
    returns (r: Result<Value, string>)
    requires counter.n <= MAX_MEMBERS
    modifies counter
    ensures r.Ok? <==> Allowed(h, value, depth) && old(counter.n) + Count(value) <= MAX_MEMBERS
    ensures r.Ok? ==> r.value == Normal(value) && counter.n == old(counter.n) + Count(value)
    ensures r.Ok? ==> SameData(value, r.value) && SortedThroughout(r.value)
    decreases value, 1
  {
    NormalSameData(value);
    NormalSorted(value);
    counter.n := counter.n + 1;
    if depth > MAX_DEPTH || counter.n > MAX_MEMBERS {
      return Err("IDENTITY_EVIDENCE_INVALID");
    }
    match value {
      case Str(s) =>
        if |s| > MAX_STRING {
          return Err("IDENTITY_EVIDENCE_INVALID");
        }
        if h.sensitiveString(s) {
          return Err("SENSITIVE_EVIDENCE_FORBIDDEN");
        }
        return Ok(value);
      case Mapping(fields) =>
        r := NormalizeMapping(h, value, depth, counter);
      case Sequence(items) =>
        r := NormalizeSequence(h, value, depth, counter);
      case Foreign =>
        return Err("IDENTITY_EVIDENCE_INVALID");
      case _ =>
        return Ok(value);
    }
  }

  /** Evidence is a mapping at the top, walked with a counter of its own. */
  method NormalizeEvidence(h: Heuristics, value: Value) returns (r: Result<Value, string>)
    ensures r.ToOption() == NormalEvidence(h, value)
    ensures r.Ok? ==> SameData(value, r.value) && SortedThroughout(r.value)
  {
    if !value.Mapping? {
      return Err("IDENTITY_EVIDENCE_INVALID");
    }
    var counter := new Counter();
    r := NormalizeJson(h, value, 0, counter);
  }

  // ----- Normalising twice

  /** A list of fields whose values are already normal is its own normal form. */
  lemma NormalFieldsFixed(fields: seq<(FieldName, Value)>)
    requires forall k :: 0 <= k < |fields| ==> Normal(fields[k].1) == fields[k].1
    ensures NormalFields(fields) == fields
  {
    NormalFieldsAt(fields);
  }

  lemma NormalEachFixed(vs: seq<Value>)
    requires forall k :: 0 <= k < |vs| ==> Normal(vs[k]) == vs[k]
    ensures NormalEach(vs) == vs
  {
    NormalEachAt(vs);
  }

  /** Normalising a normal tree changes nothing. */
  lemma {:induction false} NormalIdempotent(v: Value)
    ensures Normal(Normal(v)) == Normal(v)
    decreases v
  {
    match v
    case Sequence(items) =>
      forall k | 0 <= k < |items| ensures Normal(Normal(items[k])) == Normal(items[k]) {
        NormalIdempotent(items[k]);
      }
      NormalEachAt(items);
      NormalEachFixed(NormalEach(items));
      NormalSequence(items);
      NormalSequence(NormalEach(items));
    case Mapping(fields) =>
      var sorted := SortedFields(fields);
      NormalFieldsAt(sorted);
      var normal := NormalFields(sorted);
      forall k | 0 <= k < |normal| ensures Normal(normal[k].1) == normal[k].1 {
        assert sorted[k] in fields;
        NormalIdempotent(sorted[k].1);
      }
      NormalFieldsFixed(normal);
      SortedNormalFields(fields);
      SortOfSorted(normal, FieldKey);
      NormalMapping(fields);
      NormalMapping(normal);
    case _ =>
  }

  /** Same number of nodes, same verdict: a list of values against the list of their normal forms. */
  lemma {:induction false} SameVerdictEach(h: Heuristics, vs: seq<Value>, depth: nat)
    requires forall k :: 0 <= k < |vs| ==> SameVerdict(h, vs[k], depth)
    ensures AllAllowed(h, NormalEach(vs), depth) <==> AllAllowed(h, vs, depth)
    ensures Total(NormalEach(vs)) == Total(vs)
    decreases |vs|
  {
    if vs != [] {
      var front := vs[..|vs| - 1];
      SameVerdictEach(h, front, depth);
      var normal := NormalEach(vs);
      assert normal[..|normal| - 1] == NormalEach(front);
      assert SameVerdict(h, vs[|vs| - 1], depth);
    }
  }

  predicate SameVerdict(h: Heuristics, v: Value, depth: nat) {
    && (Allowed(h, Normal(v), depth) <==> Allowed(h, v, depth))
    && Count(Normal(v)) == Count(v)
  }

  lemma ValuesOfNormalFields(fields: seq<(FieldName, Value)>)
    ensures Values(NormalFields(fields)) == NormalEach(Values(fields))
  {
    NormalFieldsAt(fields);
    NormalEachAt(Values(fields));
  }

  lemma {:induction false} NamesOfNormalFields(h: Heuristics, fields: seq<(FieldName, Value)>)
    ensures NamesAllowed(h, NormalFields(fields)) <==> NamesAllowed(h, fields)
    decreases |fields|
  {
    if fields != [] {
      NamesOfNormalFields(h, fields[..|fields| - 1]);
      var normal := NormalFields(fields);
      assert normal[..|normal| - 1] == NormalFields(fields[..|fields| - 1]);
    }
  }

  lemma {:induction false} NormalKeepsVerdict(h: Heuristics, v: Value, depth: nat)
    ensures SameVerdict(h, v, depth)
    decreases v
  {
    match v
    case Sequence(items) =>
      forall k | 0 <= k < |items| ensures SameVerdict(h, items[k], depth + 1) {
        NormalKeepsVerdict(h, items[k], depth + 1);
      }
      SequenceKeepsVerdict(h, items, depth);
    case Mapping(fields) =>
      var sorted := SortedFields(fields);
      forall k | 0 <= k < |sorted| ensures SameVerdict(h, Values(sorted)[k], depth + 1) {
        assert sorted[k] in fields;
        NormalKeepsVerdict(h, sorted[k].1, depth + 1);
      }
      MappingKeepsVerdict(h, fields, depth);
    case _ =>
  }

  lemma SequenceKeepsVerdict(h: Heuristics, items: seq<Value>, depth: nat)
    requires forall k :: 0 <= k < |items| ==> SameVerdict(h, items[k], depth + 1)
    ensures SameVerdict(h, Sequence(items), depth)
  {
    SameVerdictEach(h, items, depth + 1);
    NormalSequence(items);
    AllowedSequence(h, items, depth);
    AllowedSequence(h, NormalEach(items), depth);
    CountOfSequence(items);
    CountOfSequence(NormalEach(items));
  }

  lemma MappingKeepsVerdict(h: Heuristics, fields: seq<(FieldName, Value)>, depth: nat)
    requires forall k :: 0 <= k < |fields| ==> SameVerdict(h, Values(SortedFields(fields))[k], depth + 1)
    ensures SameVerdict(h, Mapping(fields), depth)
  {
    var sorted := SortedFields(fields);
    var normal := NormalFields(sorted);
    SameVerdictEach(h, Values(sorted), depth + 1);
    ValuesOfNormalFields(sorted);
    NamesOfNormalFields(h, sorted);
    NormalMapping(fields);
    AllowedMapping(h, fields, sorted, depth);
    AllowedMapping(h, normal, normal, depth);
    CountOfMapping(fields);
    SortedNormalFields(fields);
    SortOfSorted(normal, FieldKey);
    CountOfMapping(normal);
  }

  /** Normalised evidence is accepted again, unchanged. */
  lemma NormalEvidenceStable(h: Heuristics, v: Value)
    requires NormalEvidence(h, v).Some?
    ensures NormalEvidence(h, NormalEvidence(h, v).value) == NormalEvidence(h, v)
  {
    NormalIdempotent(v);
    NormalKeepsVerdict(h, v, 0);
    NormalMapping(v.fields);
  }
}
