/**
  The bounded walk over an artifact binding record: an explicit stack, a node budget, a list of
  forbidden field names, and no floating-point values.  Its reference is recursive.
 */
module BindingWalk {

  datatype Json =
    | Null
    | Bool(b: bool)
    | Int(i: int)
    | Float
    | Str(s: string)
    | Arr(items: seq<Json>)
    | Obj(names: seq<string>, values: seq<Json>)   // in document order

  const MAX_NODES := 100_000

  const FORBIDDEN_FIELDS: set<string> := {
    "ciphertext", "completedAt", "envelopeChecksum", "finalizedAt",
    "finalManifestChecksum", "manifestChecksum", "secretEnvelopeChecksum"}

  function Children(j: Json): (r: seq<Json>)
    ensures forall k :: 0 <= k < |r| ==> r[k] < j
  {
    match j
    case Arr(items) => items
    case Obj(_, values) => values
    case _ => []
  }

  /** Nodes of a tree, and of a list of trees. */
  function Nodes(j: Json): nat
    decreases j, 1
  {
    1 + NodesOf(Children(j), j)
  }

  function NodesOf(js: seq<Json>, ghost parent: Json): nat
    requires forall k :: 0 <= k < |js| ==> js[k] < parent
    decreases parent, 0, |js|
  {
    if js == [] then 0 else NodesOf(js[..|js| - 1], parent) + Nodes(js[|js| - 1])
  }

  /** No forbidden field name and no float, at any depth. */
  predicate Clean(j: Json) {
    CleanNode(j) && forall k :: 0 <= k < |Children(j)| ==> Clean(Children(j)[k])
  }

  ghost predicate WellFormed(j: Json) {
    && (j.Obj? ==> |j.names| == |j.values|)
    && forall k :: 0 <= k < |Children(j)| ==> WellFormed(Children(j)[k])
  }

  function TotalNodes(stack: seq<Json>): nat {
    if stack == [] then 0 else TotalNodes(stack[..|stack| - 1]) + Nodes(stack[|stack| - 1])
  }

  lemma {:induction false} TotalOfChildren(js: seq<Json>, parent: Json)
    requires forall k :: 0 <= k < |js| ==> js[k] < parent
    ensures NodesOf(js, parent) == TotalNodes(js)
    decreases |js|
  {
    if js != [] { TotalOfChildren(js[..|js| - 1], parent); }
  }

  lemma {:induction false} TotalConcat(a: seq<Json>, b: seq<Json>)
    ensures TotalNodes(a + b) == TotalNodes(a) + TotalNodes(b)
    decreases |b|
  {
    if b == [] {
      assert a + b == a;
    } else {
      assert (a + b)[..|a + b| - 1] == a + b[..|b| - 1];
      TotalConcat(a, b[..|b| - 1]);
    }
  }

  /** What a stack still has to show: every tree on it is clean. */
  ghost predicate AllClean(stack: seq<Json>) {
    forall k :: 0 <= k < |stack| ==> Clean(stack[k])
  }

  /** A node that is acceptable by itself. */
  predicate CleanNode(j: Json) {
    !j.Float? && (j.Obj? ==> forall k :: 0 <= k < |j.names| ==> j.names[k] !in FORBIDDEN_FIELDS)
  }

  /** Pushes the children of a node, field by field for an object. */
  method PushChildren(stack: seq<Json>, item: Json) returns (ok: bool, pushed: seq<Json>)
    requires item.Obj? ==> |item.names| == |item.values|
    ensures ok <==> CleanNode(item)
    ensures ok ==> pushed == stack + Children(item)
  {
    pushed := stack;
    match item {
      case Obj(names, values) =>
        var k := 0;
        while k < |names|
          invariant 0 <= k <= |names|
          invariant pushed == stack + values[..k]
          invariant forall n :: 0 <= n < k ==> names[n] !in FORBIDDEN_FIELDS
        {
          if names[k] in FORBIDDEN_FIELDS {
            return false, pushed;
          }
          pushed := pushed + [values[k]];
          k := k + 1;
        }
        assert values[..|values|] == values;
      case Arr(items) =>
        pushed := pushed + items;
      case Float =>
        return false, pushed;
      case _ =>
        assert stack + [] == stack;
    }
    return true, pushed;
  }

  ghost predicate AllWellFormed(stack: seq<Json>) {
    forall k :: 0 <= k < |stack| ==> WellFormed(stack[k])
  }

  /** Nodes visited and nodes still stacked make up the record, and what is stacked decides its verdict. */
  ghost predicate Walking(stack: seq<Json>, nodes: nat, record: Json) {
    && AllWellFormed(stack)
    && nodes + TotalNodes(stack) == Nodes(record)
    && (AllClean(stack) <==> Clean(record))
  }

  lemma WalkStep(rest: seq<Json>, item: Json, nodes: nat, record: Json)
    requires Walking(rest + [item], nodes, record)
    ensures item.Obj? ==> |item.names| == |item.values|
    ensures TotalNodes(rest + [item]) == 1 + TotalNodes(rest + Children(item))
    ensures CleanNode(item) ==> Walking(rest + Children(item), nodes + 1, record)
    ensures !CleanNode(item) ==> !Clean(record)
  {
    StackTop(rest, item);
    assert (rest + [item])[|rest|] == item;
    forall k | 0 <= k < |rest + Children(item)| ensures WellFormed((rest + Children(item))[k]) {
      if k < |rest| { assert (rest + [item])[k] == rest[k]; }
    }
  }

  lemma WalkStarts(record: Json)
    requires WellFormed(record)
    ensures Walking([record], 0, record)
  {
    StackTop([], record);
  }

  lemma WalkEnds(nodes: nat, record: Json)
    requires Walking([], nodes, record)
    ensures nodes == Nodes(record) && Clean(record)
  {
  }

  lemma TopOf(stack: seq<Json>)
    requires stack != []
    ensures stack == stack[..|stack| - 1] + [stack[|stack| - 1]]
  {
  }

  /**
    The walk.  Nodes visited plus nodes still stacked never changes, so the budget is exceeded
    exactly when the whole record has too many nodes.
   */
  method Walk(record: Json) returns (ok: bool)
    requires WellFormed(record)
    ensures ok <==> Nodes(record) <= MAX_NODES && Clean(record)
  {
    var stack: seq<Json> := [record];
    var nodes := 0;
    WalkStarts(record);
    while stack != []
      invariant Walking(stack, nodes, record) && nodes <= MAX_NODES
      decreases TotalNodes(stack)
    {
      var item := stack[|stack| - 1];
      TopOf(stack);
      stack := stack[..|stack| - 1];
      WalkStep(stack, item, nodes, record);
      nodes := nodes + 1;
      if nodes > MAX_NODES {
        return false;
      }
      var clean: bool;
      clean, stack := PushChildren(stack, item);
      if !clean {
        return false;
      }
    }
    WalkEnds(nodes, record);
    return true;
  }

  /** Popping a node and pushing its children: one node fewer, and the same verdict. */
  lemma StackTop(rest: seq<Json>, item: Json)
    ensures TotalNodes(rest + [item]) == 1 + TotalNodes(rest + Children(item))
    ensures TotalNodes([item]) == Nodes(item)
    ensures AllClean([item]) <==> Clean(item)
    ensures CleanNode(item) ==> (AllClean(rest + [item]) <==> AllClean(rest + Children(item)))
    ensures !CleanNode(item) ==> !AllClean(rest + [item])
  {
    TotalConcat(rest, Children(item));
    TotalConcat(rest, [item]);
    assert [item][..0] == [] && TotalNodes([item]) == Nodes(item);
    TotalOfChildren(Children(item), item);
    AllCleanConcat(rest, [item]);
    AllCleanConcat(rest, Children(item));
    assert [item][0] == item;
  }

  lemma AllCleanConcat(a: seq<Json>, b: seq<Json>)
    ensures AllClean(a + b) <==> AllClean(a) && AllClean(b)
  {
    if AllClean(a + b) {
      forall k | 0 <= k < |a| ensures Clean(a[k]) { assert (a + b)[k] == a[k]; }
      forall k | 0 <= k < |b| ensures Clean(b[k]) { assert (a + b)[|a| + k] == b[k]; }
    }
  }

  /** `x` is the record itself or lies somewhere below it. */
  ghost predicate Within(x: Json, j: Json)
    decreases j
  {
    x == j || exists k :: 0 <= k < |Children(j)| && Within(x, Children(j)[k])
  }

  /** A clean record holds no float and none of the checksums that are only known once it is sealed, at any depth. */
  lemma {:induction false} CleanThroughout(j: Json, x: Json)
    requires Clean(j) && Within(x, j)
    ensures !x.Float?
    ensures x.Obj? ==>
      && "ciphertext" !in x.names && "completedAt" !in x.names && "finalizedAt" !in x.names
      && "envelopeChecksum" !in x.names && "secretEnvelopeChecksum" !in x.names
      && "manifestChecksum" !in x.names && "finalManifestChecksum" !in x.names
    decreases j
  {
    if x == j {
      assert CleanNode(x);
    } else {
      var k :| 0 <= k < |Children(j)| && Within(x, Children(j)[k]);
      CleanThroughout(Children(j)[k], x);
    }
  }
}
