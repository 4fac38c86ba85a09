/**
  Publication of accepted archive paths on a file system that ignores case but keeps spelling.

  A node is found by its folded path and remembers the spelling it was created with, below the
  spelling of its parent.  Extraction makes the parents of each planned file and then creates the
  file exclusively.
 */
module PublishedTree {
  import opened PathText
  import opened ArchivePaths

  datatype Node = Directory(spelled: seq<string>) | File(spelled: seq<string>)

  type Tree = map<seq<string>, Node>

  /** The folded path of the first k components. */
  function At(fold: char -> string, parts: seq<string>, k: nat): seq<string>
    requires k <= |parts|
  {
    Folded(fold, parts)[..k]
  }

  ghost predicate HasDirectory(fold: char -> string, tree: Tree, parts: seq<string>, k: nat)
    requires k <= |parts|
  {
    At(fold, parts, k) in tree && tree[At(fold, parts, k)] == Directory(parts[..k])
  }

  ghost predicate HasFile(fold: char -> string, tree: Tree, parts: seq<string>) {
    At(fold, parts, |parts|) in tree && tree[At(fold, parts, |parts|)] == File(parts)
  }

  /** Each of the first n files, and each of its parents, sits under its declared spelling. */
  ghost predicate Publishes(fold: char -> string, tree: Tree, files: seq<seq<string>>, n: nat)
    requires n <= |files|
  {
    && [] in tree && tree[[]] == Directory([])
    && (forall i, k :: 0 <= i < n && 0 <= k < |files[i]| ==> HasDirectory(fold, tree, files[i], k))
    && (forall i :: 0 <= i < n ==> HasFile(fold, tree, files[i]))
    && (forall p :: p in tree ==> p == [] || OnSomePath(fold, files, n, p))
  }

  ghost predicate OnSomePath(fold: char -> string, files: seq<seq<string>>, n: nat, p: seq<string>)
    requires n <= |files|
  {
    exists i, k :: 0 <= i < n && 0 <= k <= |files[i]| && p == At(fold, files[i], k)
  }

  ghost function AsEntries(files: seq<seq<string>>): (r: seq<Entry>)
    ensures |r| == |files|
  {
    seq(|files|, i requires 0 <= i < |files| => Entry(files[i], false))
  }

  /** The parents above depth `n` can be made: whatever exists of them is a directory. */
  ghost predicate ParentsFree(fold: char -> string, tree: Tree, parts: seq<string>, n: nat)
    requires n <= |parts|
  {
    forall k :: 0 <= k < n && At(fold, parts, k) in tree ==> tree[At(fold, parts, k)].Directory?
  }

  /** `after` is `before` with the missing parents, each spelled below its own parent. */
  ghost predicate ParentsMade(fold: char -> string, before: Tree, after: Tree, parts: seq<string>, n: nat)
    requires n <= |parts|
  {
    && (forall p :: p in before ==> p in after && after[p] == before[p])
    && (forall p :: p in after ==> p in before || exists k :: 1 <= k < n && p == At(fold, parts, k))
    && (forall k :: 0 <= k < n ==> At(fold, parts, k) in after && after[At(fold, parts, k)].Directory?)
    && (forall k :: 1 <= k < n && At(fold, parts, k) !in before ==>
         after[At(fold, parts, k)].spelled == after[At(fold, parts, k - 1)].spelled + [parts[k - 1]])
  }

  class StagingTree {
    const fold: char -> string
    var nodes: Tree

    constructor (fold: char -> string)
      ensures this.fold == fold && nodes == map[[] := Directory([])]
    {
      this.fold := fold;
      nodes := map[[] := Directory([])];
    }

    /** mkdir with parents, accepting directories that exist. */
    method MakeParents(parts: seq<string>) returns (ok: bool)
      requires parts != [] && [] in nodes && nodes[[]].Directory?
      modifies this
      ensures ok <==> ParentsFree(fold, old(nodes), parts, |parts|)
      ensures ok ==> ParentsMade(fold, old(nodes), nodes, parts, |parts|)
    {
      var folded := Folded(fold, parts);
      ghost var before := nodes;
      var length := 1;
      assert At(fold, parts, 0) == [];
      while length < |parts|
        invariant 1 <= length <= |parts|
        invariant ParentsFree(fold, before, parts, length) && ParentsMade(fold, before, nodes, parts, length)
      {
        var here := folded[..length];
        assert here == At(fold, parts, length) && folded[..length - 1] == At(fold, parts, length - 1);
        if here in nodes {
          ParentPresent(fold, before, nodes, parts, length);
          if nodes[here].File? {
            return false;
          }
        } else {
          ParentMissing(fold, before, nodes, parts, length);
          nodes := nodes[here := Directory(nodes[folded[..length - 1]].spelled + [parts[length - 1]])];
        }
        length := length + 1;
      }
      return true;
    }

    /** open("xb") in an existing directory: fails on any node of that folded name. */
    method CreateExclusive(parts: seq<string>) returns (ok: bool)
      requires parts != [] && At(fold, parts, |parts| - 1) in nodes
      modifies this
      ensures ok <==> At(fold, parts, |parts|) !in old(nodes)
      ensures nodes == if ok then WithFile(fold, old(nodes), parts) else old(nodes)
    {
      var folded := Folded(fold, parts);
      assert folded[..|parts|] == folded;
      if folded in nodes {
        return false;
      }
      var parent := nodes[folded[..|parts| - 1]];
      nodes := nodes[folded := File(parent.spelled + [parts[|parts| - 1]])];
      return true;
    }

    /**
      The publication loop.  It runs to the end and leaves every file under its declared spelling
      exactly when the declared paths are pairwise compatible.
     */
    method Publish(files: seq<seq<string>>) returns (ok: bool)
      requires nodes == map[[] := Directory([])]
      requires forall i :: 0 <= i < |files| ==> files[i] != []
      modifies this
      ensures ok && Publishes(fold, nodes, files, |files|) <==> Acceptable(fold, AsEntries(files))
    {
      ghost var acceptable := Acceptable(fold, AsEntries(files));
      var n := 0;
      while n < |files|
        invariant 0 <= n <= |files|
        invariant [] in nodes && nodes[[]] == Directory([])
        invariant Distinct(fold, nodes, files, n)
        invariant acceptable ==> Publishes(fold, nodes, files, n)
      {
        ghost var before := nodes;
        if acceptable { NextFileFits(fold, before, files, n); }
        var made := MakeParents(files[n]);
        if !made {
          return false;
        }
        ghost var between := nodes;
        DepthsDiffer(fold, files[n], |files[n]|);
        var created := CreateExclusive(files[n]);
        if !created {
          return false;
        }
        StillDistinct(fold, before, between, files, n);
        if acceptable { OneMoreFile(fold, before, between, files, n); }
        n := n + 1;
      }
      if Publishes(fold, nodes, files, |files|) {
        PublishedImpliesAcceptable(fold, nodes, files);
      }
      return true;
    }
  }

  ghost function WithFile(fold: char -> string, tree: Tree, parts: seq<string>): Tree
    requires parts != [] && At(fold, parts, |parts| - 1) in tree
  {
    tree[At(fold, parts, |parts|) :=
      File(tree[At(fold, parts, |parts| - 1)].spelled + [parts[|parts| - 1]])]
  }

  lemma DepthsDiffer(fold: char -> string, parts: seq<string>, n: nat)
    requires n <= |parts|
    ensures forall k :: 0 <= k < n ==> At(fold, parts, k) != At(fold, parts, n)
  {
  }

  lemma ParentPresent(fold: char -> string, before: Tree, now: Tree, parts: seq<string>, n: nat)
    requires 1 <= n < |parts| && ParentsFree(fold, before, parts, n) && ParentsMade(fold, before, now, parts, n)
    requires At(fold, parts, n) in now
    ensures At(fold, parts, n) in before && before[At(fold, parts, n)] == now[At(fold, parts, n)]
    ensures now[At(fold, parts, n)].Directory? ==>
      ParentsFree(fold, before, parts, n + 1) && ParentsMade(fold, before, now, parts, n + 1)
  {
    DepthsDiffer(fold, parts, n);
  }

  lemma ParentMissing(fold: char -> string, before: Tree, now: Tree, parts: seq<string>, n: nat)
    requires 1 <= n < |parts| && ParentsFree(fold, before, parts, n) && ParentsMade(fold, before, now, parts, n)
    requires At(fold, parts, n) !in now
    ensures At(fold, parts, n - 1) in now
    ensures var spelled := now[At(fold, parts, n - 1)].spelled + [parts[n - 1]];
      ParentsMade(fold, before, now[At(fold, parts, n) := Directory(spelled)], parts, n + 1)
    ensures ParentsFree(fold, before, parts, n + 1)
  {
    DepthsDiffer(fold, parts, n);
    var here := At(fold, parts, n);
    assert At(fold, parts, n - 1) in now;
    var after := now[here := Directory(now[At(fold, parts, n - 1)].spelled + [parts[n - 1]])];
    forall p | p in after ensures p in before || exists k :: 1 <= k < n + 1 && p == At(fold, parts, k) {
      if p != here && p !in before {
        var k :| 1 <= k < n && p == At(fold, parts, k);
      }
    }
    forall k | 1 <= k < n + 1 && At(fold, parts, k) !in before
      ensures At(fold, parts, k) in after && At(fold, parts, k - 1) in after
      ensures after[At(fold, parts, k)].spelled == after[At(fold, parts, k - 1)].spelled + [parts[k - 1]]
    {
      if k < n { assert At(fold, parts, k) != here && At(fold, parts, k - 1) != here; }
    }
  }

  /** The files made so far have distinct folded paths, all present. */
  ghost predicate Distinct(fold: char -> string, tree: Tree, files: seq<seq<string>>, n: nat)
    requires n <= |files|
  {
    && (forall i :: 0 <= i < n ==> At(fold, files[i], |files[i]|) in tree)
    && (forall i, j :: 0 <= i < j < n ==> At(fold, files[i], |files[i]|) != At(fold, files[j], |files[j]|))
  }

  lemma StillDistinct(fold: char -> string, before: Tree, between: Tree, files: seq<seq<string>>, n: nat)
    requires n < |files| && files[n] != []
    requires Distinct(fold, before, files, n)
    requires ParentsMade(fold, before, between, files[n], |files[n]|)
    requires At(fold, files[n], |files[n]|) !in between
    ensures Distinct(fold, WithFile(fold, between, files[n]), files, n + 1)
  {
  }

  /** Compatible files share only parent directories, spelled alike. */
  lemma SharedAt(fold: char -> string, f: seq<string>, g: seq<string>, k: nat)
    requires Compatible(fold, Entry(f, false), Entry(g, false))
    requires k <= |f| && k <= |g| && At(fold, f, k) == At(fold, g, k)
    ensures k < |f| && k < |g| && f[..k] == g[..k]
  {
    var F, G := Folded(fold, f), Folded(fold, g);
    assert F[..|F|] == F && G[..|G|] == G;
  }

  lemma CompatibleFiles(fold: char -> string, files: seq<seq<string>>, i: nat, j: nat)
    requires Acceptable(fold, AsEntries(files)) && i < j < |files|
    ensures Compatible(fold, Entry(files[i], false), Entry(files[j], false))
  {
    var es := AsEntries(files);
    assert Compatible(fold, es[i], es[j]);
  }

  /** A node of the tree lies on the way to some file made so far, and above it is one of its directories. */
  lemma NodeOfSomeFile(fold: char -> string, tree: Tree, files: seq<seq<string>>, n: nat, p: seq<string>)
    returns (i: nat, k: nat)
    requires n <= |files| && Publishes(fold, tree, files, n) && p in tree && p != []
    ensures i < n && k <= |files[i]| && p == At(fold, files[i], k)
    ensures k < |files[i]| ==> HasDirectory(fold, tree, files[i], k)
  {
    assert OnSomePath(fold, files, n, p);
    i, k :| 0 <= i < n && 0 <= k <= |files[i]| && p == At(fold, files[i], k);
  }

  lemma SameDirectory(fold: char -> string, tree: Tree, f: seq<string>, g: seq<string>, k: nat)
    requires k < |f| && k < |g| && f[..k] == g[..k] && At(fold, f, k) == At(fold, g, k)
    requires HasDirectory(fold, tree, f, k)
    ensures HasDirectory(fold, tree, g, k)
  {
  }

  lemma RootDirectory(fold: char -> string, tree: Tree, files: seq<seq<string>>, n: nat, f: seq<string>)
    requires n <= |files| && Publishes(fold, tree, files, n) && f != []
    ensures HasDirectory(fold, tree, f, 0)
  {
    assert At(fold, f, 0) == [];
  }

  lemma AtLength(fold: char -> string, f: seq<string>, k: nat)
    requires k <= |f|
    ensures |At(fold, f, k)| == k
  {
  }

  /** A node already present on the way to the next file is one of its parents. */
  lemma NodeOnTheWay(fold: char -> string, tree: Tree, files: seq<seq<string>>, n: nat, k: nat)
    requires n < |files| && Acceptable(fold, AsEntries(files)) && Publishes(fold, tree, files, n)
    requires k <= |files[n]| && At(fold, files[n], k) in tree && files[n] != []
    ensures k < |files[n]| && HasDirectory(fold, tree, files[n], k)
  {
    AtLength(fold, files[n], k);
    if k == 0 {
      RootDirectory(fold, tree, files, n, files[n]);
    } else {
      var i, l := NodeOfSomeFile(fold, tree, files, n, At(fold, files[n], k));
      AtLength(fold, files[i], l);
      CompatibleFiles(fold, files, i, n);
      SharedAt(fold, files[i], files[n], k);
      SameDirectory(fold, tree, files[i], files[n], k);
    }
  }

  lemma NextFileFits(fold: char -> string, tree: Tree, files: seq<seq<string>>, n: nat)
    requires n < |files| && Acceptable(fold, AsEntries(files)) && Publishes(fold, tree, files, n)
    requires files[n] != []
    ensures forall k :: 0 <= k < |files[n]| && At(fold, files[n], k) in tree ==> HasDirectory(fold, tree, files[n], k)
    ensures At(fold, files[n], |files[n]|) !in tree
  {
    forall k | 0 <= k < |files[n]| && At(fold, files[n], k) in tree
      ensures HasDirectory(fold, tree, files[n], k)
    {
      NodeOnTheWay(fold, tree, files, n, k);
    }
    if At(fold, files[n], |files[n]|) in tree {
      NodeOnTheWay(fold, tree, files, n, |files[n]|);
    }
  }

  lemma {:induction false} ParentSpelling(
    fold: char -> string, before: Tree, between: Tree, parts: seq<string>, k: nat)
    requires k < |parts|
    requires [] in before && before[[]] == Directory([])
    requires forall k :: 0 <= k < |parts| && At(fold, parts, k) in before ==> HasDirectory(fold, before, parts, k)
    requires ParentsMade(fold, before, between, parts, |parts|)
    ensures HasDirectory(fold, between, parts, k)
  {
    if k == 0 {
      assert At(fold, parts, 0) == [];
    } else {
      ParentSpelling(fold, before, between, parts, k - 1);
      assert parts[..k] == parts[..k - 1] + [parts[k - 1]];
    }
  }

  lemma FileShown(fold: char -> string, between: Tree, f: seq<string>)
    requires f != [] && HasDirectory(fold, between, f, |f| - 1)
    ensures HasFile(fold, WithFile(fold, between, f), f)
  {
    assert f[..|f| - 1] + [f[|f| - 1]] == f;
  }

  lemma DirectoryStays(fold: char -> string, between: Tree, f: seq<string>, k: nat)
    requires k < |f| && HasDirectory(fold, between, f, k) && HasDirectory(fold, between, f, |f| - 1)
    ensures HasDirectory(fold, WithFile(fold, between, f), f, k)
  {
    AtLength(fold, f, k);
    AtLength(fold, f, |f|);
  }

  lemma NewFileShown(fold: char -> string, before: Tree, between: Tree, f: seq<string>)
    requires f != [] && [] in before && before[[]] == Directory([])
    requires forall k :: 0 <= k < |f| && At(fold, f, k) in before ==> HasDirectory(fold, before, f, k)
    requires ParentsMade(fold, before, between, f, |f|)
    ensures forall k :: 0 <= k < |f| ==> HasDirectory(fold, WithFile(fold, between, f), f, k)
    ensures HasFile(fold, WithFile(fold, between, f), f)
  {
    ParentSpelling(fold, before, between, f, |f| - 1);
    FileShown(fold, between, f);
    forall k | 0 <= k < |f| ensures HasDirectory(fold, WithFile(fold, between, f), f, k) {
      ParentSpelling(fold, before, between, f, k);
      DirectoryStays(fold, between, f, k);
    }
  }

  lemma OnlyItsOwnNodes(fold: char -> string, before: Tree, between: Tree, files: seq<seq<string>>, n: nat, p: seq<string>)
    requires n < |files| && files[n] != []
    requires p in before && p != [] ==> OnSomePath(fold, files, n, p)
    requires ParentsMade(fold, before, between, files[n], |files[n]|)
    requires p in WithFile(fold, between, files[n]) && p != []
    ensures OnSomePath(fold, files, n + 1, p)
  {
    if p !in before {
      assert exists k :: 0 <= k <= |files[n]| && p == At(fold, files[n], k);
    }
  }

  lemma GrownTreeKeeps(fold: char -> string, before: Tree, after: Tree, files: seq<seq<string>>, n: nat)
    requires n <= |files| && Publishes(fold, before, files, n)
    requires forall p :: p in before ==> p in after && after[p] == before[p]
    ensures forall i, k :: 0 <= i < n && 0 <= k < |files[i]| ==> HasDirectory(fold, after, files[i], k)
    ensures forall i :: 0 <= i < n ==> HasFile(fold, after, files[i])
  {
    forall i, k | 0 <= i < n && 0 <= k < |files[i]| ensures HasDirectory(fold, after, files[i], k) {
      assert HasDirectory(fold, before, files[i], k);
    }
    forall i | 0 <= i < n ensures HasFile(fold, after, files[i]) {
      assert HasFile(fold, before, files[i]);
    }
  }

  lemma OneMoreFile(fold: char -> string, before: Tree, between: Tree, files: seq<seq<string>>, n: nat)
    requires n < |files| && files[n] != []
    requires Publishes(fold, before, files, n)
    requires forall k :: 0 <= k < |files[n]| && At(fold, files[n], k) in before ==> HasDirectory(fold, before, files[n], k)
    requires ParentsMade(fold, before, between, files[n], |files[n]|)
    requires At(fold, files[n], |files[n]|) !in between
    ensures Publishes(fold, WithFile(fold, between, files[n]), files, n + 1)
  {
    var f, after := files[n], WithFile(fold, between, files[n]);
    NewFileShown(fold, before, between, f);
    GrownTreeKeeps(fold, before, after, files, n);
    forall i, k | 0 <= i < n + 1 && 0 <= k < |files[i]| ensures HasDirectory(fold, after, files[i], k) {
      if i == n { assert HasDirectory(fold, after, f, k); }
    }
    forall i | 0 <= i < n + 1 ensures HasFile(fold, after, files[i]) {
      if i == n { assert HasFile(fold, after, f); }
    }
    assert [] in after && after[[]] == Directory([]);
    forall p | p in after && p != [] ensures OnSomePath(fold, files, n + 1, p) {
      OnlyItsOwnNodes(fold, before, between, files, n, p);
    }
  }

  /** A tree that shows each of the distinct files as declared comes only from compatible paths. */
  lemma PublishedImpliesAcceptable(fold: char -> string, tree: Tree, files: seq<seq<string>>)
    requires Publishes(fold, tree, files, |files|) && Distinct(fold, tree, files, |files|)
    ensures Acceptable(fold, AsEntries(files))
  {
    forall i, j | 0 <= i < j < |files|
      ensures Compatible(fold, Entry(files[i], false), Entry(files[j], false))
    {
      assert HasFile(fold, tree, files[i]) && HasFile(fold, tree, files[j]);
      assert At(fold, files[i], |files[i]|) != At(fold, files[j], |files[j]|);
      ShownTogether(fold, tree, files[i], files[j]);
    }
  }

  lemma ShownTogether(fold: char -> string, tree: Tree, f: seq<string>, g: seq<string>)
    requires HasFile(fold, tree, f) && forall k :: 0 <= k < |f| ==> HasDirectory(fold, tree, f, k)
    requires HasFile(fold, tree, g) && forall k :: 0 <= k < |g| ==> HasDirectory(fold, tree, g, k)
    requires At(fold, f, |f|) != At(fold, g, |g|)
    ensures Compatible(fold, Entry(f, false), Entry(g, false))
  {
    PrefixesApart(fold, tree, f, g);
    PrefixesApart(fold, tree, g, f);
    var F, G := Folded(fold, f), Folded(fold, g);
    assert F == At(fold, f, |f|) && G == At(fold, g, |g|);
    forall k | 0 <= k <= |f| && k <= |g| && F[..k] == G[..k] ensures f[..k] == g[..k] {
      assert At(fold, f, k) == At(fold, g, k);
      if k < |f| && k < |g| {
        assert HasDirectory(fold, tree, f, k) && HasDirectory(fold, tree, g, k);
      }
    }
  }

  lemma PrefixesApart(fold: char -> string, tree: Tree, f: seq<string>, g: seq<string>)
    requires HasFile(fold, tree, f) && forall k :: 0 <= k < |g| ==> HasDirectory(fold, tree, g, k)
    ensures forall k :: 0 <= k < |g| ==> At(fold, f, |f|) != At(fold, g, k)
    ensures !(Folded(fold, f) < Folded(fold, g))
  {
    forall k | 0 <= k < |g| ensures At(fold, f, |f|) != At(fold, g, k) {
      assert HasDirectory(fold, tree, g, k);
    }
    var F, G := Folded(fold, f), Folded(fold, g);
    assert F == At(fold, f, |f|);
    assert |F| < |G| ==> G[..|F|] == At(fold, g, |F|);
  }

  ghost function FilesOf(h: seq<Entry>): seq<seq<string>> {
    if h == [] then []
    else FilesOf(h[..|h| - 1]) + if h[|h| - 1].directory then [] else [h[|h| - 1].parts]
  }

  lemma {:induction false} FilesOfMembers(h: seq<Entry>, i: nat)
    requires i < |FilesOf(h)|
    ensures Entry(FilesOf(h)[i], false) in h
  {
    var init := h[..|h| - 1];
    if i < |FilesOf(init)| { FilesOfMembers(init, i); }
  }

  /** What the registrar accepted, directories included, can always be published. */
  lemma {:induction false} AcceptedFilesPublish(fold: char -> string, h: seq<Entry>)
    requires Acceptable(fold, h)
    ensures Acceptable(fold, AsEntries(FilesOf(h)))
  {
    if h != [] {
      var init, last := h[..|h| - 1], h[|h| - 1];
      AcceptedFilesPublish(fold, init);
      var files, es := FilesOf(h), AsEntries(FilesOf(h));
      forall i, j | 0 <= i < j < |files| ensures Compatible(fold, es[i], es[j]) {
        assert i < |FilesOf(init)|;
        if j < |FilesOf(init)| {
          assert es[i] == AsEntries(FilesOf(init))[i] && es[j] == AsEntries(FilesOf(init))[j];
        } else {
          FilesOfMembers(init, i);
          var m :| 0 <= m < |init| && init[m] == es[i];
          assert Compatible(fold, h[m], last);
        }
      }
    }
  }
}
