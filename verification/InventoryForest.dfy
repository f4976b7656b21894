/** The inventory of the first clean-initialization journal: checked entry by entry, it is a forest with one
    tree for every move. */
module InventoryForest {
  import opened Collections
  import opened Listings
  import opened Outcomes
  import opened Paths

  datatype Entry = File(path: string, size: nat) | Directory(path: string, children: seq<string>)

  /** What a move takes along: a file, or a directory with everything in it. */
  datatype Root = Root(source: string, directory: bool)

  const MAX_TOTAL_BYTES := 512 * 1024 * 1024

  function EntryPaths(entries: seq<Entry>): (r: seq<string>)
    ensures |r| == |entries| && forall k :: 0 <= k < |r| ==> r[k] == entries[k].path
  {
    seq(|entries|, k requires 0 <= k < |entries| => entries[k].path)
  }

  function RootSources(roots: seq<Root>): (r: seq<string>)
    ensures |r| == |roots| && forall k :: 0 <= k < |r| ==> r[k] == roots[k].source
  {
    seq(|roots|, k requires 0 <= k < |roots| => roots[k].source)
  }

  function FindEntry(entries: seq<Entry>, path: string): (r: Option<Entry>)
    ensures r.Some? ==> r.value in entries && r.value.path == path
    ensures r.None? ==> forall e :: e in entries ==> e.path != path
  {
    if entries == [] then None else if entries[0].path == path then Some(entries[0]) else FindEntry(entries[1..], path)
  }

  function FindRoot(roots: seq<Root>, source: string): (r: Option<Root>)
    ensures r.Some? ==> r.value in roots && r.value.source == source
    ensures r.None? ==> forall m :: m in roots ==> m.source != source
  {
    if roots == [] then None else if roots[0].source == source then Some(roots[0]) else FindRoot(roots[1..], source)
  }

  function SizeOf(entry: Entry): nat { if entry.File? then entry.size else 0 }

  function TotalBytes(entries: seq<Entry>): nat {
    Sum(entries, SizeOf)
  }

  // ---------------------------------------------------------------- what an acceptable inventory is

  predicate Owns(r: Root, path: string) {
    Contains(r.source, path) && (r.directory || path == r.source)
  }

  ghost predicate Owned(roots: seq<Root>, path: string) {
    exists r :: r in roots && Owns(r, path)
  }

  ghost predicate ParentListed(entries: seq<Entry>, path: string) {
    exists d :: d in entries && d.Directory? && ChildOf(path, d.path)
  }

  /** A directory lists exactly the names directly below it, in order. */
  ghost predicate ChildrenListed(entries: seq<Entry>, directory: string, children: seq<string>) {
    && (forall n :: n in children ==> SafePath(n, false) && '/' !in n)
    && FoldedDistinct(children) && Ordered(children)
    && forall n :: n in children <==> ChildNamed(EntryPaths(entries), directory, n)
  }

  ghost predicate EntrySound(entries: seq<Entry>, roots: seq<Root>, e: Entry) {
    && Owned(roots, e.path)
    && (FindRoot(roots, e.path).None? ==> ParentListed(entries, e.path))
    && (e.Directory? ==> ChildrenListed(entries, e.path, e.children))
  }

  predicate RootListed(entries: seq<Entry>, r: Root) {
    FindEntry(entries, r.source).Some? && FindEntry(entries, r.source).value.Directory? == r.directory
  }

  ghost predicate PathsSound(paths: seq<string>, disjoint: bool) {
    AllSafe(paths, false) && FoldedDistinct(paths) && (disjoint ==> NoneOverlap(paths))
  }

  ghost predicate ForestSound(entries: seq<Entry>, roots: seq<Root>) {
    && PathsSound(RootSources(roots), true) && PathsSound(EntryPaths(entries), false)
    && (forall r :: r in roots ==> RootListed(entries, r))
    && (forall e :: e in entries ==> EntrySound(entries, roots, e))
    && TotalBytes(entries) <= MAX_TOTAL_BYTES
    && Ordered(EntryPaths(entries))
  }

  /** A file is its own; a directory is its own with everything below it. */
  lemma OwnsIff(r: Root, path: string)
    ensures Owns(r, path) <==> path == r.source || (r.directory && r.source + "/" <= path)
  {
  }

  /** A move has an entry of its own, of its own kind. */
  lemma RootListedIff(entries: seq<Entry>, r: Root)
    requires Distinct(EntryPaths(entries))
    ensures RootListed(entries, r) <==> exists e :: e in entries && e.path == r.source && (e.Directory? <==> r.directory)
  {
    forall e, e' | e in entries && e' in entries && e.path == e'.path ensures e == e' {
      var i :| 0 <= i < |entries| && entries[i] == e;
      var j :| 0 <= j < |entries| && entries[j] == e';
      assert EntryPaths(entries)[i] == EntryPaths(entries)[j];
    }
  }

  // ---------------------------------------------------------------- the checks

  /** Climbs from an entry to the move it belongs to. */
  method FindOwner(path: string, roots: seq<Root>) returns (owner: Option<Root>)
    ensures owner.Some? ==> owner.value in roots && Contains(owner.value.source, path)
    ensures owner.None? ==> forall r :: r in roots ==> !Contains(r.source, path)
  {
    var candidate := path;
    owner := FindRoot(roots, candidate);
    while owner.None? && LastSlash(candidate) >= 0
      invariant |candidate| <= |path| && candidate == path[..|candidate|] && (candidate == path || CutAt(path, |candidate|))
      invariant owner == FindRoot(roots, candidate)
      invariant owner.None? ==> forall r :: r in roots && Contains(r.source, path) ==> |r.source| < |candidate|
      decreases |candidate|
    {
      var k := LastSlash(candidate);
      NoCutBetween(path, candidate, roots);
      candidate := candidate[..k];
      owner := FindRoot(roots, candidate);
      RootsBelow(path, candidate, roots);
    }
    if owner.Some? {
      AncestorsAreCuts(candidate, path);
    } else {
      NoCutBelow(path, candidate, roots);
    }
  }

  /** Above a candidate and below the next one there is no ancestor. */
  lemma NoCutBetween(path: string, candidate: string, roots: seq<Root>)
    requires |candidate| <= |path| && candidate == path[..|candidate|] && LastSlash(candidate) >= 0
    requires forall r :: r in roots && Contains(r.source, path) ==> |r.source| < |candidate|
    ensures forall r :: r in roots && Contains(r.source, path) ==> |r.source| <= LastSlash(candidate)
  {
    forall r | r in roots && Contains(r.source, path) ensures |r.source| <= LastSlash(candidate) {
      AncestorsAreCuts(r.source, path);
      assert path[|r.source|] == candidate[|r.source|];
    }
  }

  lemma RootsBelow(path: string, candidate: string, roots: seq<Root>)
    requires |candidate| <= |path| && candidate == path[..|candidate|]
    requires forall r :: r in roots && Contains(r.source, path) ==> |r.source| <= |candidate|
    ensures FindRoot(roots, candidate).None? ==> forall r :: r in roots && Contains(r.source, path) ==> |r.source| < |candidate|
  {
    forall r | r in roots && Contains(r.source, path) && FindRoot(roots, candidate).None? ensures |r.source| < |candidate| {
      AncestorsAreCuts(r.source, path);
    }
  }

  lemma NoCutBelow(path: string, candidate: string, roots: seq<Root>)
    requires |candidate| <= |path| && candidate == path[..|candidate|] && LastSlash(candidate) < 0
    requires forall r :: r in roots && Contains(r.source, path) ==> |r.source| < |candidate|
    ensures forall r :: r in roots ==> !Contains(r.source, path)
  {
    forall r | r in roots ensures !Contains(r.source, path) {
      AncestorsAreCuts(r.source, path);
      assert |r.source| < |candidate| ==> path[|r.source|] == candidate[|r.source|];
    }
  }

  lemma OneOwner(roots: seq<Root>, a: Root, b: Root, path: string)
    requires PathsSound(RootSources(roots), true) && a in roots && b in roots && Contains(a.source, path) && Contains(b.source, path)
    ensures a == b
  {
    var i :| 0 <= i < |roots| && roots[i] == a;
    var j :| 0 <= j < |roots| && roots[j] == b;
    assert RootSources(roots)[i] == a.source && RootSources(roots)[j] == b.source;
    OneAncestor(a.source, b.source, path);
  }

  /** Two ancestors of one path lie on one line. */
  lemma OneAncestor(a: string, b: string, path: string)
    requires Contains(a, path) && Contains(b, path)
    ensures Contains(Fold(a), Fold(b)) || Contains(Fold(b), Fold(a))
    decreases |a|
  {
    if |a| <= |b| {
      Nested(a, b, path);
      FoldsContain(a, b);
    } else {
      Nested(b, a, path);
      FoldsContain(b, a);
    }
  }

  lemma Nested(a: string, b: string, path: string)
    requires Contains(a, path) && Contains(b, path) && |a| <= |b|
    ensures Contains(a, b)
  {
    AncestorsAreCuts(a, path);
    AncestorsAreCuts(b, path);
    AncestorsAreCuts(a, b);
    assert a == path[..|a|] && b == path[..|b|];
    if |a| < |b| {
      assert b[..|a|] == a && b[|a|] == path[|a|];
    }
  }

  lemma OwnedByNearest(roots: seq<Root>, path: string, owner: Option<Root>)
    requires PathsSound(RootSources(roots), true)
    requires owner.Some? ==> owner.value in roots && Contains(owner.value.source, path)
    requires owner.None? ==> forall r :: r in roots ==> !Contains(r.source, path)
    ensures Owned(roots, path) <==> owner.Some? && (owner.value.directory || path == owner.value.source)
    ensures owner.Some? ==> (FindRoot(roots, path).Some? <==> path == owner.value.source)
  {
    if owner.Some? {
      forall r | r in roots && Contains(r.source, path) ensures r == owner.value {
        OneOwner(roots, r, owner.value, path);
      }
    }
  }

  method CheckChildren(entries: seq<Entry>, directory: string, children: seq<string>, actual: seq<string>) returns (ok: bool)
    requires Distinct(EntryPaths(entries)) && actual == Names(EntryPaths(entries), directory)
    ensures ok <==> ChildrenListed(entries, directory, children)
  {
    if exists n :: n in children && (!SafePath(n, false) || '/' in n) { return false; }
    var unique := UniquePaths(children, false, false);
    if !unique { return false; }
    ListedIsSorted(EntryPaths(entries), directory, children);
    ok := children == SortNames(actual);
  }

  predicate IsDirectory(entry: Option<Entry>) {
    entry.Some? && entry.value.Directory?
  }

  lemma ParentLookup(entries: seq<Entry>, path: string)
    requires Distinct(EntryPaths(entries))
    ensures LastSlash(path) >= 0 ==> (IsDirectory(FindEntry(entries, Dirname(path))) <==> ParentListed(entries, path))
  {
    if ParentListed(entries, path) {
      var d :| d in entries && d.Directory? && ChildOf(path, d.path);
      var e := FindEntry(entries, Dirname(path)).value;
      SameEntry(entries, d, e);
    }
  }

  lemma SameEntry(entries: seq<Entry>, d: Entry, e: Entry)
    requires Distinct(EntryPaths(entries)) && d in entries && e in entries && d.path == e.path
    ensures d == e
  {
    var i :| 0 <= i < |entries| && entries[i] == d;
    var j :| 0 <= j < |entries| && entries[j] == e;
    assert EntryPaths(entries)[i] == EntryPaths(entries)[j];
  }

  /** Below its move, an entry's path has a parent. */
  lemma BelowHasParent(source: string, path: string)
    requires Contains(source, path) && source != path
    ensures LastSlash(path) >= 0
  {
    AncestorsAreCuts(source, path);
  }

  method CheckEntry(entries: seq<Entry>, roots: seq<Root>, e: Entry, directChildren: map<string, seq<string>>) returns (ok: bool)
    requires PathsSound(RootSources(roots), true) && Distinct(EntryPaths(entries))
    requires forall d :: Listed(directChildren, d) == Names(EntryPaths(entries), d)
    ensures ok <==> EntrySound(entries, roots, e)
  {
    hide ChildrenListed, ParentListed, PathsSound;
    var owner := FindOwner(e.path, roots);
    OwnedByNearest(roots, e.path, owner);
    if owner.None? || (!owner.value.directory && e.path != owner.value.source) { return false; }
    if e.path != owner.value.source {
      BelowHasParent(owner.value.source, e.path);
      ParentLookup(entries, e.path);
      if !IsDirectory(FindEntry(entries, Dirname(e.path))) { return false; }
    }
    if e.Directory? {
      ok := CheckChildren(entries, e.path, e.children, Listed(directChildren, e.path));
      return;
    }
    return true;
  }

  /** Every entry with its owner, parent and children; and the sizes as they add up. */
  method CheckEntries(entries: seq<Entry>, roots: seq<Root>) returns (ok: bool)
    requires PathsSound(RootSources(roots), true) && Distinct(EntryPaths(entries))
    ensures ok <==> (forall e :: e in entries ==> EntrySound(entries, roots, e)) && TotalBytes(entries) <= MAX_TOTAL_BYTES
  {
    hide EntrySound, PathsSound, Distinct;
    var directChildren := DirectChildren(EntryPaths(entries));
    var bytes := 0;
    for i := 0 to |entries|
      invariant forall k :: 0 <= k < i ==> EntrySound(entries, roots, entries[k])
      invariant bytes == TotalBytes(entries[..i]) <= MAX_TOTAL_BYTES
    {
      var sound := CheckEntry(entries, roots, entries[i], directChildren);
      if !sound {
        assert entries[i] in entries;
        return false;
      }
      assert entries[..i + 1][..i] == entries[..i];
      bytes := bytes + if entries[i].File? then entries[i].size else 0;
      if bytes > MAX_TOTAL_BYTES {
        SumGrows(entries, SizeOf, i + 1);
        return false;
      }
    }
    assert entries[..|entries|] == entries;
    return true;
  }

  /** checkSemantics on the inventory and the moves it belongs to. */
  method CheckInventory(entries: seq<Entry>, roots: seq<Root>) returns (ok: bool)
    ensures ok <==> ForestSound(entries, roots)
  {
    hide EntrySound;
    var sources := UniquePaths(RootSources(roots), true, false);
    if !sources { return false; }
    var paths := UniquePaths(EntryPaths(entries), false, false);
    if !paths { return false; }
    FoldedIsDistinct(EntryPaths(entries));
    if exists r :: r in roots && !RootListed(entries, r) { return false; }
    ok := CheckEntries(entries, roots);
    if ok {
      ok := CheckOrdered(EntryPaths(entries));
    }
  }

  // ---------------------------------------------------------------- the forest

  /** A path that is a root, or that a reached directory lists. */
  ghost predicate Reached(entries: seq<Entry>, root: Root, path: string)
    decreases |path|
  {
    path == root.source ||
    (LastSlash(path) >= 0 && Reached(entries, root, Dirname(path))
     && exists d :: d in entries && d.Directory? && d.path == Dirname(path) && Leaf(path) in d.children)
  }

  lemma {:induction false} ReachedIsBelow(entries: seq<Entry>, root: Root, path: string)
    requires Reached(entries, root, path)
    ensures Contains(root.source, path)
    decreases |path|
  {
    if path != root.source {
      ReachedIsBelow(entries, root, Dirname(path));
      SplitPath(path);
      assert root.source + "/" <= path;
    }
  }

  lemma ParentStaysBelow(source: string, path: string)
    requires Contains(source, path) && path != source
    ensures LastSlash(path) >= 0 && Contains(source, Dirname(path))
  {
    AncestorsAreCuts(source, path);
    AncestorsAreCuts(source, Dirname(path));
    var k := LastSlash(path);
    assert path[|source|] == '/' && |source| <= k;
    assert |source| < k ==> path[..k][|source|] == '/' && path[..k][..|source|] == source;
    assert |source| == k ==> path[..k] == source;
  }

  lemma {:induction false} EntryIsReached(entries: seq<Entry>, roots: seq<Root>, root: Root, e: Entry)
    requires ForestSound(entries, roots) && root in roots && e in entries && Owns(root, e.path)
    ensures Reached(entries, root, e.path)
    decreases |e.path|
  {
    if e.path != root.source {
      ParentStaysBelow(root.source, e.path);
      RootIsOwner(roots, root, e.path);
      assert EntrySound(entries, roots, e) && ParentListed(entries, e.path);
      var d :| d in entries && d.Directory? && ChildOf(e.path, d.path);
      assert EntrySound(entries, roots, d) && ChildrenListed(entries, d.path, d.children);
      PathListed(entries, e);
      assert ChildNamed(EntryPaths(entries), d.path, Leaf(e.path));
      EntryIsReached(entries, roots, root, d);
    }
  }

  lemma RootIsOwner(roots: seq<Root>, root: Root, path: string)
    requires PathsSound(RootSources(roots), true) && root in roots && Contains(root.source, path) && path != root.source
    ensures FindRoot(roots, path).None?
  {
    if FindRoot(roots, path).Some? {
      OneOwner(roots, FindRoot(roots, path).value, root, path);
    }
  }

  /** An accepted inventory is a disjoint union of trees, one for every move: each entry belongs to exactly
      one move and is reached from its root, and from no other, by the children the directories list. */
  lemma InventoryIsForest(entries: seq<Entry>, roots: seq<Root>, e: Entry)
    requires ForestSound(entries, roots) && e in entries
    ensures exists r :: r in roots && Owns(r, e.path) && Reached(entries, r, e.path)
    ensures forall a, b :: a in roots && b in roots && Reached(entries, a, e.path) && Reached(entries, b, e.path) ==> a == b
    ensures forall r :: r in roots && Reached(entries, r, e.path) ==> Owns(r, e.path)
  {
    assert EntrySound(entries, roots, e);
    var r :| r in roots && Owns(r, e.path);
    EntryIsReached(entries, roots, r, e);
    forall a | a in roots && Reached(entries, a, e.path) ensures a == r {
      ReachedIsBelow(entries, a, e.path);
      OneOwner(roots, a, r, e.path);
    }
  }

  lemma ChildIsListed(entries: seq<Entry>, roots: seq<Root>, d: Entry, path: string)
    requires ForestSound(entries, roots) && d in entries && d.Directory? && ChildOf(path, d.path) && Leaf(path) in d.children
    ensures exists e :: e in entries && e.path == path
  {
    assert EntrySound(entries, roots, d);
    hide *;
    ListsItsChildren(entries, roots, d, Leaf(path));
    NamedIsListed(entries, d.path, path);
  }

  lemma ListsItsChildren(entries: seq<Entry>, roots: seq<Root>, d: Entry, name: string)
    requires EntrySound(entries, roots, d) && d.Directory? && name in d.children
    ensures ChildNamed(EntryPaths(entries), d.path, name)
  {
    hide Owned, ParentListed, Ordered, FoldedDistinct, SafePath, ChildNamed;
  }

  lemma NamedIsListed(entries: seq<Entry>, directory: string, path: string)
    requires ChildOf(path, directory) && ChildNamed(EntryPaths(entries), directory, Leaf(path))
    ensures exists e :: e in entries && e.path == path
  {
    var p :| p in EntryPaths(entries) && ChildOf(p, directory) && Leaf(p) == Leaf(path);
    var k :| 0 <= k < |entries| && EntryPaths(entries)[k] == p;
    SplitPath(p);
    SplitPath(path);
    assert entries[k] in entries;
  }

  lemma PathListed(entries: seq<Entry>, e: Entry)
    requires e in entries
    ensures e.path in EntryPaths(entries)
  {
    var k :| 0 <= k < |entries| && entries[k] == e;
    assert EntryPaths(entries)[k] == e.path;
  }

  /** Nothing is reached that is not in the inventory: what a directory lists is there. */
  lemma ReachedIsListed(entries: seq<Entry>, roots: seq<Root>, r: Root, path: string)
    requires ForestSound(entries, roots) && r in roots && Reached(entries, r, path)
    ensures exists e :: e in entries && e.path == path
  {
    hide PathsSound, TotalBytes, Ordered, EntrySound;
    if path == r.source {
      assert RootListed(entries, r);
    } else {
      var d :| d in entries && d.Directory? && d.path == Dirname(path) && Leaf(path) in d.children;
      ChildIsListed(entries, roots, d, path);
    }
  }
}
