/** The frozen inventory of a project relocation: what is moved where, the order in which directories
    are made, and the checks that keep the items of one relocation apart. */
module RelocationPlan {
  import opened Collections
  import opened Paths

  type Identity = string
  type Content = string

  /** SHA-256, taken to be injective. */
  datatype Digest = Sha256(preimage: Content)

  datatype PlannedFile = PlannedFile(source: string, destination: string, identity: Identity, size: nat, sha256: Digest)

  /** entries lists each of the directories. */
  datatype ItemPlan = ItemPlan(oldRoot: string, newRoot: string, directories: seq<string>, entries: seq<seq<string>>, files: seq<PlannedFile>)

  predicate Under(root: string, path: string) {
    root + "/" <= path
  }

  /** Where a path of the old project goes. */
  function Rebase(plan: ItemPlan, path: string): string
    requires |plan.oldRoot| <= |path|
  {
    plan.newRoot + path[|plan.oldRoot|..]
  }

  function Depth(path: string): nat {
    if path == "" then 0 else Depth(path[..|path| - 1]) + if path[|path| - 1] == '/' then 1 else 0
  }

  /** The order directories are made in: shallower ones first, then by name. */
  predicate Sooner(a: string, b: string) {
    Depth(a) < Depth(b) || (Depth(a) == Depth(b) && !LexLess(b, a))
  }

  function Insert(path: string, sorted: seq<string>): (r: seq<string>)
    ensures forall p :: p in r <==> p == path || p in sorted
  {
    if sorted == [] then [path]
    else if Sooner(path, sorted[0]) then [path] + sorted
    else [sorted[0]] + Insert(path, sorted[1..])
  }

  function Sort(paths: seq<string>): (r: seq<string>)
    ensures forall p :: p in r <==> p in paths
  {
    if paths == [] then [] else Insert(paths[0], Sort(paths[1..]))
  }

  function Rebased(plan: ItemPlan, directories: seq<string>): (r: seq<string>)
    requires forall d :: d in directories ==> |plan.oldRoot| <= |d|
    ensures forall p :: p in r <==> exists d :: d in directories && p == Rebase(plan, d) && p != plan.newRoot
  {
    if directories == [] then []
    else
      var rest := Rebased(plan, directories[1..]);
      var p := Rebase(plan, directories[0]);
      assert forall d :: d in directories <==> d == directories[0] || d in directories[1..];
      if p == plan.newRoot then rest else [p] + rest
  }

  predicate DirectoriesBelow(plan: ItemPlan) {
    forall d :: d in plan.directories ==> d == plan.oldRoot || Under(plan.oldRoot, d)
  }

  /** The directories to make below the new root, in the order they are made in. */
  function TargetPaths(plan: ItemPlan): (r: seq<string>)
    requires DirectoriesBelow(plan)
  {
    Sort(Rebased(plan, plan.directories))
  }

  // ---------------------------------------------------------------- what the frozen inventory guarantees

  ghost predicate FilesBelow(plan: ItemPlan) {
    && (forall f :: f in plan.files ==> Under(plan.oldRoot, f.source) && f.destination == Rebase(plan, f.source)
                                        && Dirname(f.source) in plan.directories)
    && (forall i, j :: 0 <= i < j < |plan.files| ==> plan.files[i].source != plan.files[j].source)
  }

  ghost predicate SoundItem(plan: ItemPlan) {
    && DirectoriesBelow(plan) && Distinct(plan.directories)
    && plan.oldRoot in plan.directories
    && (forall d :: d in plan.directories && d != plan.oldRoot ==> Dirname(d) in plan.directories)
    && FilesBelow(plan)
  }

  /** Old and new roots of all the items lie apart. */
  ghost predicate RootsApart(plans: seq<ItemPlan>) {
    && (forall i, j :: 0 <= i < |plans| && 0 <= j < |plans| ==> !Overlap(plans[i].oldRoot, plans[j].newRoot))
    && (forall i, j :: 0 <= i < |plans| && 0 <= j < |plans| && i != j ==>
          !Overlap(plans[i].oldRoot, plans[j].oldRoot) && !Overlap(plans[i].newRoot, plans[j].newRoot))
  }

  ghost predicate SoundPlan(plans: seq<ItemPlan>) {
    (forall i :: 0 <= i < |plans| ==> SoundItem(plans[i])) && RootsApart(plans)
  }

  /** moves.flatMap: old and new root of every item. */
  function Roots(plans: seq<ItemPlan>): (r: seq<string>)
    ensures |r| == 2 * |plans|
    ensures forall i :: 0 <= i < |plans| ==> r[2 * i] == plans[i].oldRoot && r[2 * i + 1] == plans[i].newRoot
  {
    seq(2 * |plans|, k requires 0 <= k < 2 * |plans| => if k % 2 == 0 then plans[k / 2].oldRoot else plans[k / 2].newRoot)
  }

  ghost predicate FoldedApart(roots: seq<string>, n: nat)
    requires n <= |roots|
  {
    forall i, j :: 0 <= i < n && i < j < |roots| ==> !Overlap(Fold(roots[i]), Fold(roots[j]))
  }

  /** No root may be at or above another, up to letter case. */
  method CheckRoots(roots: seq<string>) returns (ok: bool)
    ensures ok <==> FoldedApart(roots, |roots|)
  {
    hide Overlap;
    for i := 0 to |roots|
      invariant FoldedApart(roots, i)
    {
      for j := i + 1 to |roots|
        invariant forall k :: i < k < j ==> !Overlap(Fold(roots[i]), Fold(roots[k]))
      {
        if Overlap(Fold(roots[i]), Fold(roots[j])) { return false; }
      }
    }
    return true;
  }

  lemma FoldKeepsOverlap(a: string, b: string)
    requires !Overlap(Fold(a), Fold(b))
    ensures !Overlap(a, b) && !Overlap(b, a)
  {
    if Contains(a, b) {
      FoldsContain(a, b);
    } else if Contains(b, a) {
      FoldsContain(b, a);
    }
  }

  lemma TwoRoots(roots: seq<string>, i: nat, j: nat)
    requires FoldedApart(roots, |roots|) && i < |roots| && j < |roots| && i != j
    ensures !Overlap(roots[i], roots[j])
  {
    FoldKeepsOverlap(roots[if i < j then i else j], roots[if i < j then j else i]);
  }

  /** What the pairwise check accepts lies apart. */
  lemma CheckedRootsApart(plans: seq<ItemPlan>)
    requires FoldedApart(Roots(plans), |Roots(plans)|)
    ensures RootsApart(plans)
  {
    hide FoldedApart, Overlap, Roots;
    forall i, j | 0 <= i < |plans| && 0 <= j < |plans|
      ensures !Overlap(plans[i].oldRoot, plans[j].newRoot)
      ensures i != j ==> !Overlap(plans[i].oldRoot, plans[j].oldRoot) && !Overlap(plans[i].newRoot, plans[j].newRoot)
    {
      ItemRootsApart(plans, i, j);
    }
  }

  lemma ItemRootsApart(plans: seq<ItemPlan>, i: nat, j: nat)
    requires FoldedApart(Roots(plans), |Roots(plans)|) && i < |plans| && j < |plans|
    ensures !Overlap(plans[i].oldRoot, plans[j].newRoot)
    ensures i != j ==> !Overlap(plans[i].oldRoot, plans[j].oldRoot) && !Overlap(plans[i].newRoot, plans[j].newRoot)
  {
    hide FoldedApart, Overlap, Roots;
    TwoRoots(Roots(plans), 2 * i, 2 * j + 1);
    if i != j {
      TwoRoots(Roots(plans), 2 * i, 2 * j);
      TwoRoots(Roots(plans), 2 * i + 1, 2 * j + 1);
    }
  }

  // ---------------------------------------------------------------- sorting

  predicate ByDepth(paths: seq<string>) {
    forall i, j :: 0 <= i < j < |paths| ==> Depth(paths[i]) <= Depth(paths[j])
  }

  lemma {:induction false} InsertByDepth(path: string, sorted: seq<string>)
    requires ByDepth(sorted)
    ensures ByDepth(Insert(path, sorted))
  {
    if sorted != [] && !Sooner(path, sorted[0]) {
      InsertByDepth(path, sorted[1..]);
      var rest := Insert(path, sorted[1..]);
      forall j | 0 <= j < |rest| ensures Depth(sorted[0]) <= Depth(rest[j]) {
        assert rest[j] in rest;
        assert rest[j] == path || rest[j] in sorted[1..];
      }
    }
  }

  lemma {:induction false} SortByDepth(paths: seq<string>)
    ensures ByDepth(Sort(paths))
  {
    if paths != [] {
      SortByDepth(paths[1..]);
      InsertByDepth(paths[0], Sort(paths[1..]));
    }
  }

  lemma {:induction false} InsertDistinct(path: string, sorted: seq<string>)
    requires Distinct(sorted) && path !in sorted
    ensures Distinct(Insert(path, sorted))
  {
    if sorted != [] && !Sooner(path, sorted[0]) {
      InsertDistinct(path, sorted[1..]);
      var rest := Insert(path, sorted[1..]);
      forall j | 0 <= j < |rest| ensures sorted[0] != rest[j] {
        assert rest[j] in rest;
        assert rest[j] == path || rest[j] in sorted[1..];
      }
    }
  }

  lemma {:induction false} SortDistinct(paths: seq<string>)
    requires Distinct(paths)
    ensures Distinct(Sort(paths))
  {
    if paths != [] {
      SortDistinct(paths[1..]);
      assert paths[0] !in paths[1..];
      InsertDistinct(paths[0], Sort(paths[1..]));
    }
  }

  lemma {:induction false} RebasedDistinct(plan: ItemPlan, directories: seq<string>)
    requires Distinct(directories)
    requires forall d :: d in directories ==> |plan.oldRoot| <= |d| && (d == plan.oldRoot || Under(plan.oldRoot, d))
    ensures Distinct(Rebased(plan, directories))
  {
    if directories != [] {
      RebasedDistinct(plan, directories[1..]);
      var p := Rebase(plan, directories[0]);
      var rest := Rebased(plan, directories[1..]);
      forall d | d in directories[1..] ensures Rebase(plan, d) != p {
        assert d != directories[0];
        RebaseInjective(plan, d, directories[0]);
      }
      assert p !in rest;
      assert Rebased(plan, directories) == if p == plan.newRoot then rest else [p] + rest;
    }
  }

  lemma RebaseInjective(plan: ItemPlan, a: string, b: string)
    requires (a == plan.oldRoot || Under(plan.oldRoot, a)) && (b == plan.oldRoot || Under(plan.oldRoot, b))
    ensures Rebase(plan, a) == Rebase(plan, b) ==> a == b
  {
    var n := |plan.oldRoot|;
    assert a == plan.oldRoot + a[n..] && b == plan.oldRoot + b[n..];
    if Rebase(plan, a) == Rebase(plan, b) {
      assert Rebase(plan, a)[|plan.newRoot|..] == a[n..];
      assert Rebase(plan, b)[|plan.newRoot|..] == b[n..];
    }
  }

  // ---------------------------------------------------------------- parents come first

  lemma {:induction false} DepthOfCut(path: string, k: nat)
    requires k < |path| && path[k] == '/' && forall i :: k < i < |path| ==> path[i] != '/'
    ensures Depth(path) == Depth(path[..k]) + 1
    decreases |path|
  {
    if k < |path| - 1 {
      var front := path[..|path| - 1];
      DepthOfCut(front, k);
      assert front[..k] == path[..k];
    }
  }

  lemma LastSlashIs(path: string, k: nat)
    requires k < |path| && path[k] == '/' && forall i :: k < i < |path| ==> path[i] != '/'
    ensures LastSlash(path) == k
  {
  }

  lemma DirnameAppend(a: string, tail: string)
    requires LastSlash(tail) >= 0
    ensures LastSlash(a + tail) == |a| + LastSlash(tail) && Dirname(a + tail) == a + tail[..LastSlash(tail)]
    ensures Depth(Dirname(a + tail)) < Depth(a + tail)
  {
    var s, k := a + tail, |a| + LastSlash(tail);
    assert forall i :: |a| <= i < |s| ==> s[i] == tail[i - |a|];
    LastSlashIs(s, k);
    DepthOfCut(s, k);
  }

  lemma RebasedParent(plan: ItemPlan, d: string)
    requires Under(plan.oldRoot, d)
    ensures |Dirname(d)| >= |plan.oldRoot|
    ensures Dirname(Rebase(plan, d)) == Rebase(plan, Dirname(d))
    ensures Depth(Dirname(Rebase(plan, d))) < Depth(Rebase(plan, d))
  {
    var n := |plan.oldRoot|;
    var tail := d[n..];
    assert d == plan.oldRoot + tail;
    assert (plan.oldRoot + "/")[n] == tail[0];
    DirnameAppend(plan.oldRoot, tail);
    DirnameAppend(plan.newRoot, tail);
    assert Dirname(d)[n..] == tail[..LastSlash(tail)];
  }

  /** The directory of the old project a target directory stands for. */
  lemma Origin(plan: ItemPlan, p: string) returns (d: string)
    requires SoundItem(plan) && p in TargetPaths(plan)
    ensures d in plan.directories && Under(plan.oldRoot, d) && p == Rebase(plan, d)
  {
    d :| d in plan.directories && p == Rebase(plan, d) && p != plan.newRoot;
    assert Rebase(plan, plan.oldRoot) == plan.newRoot;
  }

  lemma ParentIsTarget(plan: ItemPlan, p: string)
    requires SoundItem(plan) && p in TargetPaths(plan)
    ensures Dirname(p) == plan.newRoot || Dirname(p) in TargetPaths(plan)
    ensures Depth(Dirname(p)) < Depth(p)
  {
    var d := Origin(plan, p);
    RebasedParent(plan, d);
    assert Dirname(d) in plan.directories;
  }

  /** A directory's parent is the new root or a directory made before it. */
  lemma ParentFirst(plan: ItemPlan, k: nat) returns (j: nat)
    requires SoundItem(plan) && k < |TargetPaths(plan)|
    ensures Dirname(TargetPaths(plan)[k]) != plan.newRoot ==> j < k && TargetPaths(plan)[j] == Dirname(TargetPaths(plan)[k])
  {
    hide FilesBelow, Distinct, Rebased, Dirname, Depth, Sort;
    var paths := TargetPaths(plan);
    ParentIsTarget(plan, paths[k]);
    j := 0;
    if Dirname(paths[k]) != plan.newRoot {
      j :| 0 <= j < |paths| && paths[j] == Dirname(paths[k]);
      SortByDepth(Rebased(plan, plan.directories));
    }
  }

  // ---------------------------------------------------------------- the items lie apart

  lemma CommonDescendant(a: string, b: string, path: string)
    requires Under(a, path) && Under(b, path)
    ensures Overlap(a, b)
    decreases |a|
  {
    if |a| <= |b| {
      assert a == path[..|a|] && b == path[..|b|];
      if |a| < |b| {
        assert (a + "/")[|a|] == path[|a|];
        assert a + "/" == path[..|a| + 1] <= b;
      }
    } else {
      CommonDescendant(b, a, path);
    }
  }

  lemma TargetsBelow(plan: ItemPlan, k: nat)
    requires SoundItem(plan) && k < |TargetPaths(plan)|
    ensures Under(plan.newRoot, TargetPaths(plan)[k])
  {
    var p := TargetPaths(plan)[k];
    assert p in Rebased(plan, plan.directories);
    var d :| d in plan.directories && p == Rebase(plan, d) && p != plan.newRoot;
    RebaseBelow(plan, d);
  }

  lemma RebaseBelow(plan: ItemPlan, path: string)
    requires path == plan.oldRoot || Under(plan.oldRoot, path)
    ensures Rebase(plan, path) == plan.newRoot || Under(plan.newRoot, Rebase(plan, path))
    ensures Under(plan.oldRoot, path) ==> Under(plan.newRoot, Rebase(plan, path))
  {
    if Under(plan.oldRoot, path) {
      assert (plan.oldRoot + "/")[|plan.oldRoot|] == '/' == path[|plan.oldRoot|];
      assert path[|plan.oldRoot|..] == "/" + path[|plan.oldRoot| + 1..];
      assert Rebase(plan, path) == plan.newRoot + "/" + path[|plan.oldRoot| + 1..];
    }
  }

  /** No directory is to be made twice, in one item or in two. */
  lemma TargetsDiffer(plans: seq<ItemPlan>, i: nat, k: nat, i': nat, k': nat)
    requires SoundPlan(plans) && i < |plans| && i' < |plans| && (i != i' || k != k')
    requires k < |TargetPaths(plans[i])| && k' < |TargetPaths(plans[i'])|
    ensures TargetPaths(plans[i])[k] != TargetPaths(plans[i'])[k']
  {
    if i == i' {
      RebasedDistinct(plans[i], plans[i].directories);
      SortDistinct(Rebased(plans[i], plans[i].directories));
    } else {
      TargetsBelow(plans[i], k);
      TargetsBelow(plans[i'], k');
      if TargetPaths(plans[i])[k] == TargetPaths(plans[i'])[k'] {
        CommonDescendant(plans[i].newRoot, plans[i'].newRoot, TargetPaths(plans[i])[k]);
      }
    }
  }

  lemma FileBelow(plan: ItemPlan, j: nat)
    requires SoundItem(plan) && j < |plan.files|
    ensures Under(plan.oldRoot, plan.files[j].source) && Under(plan.newRoot, plan.files[j].destination)
    ensures plan.files[j].destination == Rebase(plan, plan.files[j].source)
  {
    assert plan.files[j] in plan.files;
    RebaseBelow(plan, plan.files[j].source);
  }

  /** All sources and all destinations of a relocation are different paths. */
  lemma FilesDiffer(plans: seq<ItemPlan>, i: nat, j: nat, i': nat, j': nat)
    requires SoundPlan(plans) && i < |plans| && i' < |plans| && j < |plans[i].files| && j' < |plans[i'].files|
    ensures plans[i].files[j].source != plans[i'].files[j'].destination
    ensures i != i' || j != j' ==>
              plans[i].files[j].source != plans[i'].files[j'].source && plans[i].files[j].destination != plans[i'].files[j'].destination
  {
    var f, g := plans[i].files[j], plans[i'].files[j'];
    FileBelow(plans[i], j);
    FileBelow(plans[i'], j');
    if f.source == g.destination {
      CommonDescendant(plans[i].oldRoot, plans[i'].newRoot, f.source);
    }
    if i == i' {
      if j != j' {
        RebaseInjective(plans[i], f.source, g.source);
      }
    } else {
      if f.source == g.source {
        CommonDescendant(plans[i].oldRoot, plans[i'].oldRoot, f.source);
      }
      if f.destination == g.destination {
        CommonDescendant(plans[i].newRoot, plans[i'].newRoot, f.destination);
      }
    }
  }
}
