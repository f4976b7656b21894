/** What validateFrozenRelocation asks of the part of an item that never changes: its frozen inventory is
    one tree of portable names with exact listings, and no two paths of it agree up to letter case. */
module RelocationInventory {
  import opened Collections
  import opened Listings
  import opened Paths
  import opened RelocationPlan

  const MAX_ENTRIES := 10000
  const MAX_BYTES := 32 * 1024 * 1024

  // ---------------------------------------------------------------- names

  predicate NameChar(c: char) {
    'a' <= c <= 'z' || 'A' <= c <= 'Z' || '0' <= c <= '9' || c == '.' || c == '_' || c == '-'
  }

  /** The part of a name before its first dot. */
  function Stem(name: string): string {
    if name == "" || name[0] == '.' then "" else [name[0]] + Stem(name[1..])
  }

  predicate DeviceName(stem: string) {
    stem in ["con", "prn", "aux", "nul"]
    || (|stem| == 4 && stem[..3] in ["com", "lpt"] && '1' <= stem[3] <= '9')
  }

  predicate EntryName(name: string) {
    && name != "" && (forall c :: c in name ==> NameChar(c))
    && name != "." && name != ".." && name[|name| - 1] != '.'
    && Fold(name) !in [".git", ".vida", ".agent", ".planning"]
    && !DeviceName(Fold(Stem(name)))
  }

  // ---------------------------------------------------------------- what is accepted

  function Sources(plan: ItemPlan): (r: seq<string>)
    ensures |r| == |plan.files| && forall k :: 0 <= k < |r| ==> r[k] == plan.files[k].source
  {
    seq(|plan.files|, k requires 0 <= k < |plan.files| => plan.files[k].source)
  }

  function AllPaths(plan: ItemPlan): seq<string> {
    plan.directories + Sources(plan)
  }

  function SizeOf(file: PlannedFile): nat { file.size }

  function TotalBytes(files: seq<PlannedFile>): nat {
    Sum(files, SizeOf)
  }

  ghost predicate EntriesShaped(entries: seq<string>) {
    (forall n :: n in entries ==> EntryName(n)) && FoldedDistinct(entries) && Ordered(entries)
  }

  ghost predicate FilesPlaced(plan: ItemPlan) {
    forall f :: f in plan.files ==> Under(plan.oldRoot, f.source) && f.destination == Rebase(plan, f.source)
  }

  /** Every path below the old root hangs in a listed directory, under a portable name. */
  ghost predicate InTree(plan: ItemPlan, path: string) {
    path != plan.oldRoot ==> LastSlash(path) >= 0 && EntryName(Leaf(path)) && Dirname(path) in plan.directories
  }

  ghost predicate DirectoryListed(plan: ItemPlan, k: nat)
    requires k < |plan.directories| == |plan.entries|
  {
    forall n :: n in plan.entries[k] <==> ChildNamed(AllPaths(plan), plan.directories[k], n)
  }

  /** The part of an item that never changes. */
  ghost predicate FrozenItem(plan: ItemPlan) {
    && |plan.entries| == |plan.directories| && |plan.directories| + |plan.files| <= MAX_ENTRIES
    && DirectoriesBelow(plan) && FilesPlaced(plan) && plan.oldRoot in plan.directories
    && FoldedDistinct(AllPaths(plan))
    && (forall k :: 0 <= k < |plan.entries| ==> EntriesShaped(plan.entries[k]))
    && TotalBytes(plan.files) <= MAX_BYTES
    && (forall p :: p in AllPaths(plan) ==> InTree(plan, p))
    && (forall k :: 0 <= k < |plan.directories| ==> DirectoryListed(plan, k))
  }

  predicate FoldedIn(path: string, paths: seq<string>) {
    exists k :: 0 <= k < |paths| && Fold(paths[k]) == Fold(path)
  }

  /** What an operation may start from. */
  ghost predicate FrozenPlans(plans: seq<ItemPlan>) {
    (forall i :: 0 <= i < |plans| ==> FrozenItem(plans[i])) && RootsApart(plans)
  }

  // ---------------------------------------------------------------- the checks

  method CheckEntries(entries: seq<string>) returns (ok: bool)
    ensures ok <==> EntriesShaped(entries)
  {
    if exists n :: n in entries && !EntryName(n) { return false; }
    FoldedBySize(entries);
    if |Members(Folded(entries))| != |entries| { return false; }
    SortedIsOrdered(entries);
    ok := SortNames(entries) == entries;
  }

  function Folded(names: seq<string>): (r: seq<string>)
    ensures |r| == |names| && forall k :: 0 <= k < |names| ==> r[k] == Fold(names[k])
  {
    seq(|names|, k requires 0 <= k < |names| => Fold(names[k]))
  }

  lemma FoldedBySize(names: seq<string>)
    ensures |Members(Folded(names))| == |names| <==> FoldedDistinct(names)
  {
    DistinctBySize(Folded(names));
    if FoldedDistinct(names) {
      assert Distinct(Folded(names));
    }
    if Distinct(Folded(names)) {
      forall i, j | 0 <= i < j < |names| ensures Fold(names[i]) != Fold(names[j]) {
        assert Folded(names)[i] != Folded(names)[j];
      }
    }
  }

  lemma SortedIsOrdered(names: seq<string>)
    requires FoldedDistinct(names)
    ensures SortNames(names) == names <==> Ordered(names)
  {
    FoldedIsDistinct(names);
    SortOrdered(names);
    if Ordered(names) {
      OneOrderedList(names, SortNames(names));
    }
  }

  /** The folded paths seen so far. */
  ghost predicate Seen(seen: set<string>, paths: seq<string>) {
    && (forall k :: 0 <= k < |paths| ==> Fold(paths[k]) in seen)
    && (forall x :: x in seen ==> exists k :: 0 <= k < |paths| && Fold(paths[k]) == x)
  }

  lemma SeenOneMore(seen: set<string>, paths: seq<string>, path: string)
    requires Seen(seen, paths) && FoldedDistinct(paths)
    ensures Seen(seen + {Fold(path)}, paths + [path])
    ensures Fold(path) in seen <==> FoldedIn(path, paths)
    ensures Fold(path) in seen <==> !FoldedDistinct(paths + [path])
  {
    var more := paths + [path];
    assert forall k :: 0 <= k < |paths| ==> more[k] == paths[k];
    if Fold(path) in seen {
      var k :| 0 <= k < |paths| && Fold(paths[k]) == Fold(path);
      assert Fold(more[k]) == Fold(more[|paths|]);
    }
    assert more[|paths|] == path;
  }

  method CheckDirectories(plan: ItemPlan) returns (ok: bool, seen: set<string>)
    requires |plan.entries| == |plan.directories|
    ensures ok <==> DirectoriesBelow(plan) && FoldedDistinct(plan.directories)
                    && forall k :: 0 <= k < |plan.entries| ==> EntriesShaped(plan.entries[k])
    ensures ok ==> Seen(seen, plan.directories)
  {
    hide EntriesShaped, Under;
    seen := {};
    for k := 0 to |plan.directories|
      invariant FoldedDistinct(plan.directories[..k]) && Seen(seen, plan.directories[..k])
      invariant forall j :: 0 <= j < k ==> plan.directories[j] == plan.oldRoot || Under(plan.oldRoot, plan.directories[j])
      invariant forall j :: 0 <= j < k ==> EntriesShaped(plan.entries[j])
    {
      var d := plan.directories[k];
      assert plan.directories[..k + 1] == plan.directories[..k] + [d];
      SeenOneMore(seen, plan.directories[..k], d);
      if d != plan.oldRoot && !Under(plan.oldRoot, d) {
        assert d in plan.directories;
        return false, seen;
      }
      if Fold(d) in seen {
        NotDistinct(plan.directories, k + 1);
        return false, seen;
      }
      var shaped := CheckEntries(plan.entries[k]);
      if !shaped { return false, seen; }
      seen := seen + {Fold(d)};
    }
    assert plan.directories[..|plan.directories|] == plan.directories;
    return true, seen;
  }

  lemma NotDistinct(paths: seq<string>, n: nat)
    requires n <= |paths| && !FoldedDistinct(paths[..n])
    ensures !FoldedDistinct(paths)
  {
    var i, j :| 0 <= i < j < n && Fold(paths[..n][i]) == Fold(paths[..n][j]);
    assert paths[i] == paths[..n][i] && paths[j] == paths[..n][j];
  }

  method CheckFiles(plan: ItemPlan, seenBefore: set<string>) returns (ok: bool)
    requires FoldedDistinct(plan.directories) && Seen(seenBefore, plan.directories)
    ensures ok <==> FilesPlaced(plan) && FoldedDistinct(AllPaths(plan)) && TotalBytes(plan.files) <= MAX_BYTES
  {
    hide Under, Rebase, Seen, FoldedDistinct;
    var seen, total := seenBefore, 0;
    assert plan.directories + Sources(plan)[..0] == plan.directories;
    for k := 0 to |plan.files|
      invariant FoldedDistinct(plan.directories + Sources(plan)[..k]) && Seen(seen, plan.directories + Sources(plan)[..k])
      invariant forall j :: 0 <= j < k ==> Under(plan.oldRoot, plan.files[j].source) && |plan.oldRoot| <= |plan.files[j].source|
                                           && plan.files[j].destination == Rebase(plan, plan.files[j].source)
      invariant total == TotalBytes(plan.files[..k])
    {
      var f := plan.files[k];
      ghost var before := plan.directories + Sources(plan)[..k];
      assert plan.directories + Sources(plan)[..k + 1] == before + [f.source];
      SeenOneMore(seen, before, f.source);
      assert plan.files[..k + 1][..k] == plan.files[..k];
      total := total + f.size;
      if !Placed(plan, f) {
        assert f in plan.files;
        return false;
      }
      if Fold(f.source) in seen {
        assert AllPaths(plan)[..|plan.directories| + k + 1] == before + [f.source];
        NotDistinct(AllPaths(plan), |plan.directories| + k + 1);
        return false;
      }
      seen := seen + {Fold(f.source)};
    }
    assert plan.files[..|plan.files|] == plan.files;
    assert plan.directories + Sources(plan)[..|plan.files|] == AllPaths(plan);
    ok := total <= MAX_BYTES;
  }

  predicate Placed(plan: ItemPlan, f: PlannedFile)
    ensures Placed(plan, f) ==> Under(plan.oldRoot, f.source) && |plan.oldRoot| <= |f.source| && f.destination == Rebase(plan, f.source)
    ensures !Placed(plan, f) ==> !(Under(plan.oldRoot, f.source) && |plan.oldRoot| <= |f.source| && f.destination == Rebase(plan, f.source))
  {
    Under(plan.oldRoot, f.source) && f.destination == Rebase(plan, f.source)
  }

  lemma ListedIff(plan: ItemPlan, k: nat)
    requires k < |plan.directories| == |plan.entries| && Distinct(AllPaths(plan)) && Ordered(plan.entries[k])
    ensures DirectoryListed(plan, k) <==> SortNames(Names(AllPaths(plan), plan.directories[k])) == plan.entries[k]
  {
    var names := Names(AllPaths(plan), plan.directories[k]);
    ListedIsSorted(AllPaths(plan), plan.directories[k], plan.entries[k]);
    assert forall n :: n in names <==> ChildNamed(AllPaths(plan), plan.directories[k], n);
    if DirectoryListed(plan, k) {
      assert forall n :: n in plan.entries[k] <==> n in names;
    }
  }

  ghost predicate ListedBefore(plan: ItemPlan, n: nat)
    requires n <= |plan.directories| == |plan.entries|
  {
    forall k :: 0 <= k < n ==> DirectoryListed(plan, k)
  }

  method CheckListings(plan: ItemPlan) returns (ok: bool)
    requires |plan.entries| == |plan.directories| && Distinct(AllPaths(plan))
    requires forall k :: 0 <= k < |plan.entries| ==> Ordered(plan.entries[k])
    ensures ok <==> ListedBefore(plan, |plan.directories|)
  {
    hide DirectoryListed, ChildNamed, Distinct, Ordered, Names, SortNames, AllPaths;
    var children := DirectChildren(AllPaths(plan));
    for k := 0 to |plan.directories|
      invariant ListedBefore(plan, k)
    {
      ListedIff(plan, k);
      if SortNames(Listed(children, plan.directories[k])) != plan.entries[k] { return false; }
    }
    return true;
  }

  method CheckTree(plan: ItemPlan) returns (ok: bool)
    requires |plan.entries| == |plan.directories| && FoldedDistinct(AllPaths(plan))
    requires forall k :: 0 <= k < |plan.entries| ==> EntriesShaped(plan.entries[k])
    ensures ok <==> (forall p :: p in AllPaths(plan) ==> InTree(plan, p)) && forall k :: 0 <= k < |plan.directories| ==> DirectoryListed(plan, k)
  {
    hide EntryName, FoldedDistinct, DirectoryListed, AllPaths, Ordered, Distinct;
    var paths := AllPaths(plan);
    if exists p :: p in paths && p != plan.oldRoot && !(LastSlash(p) >= 0 && EntryName(Leaf(p)) && Dirname(p) in plan.directories) { return false; }
    FoldedIsDistinct(paths);
    ok := CheckListings(plan);
  }

  lemma AllPathsHold(plan: ItemPlan)
    ensures forall d :: d in plan.directories ==> d in AllPaths(plan)
    ensures forall f :: f in plan.files ==> f.source in AllPaths(plan)
  {
    var paths, n := AllPaths(plan), |plan.directories|;
    forall f | f in plan.files ensures f.source in paths {
      var k :| 0 <= k < |plan.files| && plan.files[k] == f;
      assert Sources(plan)[k] == f.source;
    }
  }

  lemma SourcesDistinct(plan: ItemPlan)
    requires FoldedDistinct(AllPaths(plan))
    ensures Distinct(plan.directories)
    ensures forall i, j :: 0 <= i < j < |plan.files| ==> plan.files[i].source != plan.files[j].source
  {
    hide Fold;
    var paths, n := AllPaths(plan), |plan.directories|;
    FoldedIsDistinct(paths);
    assert forall k :: 0 <= k < n ==> paths[k] == plan.directories[k];
    assert forall k :: 0 <= k < |plan.files| ==> paths[n + k] == plan.files[k].source;
  }

  /** The accepted inventory is what the rest of the operation counts on. */
  lemma FrozenIsSound(plan: ItemPlan)
    requires FrozenItem(plan)
    ensures SoundItem(plan)
  {
    hide EntriesShaped, DirectoryListed, FoldedDistinct, Distinct, AllPaths, EntryName, Rebase, TotalBytes, Leaf;
    AllPathsHold(plan);
    SourcesDistinct(plan);
    forall d | d in plan.directories && d != plan.oldRoot ensures Dirname(d) in plan.directories {
      assert InTree(plan, d);
    }
    forall f | f in plan.files ensures Dirname(f.source) in plan.directories {
      assert InTree(plan, f.source);
    }
  }
}
