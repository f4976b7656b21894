/** validateFrozenRelocation: the checks a relocation journal must pass before it is written, and why the
    driver's own images always do. */
module RelocationFrozen {
  import opened Collections
  import opened Paths
  import opened RelocationInventory
  import opened RelocationPlan
  import opened RelocationMachine
  import opened RelocationSafety
  import Runs = RelocationRuns

  /** A directory below the new root that stands for one of the old project's. */
  predicate TargetKnown(plan: ItemPlan, path: string) {
    Under(plan.newRoot, path) && |plan.newRoot| <= |path| && plan.oldRoot + path[|plan.newRoot|..] in plan.directories
  }

  lemma TargetKnownIff(plan: ItemPlan, path: string)
    requires DirectoriesBelow(plan)
    ensures TargetKnown(plan, path) <==>
            exists d :: d in plan.directories && d != plan.oldRoot && path == plan.newRoot + d[|plan.oldRoot|..]
  {
    var n, m := |plan.oldRoot|, |plan.newRoot|;
    if TargetKnown(plan, path) {
      var d := plan.oldRoot + path[m..];
      assert path[m] == (plan.newRoot + "/")[m];
      assert path == plan.newRoot + path[m..] && d[n..] == path[m..];
    }
    if d :| d in plan.directories && d != plan.oldRoot && path == plan.newRoot + d[n..] {
      assert d[n] == (plan.oldRoot + "/")[n];
      assert d == plan.oldRoot + d[n..] && path[m..] == d[n..];
      assert path[..m + 1] == plan.newRoot + "/";
    }
  }

  function MadePaths(item: Item): (r: seq<string>)
    ensures |r| == |item.made| && forall k :: 0 <= k < |r| ==> r[k] == item.made[k].path
  {
    seq(|item.made|, k requires 0 <= k < |item.made| => item.made[k].path)
  }

  function Targets(item: Item): seq<string> {
    [item.plan.newRoot] + MadePaths(item)
  }

  /** The part of an item that the driver moves on. */
  ghost predicate FrozenProgress(item: Item) {
    var targets := Targets(item);
    && |item.states| == |item.plan.files|
    && FoldedDistinct(targets)
    && (forall m :: m in item.made ==> TargetKnown(item.plan, m.path) && FoldedIn(Dirname(m.path), targets))
    && (item.pending.Some? ==>
          && TargetKnown(item.plan, item.pending.value) && !FoldedIn(item.pending.value, targets)
          && FoldedIn(Dirname(item.pending.value), targets))
  }

  ghost predicate FrozenRecord(record: Record) {
    && (forall item :: item in record.items ==> FrozenItem(item.plan) && FrozenProgress(item))
    && (forall i, j :: 0 <= i < |record.items| && 0 <= j < |record.items| && record.items[i].pending.Some? && record.items[j].pending.Some? ==> i == j)
    && (record.policyState != NotStarted ==> forall item :: item in record.items ==> item.pending.None? && FilesDone(item))
  }

  // ---------------------------------------------------------------- the checks

  lemma SeenOne(path: string)
    ensures Seen({Fold(path)}, [path])
  {
    assert [path][0] == path;
  }

  ghost predicate TargetsKnown(item: Item, n: nat)
    requires n <= |item.made|
  {
    forall j :: 0 <= j < n ==> TargetKnown(item.plan, item.made[j].path)
  }

  lemma OneMoreTarget(item: Item, k: nat)
    requires k < |item.made|
    ensures Targets(item)[..k + 2] == Targets(item)[..k + 1] + [item.made[k].path]
  {
  }

  method CheckMade(item: Item) returns (ok: bool, seen: set<string>)
    ensures ok <==> FoldedDistinct(Targets(item)) && TargetsKnown(item, |item.made|)
    ensures ok ==> Seen(seen, Targets(item))
  {
    hide TargetKnown, Seen, FoldedDistinct, Targets;
    seen := {Fold(item.plan.newRoot)};
    FirstTarget(item);
    for k := 0 to |item.made|
      invariant |Targets(item)| == |item.made| + 1 && FoldedDistinct(Targets(item)[..k + 1]) && Seen(seen, Targets(item)[..k + 1])
      invariant TargetsKnown(item, k)
    {
      var path := item.made[k].path;
      OneMoreTarget(item, k);
      SeenOneMore(seen, Targets(item)[..k + 1], path);
      if !TargetKnown(item.plan, path) { return false, seen; }
      if Fold(path) in seen {
        NotDistinct(Targets(item), k + 2);
        return false, seen;
      }
      seen := seen + {Fold(path)};
    }
    assert Targets(item)[..|item.made| + 1] == Targets(item);
    return true, seen;
  }

  lemma FirstTarget(item: Item)
    ensures |Targets(item)| == |item.made| + 1
    ensures Seen({Fold(item.plan.newRoot)}, Targets(item)[..1]) && FoldedDistinct(Targets(item)[..1])
  {
    SeenOne(item.plan.newRoot);
    assert Targets(item)[..1] == [item.plan.newRoot];
  }

  method CheckTargets(item: Item) returns (ok: bool)
    requires |item.states| == |item.plan.files|
    ensures ok <==> FrozenProgress(item)
  {
    hide TargetKnown, Seen, FoldedDistinct, FoldedIn, Targets;
    var made, seen := CheckMade(item);
    if !made { return false; }
    SeenIsFoldedIn(seen, Targets(item));
    if exists m :: m in item.made && Fold(Dirname(m.path)) !in seen { return false; }
    assert forall m :: m in item.made ==> TargetKnown(item.plan, m.path);
    if item.pending.Some? {
      var p := item.pending.value;
      if !TargetKnown(item.plan, p) || Fold(p) in seen || Fold(Dirname(p)) !in seen { return false; }
    }
    return true;
  }

  lemma SeenIsFoldedIn(seen: set<string>, paths: seq<string>)
    requires Seen(seen, paths)
    ensures forall p :: Fold(p) in seen <==> FoldedIn(p, paths)
  {
  }

  method CheckItem(item: Item) returns (ok: bool)
    ensures ok <==> FrozenItem(item.plan) && FrozenProgress(item)
  {
    hide EntriesShaped, FoldedDistinct, InTree, DirectoryListed, Seen, FilesPlaced, TargetKnown;
    var plan := item.plan;
    if |plan.entries| != |plan.directories| || |item.states| != |plan.files| || |plan.directories| + |plan.files| > MAX_ENTRIES { return false; }
    var directories, seen := CheckDirectories(plan);
    DirectoriesFirst(plan);
    if !directories || plan.oldRoot !in plan.directories { return false; }
    var targets := CheckTargets(item);
    if !targets { return false; }
    var files := CheckFiles(plan, seen);
    if !files { return false; }
    ok := CheckTree(plan);
  }

  lemma DirectoriesFirst(plan: ItemPlan)
    ensures FoldedDistinct(AllPaths(plan)) ==> FoldedDistinct(plan.directories)
  {
    assert forall k :: 0 <= k < |plan.directories| ==> AllPaths(plan)[k] == plan.directories[k];
  }

  /** validateFrozenRelocation */
  method Validate(record: Record) returns (ok: bool)
    ensures ok <==> FrozenRecord(record)
  {
    hide FrozenItem, FrozenProgress;
    for i := 0 to |record.items|
      invariant forall k :: 0 <= k < i ==> FrozenItem(record.items[k].plan) && FrozenProgress(record.items[k])
    {
      var sound := CheckItem(record.items[i]);
      if !sound {
        assert record.items[i] in record.items;
        return false;
      }
    }
    if exists i, j :: 0 <= i < |record.items| && 0 <= j < |record.items| && i != j && record.items[i].pending.Some? && record.items[j].pending.Some? {
      return false;
    }
    ok := record.policyState == NotStarted || forall item :: item in record.items ==> item.pending.None? && FilesDone(item);
  }

  // ---------------------------------------------------------------- the driver's images pass

  /** The targets of the plan, behind the new root, which is there from the start. */
  function RootedTargets(plan: ItemPlan): seq<string>
    requires DirectoriesBelow(plan)
  {
    [plan.newRoot] + TargetPaths(plan)
  }

  lemma FoldTail(root: string, root': string, a: string, b: string)
    requires |a| >= |root| && |b| >= |root| && a[..|root|] == root == b[..|root|]
    requires Fold(root' + a[|root|..]) == Fold(root' + b[|root|..])
    ensures Fold(a) == Fold(b)
  {
    var n, m := |root|, |root'|;
    var x, y := root' + a[n..], root' + b[n..];
    assert |x| == m + |a| - n && |y| == m + |b| - n;
    forall i | 0 <= i < |a| ensures Fold(a)[i] == Fold(b)[i] {
      if i < n {
        assert a[i] == root[i] == b[i];
      } else {
        assert x[m + i - n] == a[i] && y[m + i - n] == b[i];
        assert Fold(x)[m + i - n] == Fold(y)[m + i - n];
      }
    }
  }

  lemma TargetIsKnown(plan: ItemPlan, p: string)
    requires SoundItem(plan) && p in TargetPaths(plan)
    ensures TargetKnown(plan, p) && Fold(p) != Fold(plan.newRoot)
  {
    hide SoundItem;
    var d := Origin(plan, p);
    RebaseBelow(plan, d);
    assert p[|plan.newRoot|..] == d[|plan.oldRoot|..];
    assert plan.oldRoot + d[|plan.oldRoot|..] == d;
    assert |Fold(p)| == |p| > |plan.newRoot| == |Fold(plan.newRoot)|;
  }

  lemma TargetsFoldApart(plan: ItemPlan, k: nat, l: nat)
    requires SoundItem(plan) && FoldedDistinct(plan.directories) && k < l < |TargetPaths(plan)|
    ensures Fold(TargetPaths(plan)[k]) != Fold(TargetPaths(plan)[l])
  {
    hide FilesBelow, Distinct, FoldedDistinct, TargetPaths;
    var p, q := TargetPaths(plan)[k], TargetPaths(plan)[l];
    var d := Origin(plan, p);
    var e := Origin(plan, q);
    DistinctTargets(plan, k, l);
    if Fold(p) == Fold(q) {
      FoldTail(plan.oldRoot, plan.newRoot, d, e);
      FoldedSame(plan.directories, d, e);
    }
  }

  lemma DistinctTargets(plan: ItemPlan, k: nat, l: nat)
    requires SoundItem(plan) && k < l < |TargetPaths(plan)|
    ensures TargetPaths(plan)[k] != TargetPaths(plan)[l]
  {
    RebasedDistinct(plan, plan.directories);
    SortDistinct(Rebased(plan, plan.directories));
  }

  lemma FoldedSame(paths: seq<string>, a: string, b: string)
    requires FoldedDistinct(paths) && a in paths && b in paths && Fold(a) == Fold(b)
    ensures a == b
  {
    forall i, j | 0 <= i < |paths| && 0 <= j < |paths| && i != j ensures Fold(paths[i]) != Fold(paths[j]) {
      assert if i < j then Fold(paths[i]) != Fold(paths[j]) else Fold(paths[j]) != Fold(paths[i]);
    }
  }

  lemma RootedTargetsApart(plan: ItemPlan)
    requires SoundItem(plan) && FoldedDistinct(plan.directories)
    ensures FoldedDistinct(RootedTargets(plan))
  {
    hide FilesBelow, Distinct, TargetPaths, TargetKnown, Fold;
    var paths := RootedTargets(plan);
    forall i, j | 0 <= i < j < |paths| ensures Fold(paths[i]) != Fold(paths[j]) {
      if i == 0 {
        TargetIsKnown(plan, TargetPaths(plan)[j - 1]);
      } else {
        TargetsFoldApart(plan, i - 1, j - 1);
      }
    }
  }

  lemma ParentIsThere(plan: ItemPlan, k: nat)
    requires SoundItem(plan) && k < |TargetPaths(plan)|
    ensures FoldedIn(Dirname(TargetPaths(plan)[k]), RootedTargets(plan)[..k + 1])
  {
    var parent := Dirname(TargetPaths(plan)[k]);
    var j := ParentFirst(plan, k);
    var known := RootedTargets(plan)[..k + 1];
    if parent == plan.newRoot {
      assert known[0] == parent;
    } else {
      assert known[j + 1] == parent;
    }
  }

  lemma MadeIsPrefix(item: Item)
    requires DirectoriesBelow(item.plan) && MadeInOrder(item)
    ensures |item.made| <= |TargetPaths(item.plan)| && Targets(item) == RootedTargets(item.plan)[..|item.made| + 1]
  {
  }

  lemma FoldedInMore(path: string, paths: seq<string>, n: nat, m: nat)
    requires n <= m <= |paths| && FoldedIn(path, paths[..n])
    ensures FoldedIn(path, paths[..m])
  {
    var k :| 0 <= k < n && Fold(paths[..n][k]) == Fold(path);
    assert paths[..m][k] == paths[..n][k];
  }

  lemma NextIsNew(paths: seq<string>, n: nat)
    requires FoldedDistinct(paths) && n < |paths|
    ensures FoldedDistinct(paths[..n]) && !FoldedIn(paths[n], paths[..n])
  {
    assert forall k :: 0 <= k < n ==> paths[..n][k] == paths[k];
  }

  lemma MadeIsKnown(item: Item, m: Made)
    requires SoundItem(item.plan) && MadeInOrder(item) && m in item.made
    ensures TargetKnown(item.plan, m.path) && FoldedIn(Dirname(m.path), Targets(item))
  {
    hide FilesBelow, Distinct, TargetKnown, FoldedIn, RootedTargets, Targets;
    var k :| 0 <= k < |item.made| && item.made[k] == m;
    MadeIsPrefix(item);
    TargetIsKnown(item.plan, m.path);
    ParentIsThere(item.plan, k);
    assert k + 1 <= |item.made| + 1 <= |RootedTargets(item.plan)| by { RootedLength(item.plan); }
    FoldedInMore(Dirname(m.path), RootedTargets(item.plan), k + 1, |item.made| + 1);
  }

  lemma RootedLength(plan: ItemPlan)
    requires DirectoriesBelow(plan)
    ensures |RootedTargets(plan)| == |TargetPaths(plan)| + 1
    ensures forall k :: 0 <= k < |TargetPaths(plan)| ==> RootedTargets(plan)[k + 1] == TargetPaths(plan)[k]
  {
  }

  /** Progress made in order is progress the checks accept. */
  lemma OrderIsAccepted(item: Item)
    requires FrozenItem(item.plan) && ItemOrder(item)
    ensures FrozenProgress(item)
  {
    var plan, n := item.plan, |item.made|;
    FrozenIsSound(plan);
    assert FoldedDistinct(plan.directories) by { DirectoriesFirst(plan); }
    hide FrozenItem, SoundItem, FoldedDistinct, TargetKnown, FoldedIn, RootedTargets, Targets, Fold, TargetPaths;
    RootedTargetsApart(plan);
    MadeIsPrefix(item);
    RootedLength(plan);
    forall m | m in item.made ensures TargetKnown(plan, m.path) && FoldedIn(Dirname(m.path), Targets(item)) {
      MadeIsKnown(item, m);
    }
    assert FoldedDistinct(Targets(item)) by {
      if n < |TargetPaths(plan)| {
        NextIsNew(RootedTargets(plan), n + 1);
      } else {
        assert Targets(item) == RootedTargets(plan);
      }
    }
    if item.pending.Some? {
      TargetIsKnown(plan, item.pending.value);
      ParentIsThere(plan, n);
      NextIsNew(RootedTargets(plan), n + 1);
    }
  }

  /** Effects that form a prefix of an accepted plan make a journal that validateFrozenRelocation accepts. */
  lemma PrefixIsAccepted(record: Record)
    requires Prefix(record) && forall i :: 0 <= i < |record.items| ==> FrozenItem(record.items[i].plan)
    ensures FrozenRecord(record)
  {
    hide FrozenItem, FrozenProgress, ItemOrder;
    forall item | item in record.items ensures FrozenItem(item.plan) && FrozenProgress(item) {
      OrderIsAccepted(item);
    }
    forall i, j | 0 <= i < |record.items| && 0 <= j < |record.items| && record.items[i].pending.Some? && record.items[j].pending.Some?
      ensures i == j
    {
      PendingIsUnderWay(record.items[i]);
      PendingIsUnderWay(record.items[j]);
      OneUnderWay(record.items, i, j);
    }
    if record.policyState != NotStarted {
      forall item | item in record.items ensures item.pending.None? && FilesDone(item) {
        WholeIsDone(item);
      }
    }
  }

  lemma PendingIsUnderWay(item: Item)
    requires item.pending.Some?
    ensures !Untouched(item) && !Whole(item)
  {
  }

  lemma ImageIsAccepted(start: World, w: World, record: Record)
    requires Published(start) && InvOf(start, w, record)
    ensures FrozenRecord(record)
  {
    hide Prefix, FrozenItem, FrozenRecord, FilesInv, DirsInv, PolicyInv, ConfigInv, ReceiptInv, FrameInv, DirFrameInv, SessionInv, Observed;
    forall i | 0 <= i < |record.items| ensures FrozenItem(record.items[i].plan) {
      PlansAt(record, i);
    }
    PrefixIsAccepted(record);
  }

  /** Whatever the driver is about to write next passes, so it never refuses its own image. */
  lemma NextImageIsAccepted(start: World, w: World, l: Label, w': World)
    requires Published(start) && Base(start) && Inv(start, w) && Step(w, l, w') && w'.journal.Some?
    ensures FrozenRecord(w'.journal.value)
  {
    hide Published, Base, InvOf, FrozenRecord, Step;
    StepKeepsInv(start, w, l, w');
    ImageIsAccepted(start, w', w'.journal.value);
  }

  /** In every state any run reaches, the journal passes the checks. */
  lemma EveryImageIsAccepted(trace: seq<World>, labels: seq<Label>, n: nat)
    requires Runs.OperationRun(trace, labels) && n < |trace|
    ensures trace[n].journal.Some? || trace[n].archive.Some?
    ensures FrozenRecord(Runs.Image(trace[n]))
  {
    hide Published, InvOf, FrozenRecord, Runs.BaseRun;
    Runs.Grounded(trace, labels);
    Runs.RunImage(trace[0], trace, labels, n);
    ImageIsAccepted(trace[0], trace[n], Runs.Image(trace[n]));
  }
}
