/** What the checks of a relocation ask for, field by field: the terms in which the promises about runs are
    to be read. */
module RelocationChecks {
  import opened Paths
  import opened RelocationPlan
  import opened RelocationInventory
  import opened RelocationMachine

  // ---------------------------------------------------------------- portable names

  lemma NameCharIff(c: char)
    ensures NameChar(c) <==> c in "abcdefghijklmnopqrstuvwxyz" || c in "ABCDEFGHIJKLMNOPQRSTUVWXYZ" || c in "0123456789._-"
  {
    Letters(c);
    var others := "0123456789._-";
    assert forall k :: 0 <= k < 10 ==> others[k] as int == '0' as int + k;
    assert others[10] == '.' && others[11] == '_' && others[12] == '-';
    if '0' <= c <= '9' {
      assert others[c as int - '0' as int] == c;
    }
  }

  lemma Letters(c: char)
    ensures c in "abcdefghijklmnopqrstuvwxyz" <==> 'a' <= c <= 'z'
    ensures c in "ABCDEFGHIJKLMNOPQRSTUVWXYZ" <==> 'A' <= c <= 'Z'
  {
    var small, capitals := "abcdefghijklmnopqrstuvwxyz", "ABCDEFGHIJKLMNOPQRSTUVWXYZ";
    assert |small| == |capitals| == 26;
    assert forall k :: 0 <= k < 26 ==> small[k] as int == 'a' as int + k && capitals[k] as int == 'A' as int + k;
    if 'a' <= c <= 'z' {
      assert small[c as int - 'a' as int] == c;
    } else if 'A' <= c <= 'Z' {
      assert capitals[c as int - 'A' as int] == c;
    }
  }

  lemma {:induction false} StemIs(name: string)
    ensures Stem(name) <= name && '.' !in Stem(name) && (Stem(name) == name || name[|Stem(name)|] == '.')
  {
    if name != "" && name[0] != '.' {
      StemIs(name[1..]);
      assert name == [name[0]] + name[1..];
    }
  }

  lemma DeviceNameIff(stem: string)
    ensures DeviceName(stem) <==>
            || stem == "con" || stem == "prn" || stem == "aux" || stem == "nul"
            || exists n :: n in "123456789" && (stem == "com" + [n] || stem == "lpt" + [n])
  {
    assert |"123456789"| == 9 && forall k :: 0 <= k < 9 ==> "123456789"[k] as int == '1' as int + k;
    if DeviceName(stem) && |stem| == 4 {
      assert "123456789"[stem[3] as int - '1' as int] == stem[3];
      assert stem == stem[..3] + [stem[3]];
    }
  }

  lemma StemIsPrefix(name: string, k: nat)
    requires k <= |name| && '.' !in name[..k] && (k == |name| || name[k] == '.')
    ensures Stem(name) == name[..k]
  {
    StemIs(name);
    var n := |Stem(name)|;
    assert Stem(name) == name[..n];
    assert forall i :: 0 <= i < k ==> name[..k][i] == name[i];
    assert forall i :: 0 <= i < n ==> name[..n][i] == name[i];
  }

  /** A name is portable if it is made of letters, digits, dots, underscores and hyphens, does not end in a
      dot, is none of the reserved ones and no device's before its first dot. */
  lemma EntryNameIff(name: string)
    ensures EntryName(name) <==>
            && 0 < |name| && (forall c :: c in name ==> NameChar(c)) && name[|name| - 1] != '.'
            && Fold(name) != ".git" && Fold(name) != ".vida" && Fold(name) != ".agent" && Fold(name) != ".planning"
            && (forall k :: 0 <= k <= |name| && '.' !in name[..k] && (k == |name| || name[k] == '.') ==> !DeviceName(Fold(name[..k])))
  {
    StemIs(name);
    forall k | 0 <= k <= |name| && '.' !in name[..k] && (k == |name| || name[k] == '.') ensures Stem(name) == name[..k] {
      StemIsPrefix(name, k);
    }
    assert Stem(name) == name[..|Stem(name)|];
    hide DeviceName, Fold, NameChar;
  }

  // ---------------------------------------------------------------- the order of the directories

  lemma {:induction false} DepthCounts(path: string)
    ensures Depth(path) == |set i | 0 <= i < |path| && path[i] == '/'|
  {
    var here := set i | 0 <= i < |path| && path[i] == '/';
    if path != "" {
      var n := |path| - 1;
      DepthCounts(path[..n]);
      var before := set i | 0 <= i < n && path[..n][i] == '/';
      assert here == before + if path[n] == '/' then {n} else {};
    }
  }

  ghost predicate SoonerFirst(paths: seq<string>) {
    forall i, j :: 0 <= i < j < |paths| ==> Sooner(paths[i], paths[j])
  }

  lemma SoonerTransitive(a: string, b: string, c: string)
    requires Sooner(a, b) && Sooner(b, c)
    ensures Sooner(a, c)
  {
    if LexLess(c, a) {
      if b != c { LexTotal(b, c); }
      if LexLess(b, c) { LexLessTransitive(b, c, a); }
    }
  }

  lemma {:induction false} InsertSooner(path: string, sorted: seq<string>)
    requires SoonerFirst(sorted)
    ensures SoonerFirst(Insert(path, sorted))
  {
    if sorted != [] {
      if Sooner(path, sorted[0]) {
        forall j | 0 < j < |sorted| ensures Sooner(path, sorted[j]) { SoonerTransitive(path, sorted[0], sorted[j]); }
      } else {
        InsertSooner(path, sorted[1..]);
        LexLessAsymmetric(path, sorted[0]);
        var rest := Insert(path, sorted[1..]);
        forall j | 0 <= j < |rest| ensures Sooner(sorted[0], rest[j]) {
          assert rest[j] in rest;
        }
      }
    }
  }

  lemma LexLessAsymmetric(a: string, b: string)
    ensures LexLess(a, b) ==> !LexLess(b, a)
  {
    if LexLess(a, b) && LexLess(b, a) {
      LexLessTransitive(a, b, a);
      LexLessIrreflexive(a);
    }
  }

  lemma {:induction false} SortSooner(paths: seq<string>)
    ensures SoonerFirst(Sort(paths))
  {
    if paths != [] {
      SortSooner(paths[1..]);
      InsertSooner(paths[0], Sort(paths[1..]));
    }
  }

  /** The directories to make are those below the old root, with the new root in its place; fewer separators
      come first, and among as many the path that is first in code units. */
  lemma TargetPathsAre(plan: ItemPlan)
    requires SoundItem(plan)
    ensures forall p :: p in TargetPaths(plan) <==> exists d :: d in plan.directories && d != plan.oldRoot && p == plan.newRoot + d[|plan.oldRoot|..]
    ensures forall i, j :: 0 <= i < j < |TargetPaths(plan)| ==>
              var a, b := TargetPaths(plan)[i], TargetPaths(plan)[j];
              Depth(a) < Depth(b) || (Depth(a) == Depth(b) && LexLess(a, b))
  {
    SortSooner(Rebased(plan, plan.directories));
    RebasedDistinct(plan, plan.directories);
    SortDistinct(Rebased(plan, plan.directories));
    forall d | d in plan.directories ensures Rebase(plan, d) == plan.newRoot <==> d == plan.oldRoot {
      RebaseInjective(plan, d, plan.oldRoot);
    }
    hide Sort, Rebased, FilesBelow;
    var paths := TargetPaths(plan);
    forall i, j | 0 <= i < j < |paths| && Depth(paths[i]) == Depth(paths[j]) ensures LexLess(paths[i], paths[j]) {
      LexTotal(paths[i], paths[j]);
    }
  }

  // ---------------------------------------------------------------- how far an item is

  /** An item is done when nothing is pending, every directory below the old root is recorded under the new
      one, and every file is completed. */
  lemma ItemDoneIff(item: Item)
    requires SoundItem(item.plan) && Shaped(item)
    ensures ItemDone(item) <==>
            && item.pending.None?
            && (forall d :: d in item.plan.directories && d != item.plan.oldRoot ==>
                  exists m :: m in item.made && m.path == item.plan.newRoot + d[|item.plan.oldRoot|..])
            && (forall state :: state in item.states ==> state == Completed)
  {
    var paths, plan := TargetPaths(item.plan), item.plan;
    forall d | d in plan.directories && d != plan.oldRoot ensures plan.newRoot + d[|plan.oldRoot|..] in paths { TargetPathsAre(plan); }
    forall p | p in paths ensures exists d :: d in plan.directories && d != plan.oldRoot && p == plan.newRoot + d[|plan.oldRoot|..] {
      TargetPathsAre(plan);
    }
    AllRecorded(item, paths);
    assert FilesDone(item) <==> forall state :: state in item.states ==> state == Completed by {
      assert forall j :: 0 <= j < |item.states| ==> item.states[j] in item.states;
    }
    hide TargetPaths, SoundItem, FilesDone;
  }

  lemma AllRecorded(item: Item, paths: seq<string>)
    ensures (forall k :: 0 <= k < |paths| ==> RelocationMachine.Recorded(item, paths[k])) <==>
            forall p :: p in paths ==> exists m :: m in item.made && m.path == p
  {
    forall p | p in paths ensures RelocationMachine.Recorded(item, p) <==> exists m :: m in item.made && m.path == p {
      if m :| m in item.made && m.path == p {
        var k :| 0 <= k < |item.made| && item.made[k] == m;
      }
    }
    hide RelocationMachine.Recorded;
  }

  // ---------------------------------------------------------------- what may be on disk

  /** Every recorded directory is the one that was made, and every file is at exactly one of its two places,
      at the source only as long as it is not issued. */
  ghost predicate ItemAsJournaled(disk: Disk, item: Item)
    requires |item.states| == |item.plan.files|
  {
    && (item.pending.None? || item.pending.value in disk.dirs)
    && (forall m :: m in item.made ==> m.path in disk.dirs && m.identity == disk.dirs[m.path])
    && (forall j :: 0 <= j < |item.states| ==>
          var f := item.plan.files[j];
          var (here, gone) := if item.states[j] == NotStarted then (f.source, f.destination) else (f.destination, f.source);
          && gone !in disk.files && here in disk.files
          && disk.files[here].identity == f.identity && f.sha256 == Sha256(disk.files[here].content))
  }

  /** The receipt changes after the configuration. */
  ghost predicate ReceiptAsJournaled(disk: Disk, record: Record) {
    match (record.receipt, disk.receipt)
    case (None, None) => true
    case (Some(change), Some(now)) =>
      && (match record.progress
          case Intent => now == change.before
          case ConfigApplied => now == change.before || now == change.target
          case _ => now == change.target)
      && (now == change.before || now != change.target || disk.config == record.config.target)
    case _ => false
  }

  /** The policy changes after every file was issued, and before the configuration. */
  ghost predicate PolicyAsJournaled(disk: Disk, record: Record) {
    && (match record.policyState
        case NotStarted => disk.policy == record.policy.before
        case Issued => disk.policy == record.policy.before || disk.policy == record.policy.target
        case Completed => disk.policy == record.policy.target)
    && (record.progress == Intent || disk.policy == record.policy.target)
    && (disk.config != record.config.target || record.config.before == record.config.target || disk.policy == record.policy.target)
    && ((record.progress == Intent && disk.config != record.config.target)
        || forall item :: item in record.items ==> forall state :: state in item.states ==> state != NotStarted)
  }

  lemma ItemObservedIff(disk: Disk, item: Item)
    requires Shaped(item)
    ensures ItemObserved(disk, item) <==> ItemAsJournaled(disk, item)
  {
  }

  lemma ReceiptObservedIff(disk: Disk, record: Record)
    ensures ReceiptObserved(disk, record) <==> ReceiptAsJournaled(disk, record)
  {
  }

  lemma UnstartedIff(record: Record)
    ensures NoFileUnstarted(record) <==> forall item :: item in record.items ==> forall state :: state in item.states ==> state != NotStarted
  {
    if NoFileUnstarted(record) {
      forall item | item in record.items ensures forall state :: state in item.states ==> state != NotStarted {
        var i :| 0 <= i < |record.items| && record.items[i] == item;
      }
    } else {
      var i, j :| 0 <= i < |record.items| && 0 <= j < |record.items[i].states| && record.items[i].states[j] == NotStarted;
      assert record.items[i] in record.items && record.items[i].states[j] in record.items[i].states;
    }
  }

  lemma PolicyObservedIff(disk: Disk, record: Record)
    ensures PolicyAsJournaled(disk, record) <==>
            PolicyObserved(disk, record) && (record.progress != Intent || disk.config == record.config.target ==> NoFileUnstarted(record))
  {
    UnstartedIff(record);
    hide NoFileUnstarted;
  }

  /** What revalidation accepts: the configuration, the receipt, the policy and every item are as the journal
      says. */
  lemma ObservedIff(disk: Disk, record: Record)
    requires WellFormed(record)
    ensures Observed(disk, record) <==>
            && (disk.config == record.config.target || (record.progress == Intent && disk.config == record.config.before))
            && ReceiptAsJournaled(disk, record)
            && (record.items == [] || PolicyAsJournaled(disk, record))
            && (forall i :: 0 <= i < |record.items| ==> ItemAsJournaled(disk, record.items[i]))
  {
    ReceiptObservedIff(disk, record);
    PolicyObservedIff(disk, record);
    forall i | 0 <= i < |record.items| ensures ItemObserved(disk, record.items[i]) <==> ItemAsJournaled(disk, record.items[i]) {
      ItemObservedIff(disk, record.items[i]);
    }
    hide ReceiptObserved, ReceiptAsJournaled, PolicyObserved, PolicyAsJournaled, ItemObserved, ItemAsJournaled, NoFileUnstarted, Shaped;
  }
}
