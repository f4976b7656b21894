/** The promises of a relocation over whole runs: any number of processes, each of them possibly crashing
    between any two steps. */
module RelocationRuns {
  import opened Outcomes
  import Paths
  import opened RelocationPlan
  import opened RelocationMachine
  import opened RelocationSafety

  ghost predicate OperationRun(trace: seq<World>, labels: seq<Label>) {
    IsRun(trace, labels) && Published(trace[0])
  }

  /** The same run, by what its start is known for. */
  ghost predicate BaseRun(start: World, trace: seq<World>, labels: seq<Label>) {
    IsRun(trace, labels) && Base(start) && Inv(start, trace[0])
  }

  lemma Grounded(trace: seq<World>, labels: seq<Label>)
    requires OperationRun(trace, labels)
    ensures BaseRun(trace[0], trace, labels)
  {
    hide Base, Inv, Published;
    PublishedInv(trace[0]);
  }

  lemma {:induction false} RunKeepsInv(start: World, trace: seq<World>, labels: seq<Label>, i: nat)
    requires BaseRun(start, trace, labels) && i < |trace|
    ensures Inv(start, trace[i])
    decreases i
  {
    hide Base, Inv, Step;
    if i > 0 {
      RunKeepsInv(start, trace, labels, i - 1);
      StepKeepsInv(start, trace[i - 1], labels[i - 1], trace[i]);
    }
  }

  /** The journal of a state: pending, or archived with the operation complete. */
  function Image(w: World): Record
    requires w.journal.Some? || w.archive.Some?
  {
    if w.journal.Some? then w.journal.value else w.archive.value
  }

  lemma RunImage(start: World, trace: seq<World>, labels: seq<Label>, i: nat)
    requires BaseRun(start, trace, labels) && i < |trace|
    ensures trace[i].journal.Some? || trace[i].archive.Some?
    ensures InvOf(start, trace[i], Image(trace[i]))
  {
    hide Base, InvOf;
    RunKeepsInv(start, trace, labels, i);
  }

  // ---------------------------------------------------------------- effects form a prefix

  /** In every reachable journal the effects done form a prefix of the plan: earlier items are whole, the
      directories of an item are recorded in order and before its first file is issued, at most the next
      one is pending and one file issued, and nothing later is begun. */
  lemma EffectsFormAPrefix(trace: seq<World>, labels: seq<Label>, i: nat)
    requires OperationRun(trace, labels) && i < |trace|
    ensures trace[i].journal.Some? || trace[i].archive.Some?
    ensures Prefix(Image(trace[i]))
  {
    hide InvOf, BaseRun;
    Grounded(trace, labels);
    RunImage(trace[0], trace, labels, i);
    InvPrefix(trace[0], trace[i], Image(trace[i]));
  }

  lemma InvPrefix(start: World, w: World, record: Record)
    requires InvOf(start, w, record)
    ensures Prefix(record)
  {
  }

  ghost predicate FileIssued(record: Record, i: nat, j: nat) {
    i < |record.items| && j < |record.items[i].states| && record.items[i].states[j] == Issued
  }

  ghost predicate DirectoryPending(record: Record, i: nat) {
    i < |record.items| && record.items[i].pending.Some?
  }

  /** Only one thing is ever open: a directory, a file, or the policy. */
  lemma OneEffectOpen(record: Record)
    requires Prefix(record)
    ensures forall i: nat, i': nat :: DirectoryPending(record, i) && DirectoryPending(record, i') ==> i == i'
    ensures forall i: nat, j: nat, i': nat, j': nat :: FileIssued(record, i, j) && FileIssued(record, i', j') ==> i == i' && j == j'
    ensures forall i: nat, i': nat, j: nat :: DirectoryPending(record, i) ==> !FileIssued(record, i', j)
    ensures record.policyState != NotStarted ==> forall i: nat, j: nat :: !DirectoryPending(record, i) && !FileIssued(record, i, j)
  {
    forall i: nat | DirectoryPending(record, i) ensures !Untouched(record.items[i]) && !Whole(record.items[i]) {
    }
    forall i: nat, j: nat | FileIssued(record, i, j) ensures !Untouched(record.items[i]) && !Whole(record.items[i]) {
    }
    forall i: nat, j: nat, i': nat, j': nat | FileIssued(record, i, j) && FileIssued(record, i', j') ensures i == i' && j == j' {
      OneUnderWay(record.items, i, i');
    }
    forall i: nat, i': nat | DirectoryPending(record, i) && DirectoryPending(record, i') ensures i == i' {
      OneUnderWay(record.items, i, i');
    }
    forall i: nat, i': nat, j: nat | DirectoryPending(record, i) && FileIssued(record, i', j) ensures false {
      OneUnderWay(record.items, i, i');
    }
  }

  /** The parent of a directory about to be made is the new root or a directory already recorded, so the
      journal's own check of target parents never refuses an image. */
  lemma ParentRecorded(trace: seq<World>, labels: seq<Label>, n: nat, i: nat)
    requires OperationRun(trace, labels) && n < |trace| && trace[n].journal.Some? && DirectoryPending(trace[n].journal.value, i)
    ensures var item := trace[n].journal.value.items[i];
            Paths.Dirname(item.pending.value) == item.plan.newRoot || Recorded(item, Paths.Dirname(item.pending.value))
  {
    hide InvOf, Base, Inv, Published, IsRun;
    Grounded(trace, labels);
    RunImage(trace[0], trace, labels, n);
    var record := trace[n].journal.value;
    InvPrefix(trace[0], trace[n], record);
    PendingParent(trace[0], trace[n], record, i);
  }

  lemma PendingParent(start: World, w: World, record: Record, i: nat)
    requires Base(start) && InvOf(start, w, record) && DirectoryPending(record, i)
    ensures var item := record.items[i];
            Paths.Dirname(item.pending.value) == item.plan.newRoot || Recorded(item, Paths.Dirname(item.pending.value))
  {
    hide FilesInv, DirsInv, PolicyInv, ConfigInv, ReceiptInv, FrameInv, DirFrameInv, SessionInv;
    var item := record.items[i];
    ItemsApart(start, record, i, i);
    OrderHere(record, i);
    var m := |item.made|;
    var j := ParentFirst(item.plan, m);
    if Paths.Dirname(item.pending.value) != item.plan.newRoot {
      assert item.made[j].path == TargetPaths(item.plan)[j];
    }
  }

  // ---------------------------------------------------------------- at most once

  function Count(labels: seq<Label>, l: Label): nat {
    if labels == [] then 0 else Count(labels[..|labels| - 1], l) + if labels[|labels| - 1] == l then 1 else 0
  }

  /** A file that will not be moved any more. */
  ghost predicate FileSpent(w: World, record: Record, i: nat, j: nat) {
    && i < |record.items| && j < |record.items[i].states|
    && (record.items[i].states[j] == Completed || (record.items[i].states[j] == Issued && w.session != Up(Moving(i, j))))
  }

  lemma FileStaysSpent(w: World, record: Record, l: Label, i: nat, j: nat)
    requires w.journal == Some(record) && Enabled(w, record, l) && SessionInv(w.disk, w.session, record) && l != Archive
    ensures Next(w, record, l).journal.Some?
    ensures l == MoveFile(i, j) ==> !FileSpent(w, record, i, j)
    ensures l == MoveFile(i, j) || FileSpent(w, record, i, j) ==> FileSpent(Next(w, record, l), Next(w, record, l).journal.value, i, j)
  {
    hide Observed, DirectoriesDone, DoneBefore, AllDone, RelocationDone;
  }

  /** The policy is replaced, or its replacement was issued by a process that is gone. */
  ghost predicate PolicySpent(w: World, record: Record) {
    record.policyState == Completed || (record.policyState == Issued && w.session != Up(Replacing))
  }

  lemma PolicyStaysSpent(w: World, record: Record, l: Label)
    requires w.journal == Some(record) && Enabled(w, record, l) && SessionInv(w.disk, w.session, record) && l != Archive
    ensures Next(w, record, l).journal.Some?
    ensures l == ReplacePolicy ==> !PolicySpent(w, record)
    ensures l == ReplacePolicy || PolicySpent(w, record) ==> PolicySpent(Next(w, record, l), Next(w, record, l).journal.value)
  {
    hide Observed, DirectoriesDone, DoneBefore, AllDone, RelocationDone;
  }

  lemma SpentStep(start: World, w: World, l: Label, w': World, i: nat, j: nat)
    requires Inv(start, w) && Step(w, l, w')
    ensures w'.journal.Some? || w'.archive.Some?
    ensures l == MoveFile(i, j) ==> !FileSpent(w, Image(w), i, j)
    ensures l == MoveFile(i, j) || FileSpent(w, Image(w), i, j) ==> FileSpent(w', Image(w'), i, j)
    ensures l == ReplacePolicy ==> !PolicySpent(w, Image(w))
    ensures l == ReplacePolicy || PolicySpent(w, Image(w)) ==> PolicySpent(w', Image(w'))
  {
    hide Enabled, Prefix, FilesInv, DirsInv, PolicyInv, ConfigInv, ReceiptInv, FrameInv, DirFrameInv;
    if l == Archive {
      ArchiveIdle(w);
    } else {
      FileStaysSpent(w, w.journal.value, l, i, j);
      PolicyStaysSpent(w, w.journal.value, l);
    }
  }

  lemma ArchiveIdle(w: World)
    requires w.journal.Some? && Enabled(w, w.journal.value, Archive)
    ensures w.session == Up(Idle)
  {
    hide Observed;
  }

  lemma {:induction false} SpentOnce(start: World, trace: seq<World>, labels: seq<Label>, i: nat, j: nat)
    requires BaseRun(start, trace, labels)
    ensures trace[|labels|].journal.Some? || trace[|labels|].archive.Some?
    ensures Count(labels, MoveFile(i, j)) <= 1 && (Count(labels, MoveFile(i, j)) == 1 ==> FileSpent(trace[|labels|], Image(trace[|labels|]), i, j))
    ensures Count(labels, ReplacePolicy) <= 1 && (Count(labels, ReplacePolicy) == 1 ==> PolicySpent(trace[|labels|], Image(trace[|labels|])))
    decreases |labels|
  {
    hide Base, InvOf, Step, FileSpent, PolicySpent;
    var n := |labels|;
    RunKeepsInv(start, trace, labels, n);
    if n > 0 {
      SpentOnce(start, trace[..n], labels[..n - 1], i, j);
      RunKeepsInv(start, trace, labels, n - 1);
      SpentStep(start, trace[n - 1], labels[n - 1], trace[n], i, j);
    }
  }

  /** Over all crashes and resumes each native file move, and the replacement of the policy, is called
      at most once. */
  lemma NothingIssuedTwice(trace: seq<World>, labels: seq<Label>, i: nat, j: nat)
    requires OperationRun(trace, labels)
    ensures Count(labels, MoveFile(i, j)) <= 1 && Count(labels, ReplacePolicy) <= 1
  {
    hide BaseRun, Published;
    Grounded(trace, labels);
    SpentOnce(trace[0], trace, labels, i, j);
  }

  // ---------------------------------------------------------------- the journal and the disk

  lemma InvDisk(start: World, w: World, record: Record)
    requires InvOf(start, w, record)
    ensures record.progress != Intent ==> w.disk.config == record.config.target
    ensures record.progress == ReceiptApplied || record.progress == Complete ==> ReceiptIs(w.disk, record, true)
    ensures record.items != [] && (record.policyState == Completed || record.progress != Intent) ==> w.disk.policy == record.policy.target
    ensures record.items != [] && w.disk.config == record.config.target ==> w.disk.policy == record.policy.target && AllWhole(record.items)
  {
    hide InOrder, FilesInv, DirsInv, FrameInv, DirFrameInv, AllWhole;
  }

  /** Progress never runs ahead of the disk, nor an output ahead of the ones before it. */
  lemma ProgressFollowsDisk(trace: seq<World>, labels: seq<Label>, n: nat)
    requires OperationRun(trace, labels) && n < |trace|
    ensures trace[n].journal.Some? || trace[n].archive.Some?
    ensures var record, disk := Image(trace[n]), trace[n].disk;
            && (record.progress != Intent ==> disk.config == record.config.target)
            && (record.progress == ReceiptApplied || record.progress == Complete ==> ReceiptIs(disk, record, true))
            && (record.items != [] && (record.policyState == Completed || record.progress != Intent) ==> disk.policy == record.policy.target)
            && (record.items != [] && disk.config == record.config.target ==> disk.policy == record.policy.target && AllWhole(record.items))
  {
    hide InvOf, BaseRun, Published, AllWhole, ReceiptIs;
    Grounded(trace, labels);
    RunImage(trace[0], trace, labels, n);
    InvDisk(trace[0], trace[n], Image(trace[n]));
  }

  /** The disk a finished relocation leaves, path by path, in terms of the disk it found. */
  ghost predicate Relocated(before: Disk, record: Record, after: Disk) {
    && after.config == record.config.target && ReceiptIs(after, record, true) && after.receipt.Some? == record.receipt.Some?
    && (record.items != [] ==> after.policy == record.policy.target)
    && (forall i, j :: 0 <= i < |record.items| && 0 <= j < |record.items[i].plan.files| ==>
          FileMoved(before.files, after.files, record.items[i].plan.files[j]))
    && FrameInv(before.files, after.files, record.items)
    && (forall i :: 0 <= i < |record.items| ==> DirectoriesBelow(record.items[i].plan) && AllIn(TargetPaths(record.items[i].plan), after.dirs))
    && DirFrameInv(before.dirs, after.dirs, record.items)
  }

  predicate AllIn(paths: seq<string>, dirs: map<string, Identity>) {
    forall k :: 0 <= k < |paths| ==> paths[k] in dirs
  }

  predicate FileMoved(before: map<string, FileRecord>, after: map<string, FileRecord>, f: PlannedFile) {
    f.source in before && f.source !in after && f.destination in after && after[f.destination] == before[f.source]
  }

  lemma WholeFiles(start: World, w: World, record: Record, i: nat, j: nat)
    requires InvOf(start, w, record) && AllWhole(record.items) && InvOf(start, start, start.journal.value)
    requires i < |record.items| && j < |record.items[i].plan.files|
    requires forall k :: 0 <= k < |start.journal.value.items| ==> Untouched(start.journal.value.items[k])
    ensures FileMoved(start.disk.files, w.disk.files, record.items[i].plan.files[j])
  {
    hide Prefix, PolicyInv, ConfigInv, ReceiptInv, FrameInv, DirFrameInv, DirsInv, SessionInv;
    var record0 := start.journal.value;
    PlansAt(record, i);
    PlansAt(record0, i);
    ItemHere2(w, record, i);
    ItemHere2(start, record0, i);
    assert FileWhere(w.disk.files, record.items[i].plan.files[j], record.items[i].states[j]);
    assert FileWhere(start.disk.files, record0.items[i].plan.files[j], record0.items[i].states[j]);
  }

  lemma WholeDirs(start: World, w: World, record: Record, i: nat)
    requires InvOf(start, w, record) && AllWhole(record.items) && i < |record.items|
    ensures DirectoriesBelow(record.items[i].plan) && AllIn(TargetPaths(record.items[i].plan), w.disk.dirs)
  {
    hide Prefix, PolicyInv, ConfigInv, ReceiptInv, FrameInv, DirFrameInv, FilesInv, SessionInv;
    var item := record.items[i];
    assert Whole(item) && ItemDirs(w.disk.dirs, item);
    assert forall k :: 0 <= k < |item.made| ==> item.made[k].path == TargetPaths(item.plan)[k];
  }

  lemma CompleteIsRelocated(start: World, w: World, record: Record)
    requires InvOf(start, w, record) && record.progress == Complete && InvOf(start, start, start.journal.value)
    requires forall k :: 0 <= k < |start.journal.value.items| ==> Untouched(start.journal.value.items[k])
    ensures Relocated(start.disk, record, w.disk)
  {
    hide FilesInv, DirsInv, FrameInv, DirFrameInv, InOrder, FileMoved, SessionInv, AllIn;
    InvDisk(start, w, record);
    forall i, j | 0 <= i < |record.items| && 0 <= j < |record.items[i].plan.files|
      ensures FileMoved(start.disk.files, w.disk.files, record.items[i].plan.files[j])
    {
      WholeFiles(start, w, record, i, j);
    }
    forall i | 0 <= i < |record.items| ensures DirectoriesBelow(record.items[i].plan) && AllIn(TargetPaths(record.items[i].plan), w.disk.dirs) {
      WholeDirs(start, w, record, i);
    }
  }

  /** A run that gets the operation into the archive leaves every captured file, with its identity and
      bytes, at its destination and nowhere else, every directory made, all outputs at their targets, and
      nothing else changed. */
  lemma ArchivedMeansRelocated(trace: seq<World>, labels: seq<Label>, n: nat)
    requires OperationRun(trace, labels) && n < |trace| && trace[n].journal.None?
    ensures trace[n].archive.Some? && SameOperation(trace[0].journal.value, trace[n].archive.value)
    ensures Relocated(trace[0].disk, trace[n].archive.value, trace[n].disk)
  {
    hide InvOf, Published, SameOperation;
    Grounded(trace, labels);
    RunImage(trace[0], trace, labels, n);
    RunImage(trace[0], trace, labels, 0);
    RunKeepsInv(trace[0], trace, labels, n);
    PublishedUntouched(trace[0]);
    CompleteIsRelocated(trace[0], trace[n], Image(trace[n]));
    InvSame(trace[0], trace[n], Image(trace[n]));
  }

  lemma PublishedUntouched(start: World)
    requires Published(start)
    ensures start.journal.Some?
    ensures forall k :: 0 <= k < |start.journal.value.items| ==> Untouched(start.journal.value.items[k])
  {
  }

  lemma InvSame(start: World, w: World, record: Record)
    requires InvOf(start, w, record)
    ensures SameOperation(start.journal.value, record)
  {
  }

  lemma RelocatedFiles(before: Disk, a: Record, after: Disk, b: Record, after': Disk)
    requires Relocated(before, a, after) && Relocated(before, b, after') && Plans(a) == Plans(b)
    ensures after.files == after'.files
  {
    forall p ensures (p in after.files <==> p in after'.files) && (p in after.files ==> after.files[p] == after'.files[p]) {
      SameEndpoints(a, b, p);
      if IsEndpoint(a.items, p) {
        var i, j :| 0 <= i < |a.items| && 0 <= j < |a.items[i].plan.files|
          && (a.items[i].plan.files[j].source == p || a.items[i].plan.files[j].destination == p);
        PlansAt(a, i);
        PlansAt(b, i);
        assert FileMoved(before.files, after.files, a.items[i].plan.files[j]);
        assert FileMoved(before.files, after'.files, b.items[i].plan.files[j]);
      }
    }
  }

  lemma SameEndpoints(a: Record, b: Record, p: string)
    requires Plans(a) == Plans(b)
    ensures IsEndpoint(a.items, p) <==> IsEndpoint(b.items, p)
    ensures IsTarget(a.items, p) <==> IsTarget(b.items, p)
  {
    assert |a.items| == |Plans(a)| == |b.items|;
    assert forall i :: 0 <= i < |a.items| ==> a.items[i].plan == Plans(a)[i];
    assert forall i :: 0 <= i < |b.items| ==> b.items[i].plan == Plans(b)[i];
  }

  lemma RelocatedDirs(before: Disk, a: Record, after: Disk, b: Record, after': Disk)
    requires Relocated(before, a, after) && Relocated(before, b, after') && Plans(a) == Plans(b)
    ensures after.dirs.Keys == after'.dirs.Keys
  {
    hide FrameInv, FileMoved;
    forall p ensures p in after.dirs <==> p in after'.dirs {
      SameEndpoints(a, b, p);
      if IsTarget(a.items, p) {
        TargetIsThere(before, a, after, p);
        TargetIsThere(before, b, after', p);
      }
    }
  }

  lemma TargetIsThere(before: Disk, a: Record, after: Disk, p: string)
    requires Relocated(before, a, after) && IsTarget(a.items, p)
    ensures p in after.dirs
  {
    hide FrameInv, FileMoved, DirFrameInv;
    var i :| 0 <= i < |a.items| && DirectoriesBelow(a.items[i].plan) && p in TargetPaths(a.items[i].plan);
    assert AllIn(TargetPaths(a.items[i].plan), after.dirs);
  }

  /** Every run that succeeds, however often it crashed and resumed, ends where the run without a crash
      does: the same files, the same outputs, the same directories. */
  lemma SuccessfulRunsEndAlike(a: seq<World>, la: seq<Label>, n: nat, b: seq<World>, lb: seq<Label>, m: nat)
    requires OperationRun(a, la) && OperationRun(b, lb) && a[0] == b[0] && n < |a| && m < |b|
    requires a[n].journal.None? && b[m].journal.None?
    ensures a[n].disk.files == b[m].disk.files && a[n].disk.dirs.Keys == b[m].disk.dirs.Keys
    ensures a[n].disk.config == b[m].disk.config && a[n].disk.receipt == b[m].disk.receipt
    ensures a[0].journal.value.items != [] ==> a[n].disk.policy == b[m].disk.policy
  {
    hide Published, FrameInv, DirFrameInv, FileMoved;
    ArchivedMeansRelocated(a, la, n);
    ArchivedMeansRelocated(b, lb, m);
    PublishedUntouched(a[0]);
    var ra, rb := a[n].archive.value, b[m].archive.value;
    RelocatedFiles(a[0].disk, ra, a[n].disk, rb, b[m].disk);
    RelocatedDirs(a[0].disk, ra, a[n].disk, rb, b[m].disk);
    assert |ra.items| == |Plans(ra)| == |Plans(a[0].journal.value)| == |a[0].journal.value.items|;
    assert |rb.items| == |Plans(rb)|;
  }

  // ---------------------------------------------------------------- the three crashes that cannot be resumed

  /** A directory recorded as pending was never made. */
  ghost predicate DirectoryLost(w: World, record: Record) {
    exists i: nat :: DirectoryPending(record, i) && record.items[i].pending.value !in w.disk.dirs
                     && w.session != Up(Making(i, record.items[i].pending.value))
  }

  /** A file was issued and is still at its source. */
  ghost predicate FileLost(w: World, record: Record) {
    exists i: nat, j: nat :: FileIssued(record, i, j) && j < |record.items[i].plan.files|
                             && record.items[i].plan.files[j].source in w.disk.files && w.session != Up(Moving(i, j))
  }

  /** The policy was issued and is still the old one. */
  ghost predicate PolicyLost(w: World, record: Record) {
    record.policyState == Issued && w.disk.policy == record.policy.before != record.policy.target && w.session != Up(Replacing)
  }

  ghost predicate Stuck(w: World) {
    w.journal.Some? && (DirectoryLost(w, w.journal.value) || FileLost(w, w.journal.value) || PolicyLost(w, w.journal.value))
  }

  lemma ActIsOpen(w: World, record: Record)
    requires SessionInv(w.disk, w.session, record)
    ensures w.session.Up? && w.session.act.Making? ==> DirectoryPending(record, w.session.act.i)
    ensures w.session.Up? && w.session.act.Moving? ==> FileIssued(record, w.session.act.i, w.session.act.j)
  {
  }

  lemma InvParts(start: World, w: World, record: Record)
    requires InvOf(start, w, record)
    ensures Prefix(record) && SessionInv(w.disk, w.session, record)
  {
  }

  lemma PendingUnobserved(disk: Disk, record: Record, i: nat)
    requires DirectoryPending(record, i) && record.items[i].pending.value !in disk.dirs
    ensures !Observed(disk, record)
  {
    if WellFormed(record) {
      assert !ItemObserved(disk, record.items[i]);
    }
  }

  lemma IssuedUnobserved(disk: Disk, record: Record, i: nat, j: nat)
    requires FileIssued(record, i, j) && j < |record.items[i].plan.files| && record.items[i].plan.files[j].source in disk.files
    ensures !Observed(disk, record)
  {
    if WellFormed(record) {
      assert !FileObserved(disk.files, record.items[i].plan.files[j], record.items[i].states[j]);
      assert !ItemObserved(disk, record.items[i]);
    }
  }

  lemma UnobservedAllowsOnlyActs(w: World, record: Record, l: Label)
    requires Enabled(w, record, l) && !Observed(w.disk, record)
    ensures l == Start || l == Crash || (w.session.Up? && w.session.act != Idle)
  {
  }

  lemma DirectoryLostAllowsNothing(start: World, w: World, record: Record, l: Label)
    requires InvOf(start, w, record) && w.journal == Some(record) && Enabled(w, record, l) && DirectoryLost(w, record)
    ensures l == Start || l == Crash
  {
    hide InvOf, Prefix, Observed, Enabled;
    var i: nat :| DirectoryPending(record, i) && record.items[i].pending.value !in w.disk.dirs
                  && w.session != Up(Making(i, record.items[i].pending.value));
    InvParts(start, w, record);
    OneEffectOpen(record);
    ActIsOpen(w, record);
    PendingUnobserved(w.disk, record, i);
    UnobservedAllowsOnlyActs(w, record, l);
    assert w.session.Up? ==> w.session.act == Idle by { NothingElsePending(w, record, i); }
  }

  lemma NothingElsePending(w: World, record: Record, i: nat)
    requires Prefix(record) && SessionInv(w.disk, w.session, record) && DirectoryPending(record, i)
    requires w.session != Up(Making(i, record.items[i].pending.value))
    ensures w.session.Up? ==> w.session.act == Idle
  {
    hide InOrder;
    OneEffectOpen(record);
    ActIsOpen(w, record);
  }

  lemma NothingElseIssued(w: World, record: Record, i: nat, j: nat)
    requires Prefix(record) && SessionInv(w.disk, w.session, record) && FileIssued(record, i, j) && w.session != Up(Moving(i, j))
    ensures w.session.Up? ==> w.session.act == Idle
  {
    hide InOrder;
    OneEffectOpen(record);
    ActIsOpen(w, record);
  }

  lemma FileLostAllowsNothing(start: World, w: World, record: Record, l: Label)
    requires InvOf(start, w, record) && w.journal == Some(record) && Enabled(w, record, l) && FileLost(w, record)
    ensures l == Start || l == Crash
  {
    hide InvOf, Prefix, Observed, Enabled, SessionInv;
    var i: nat, j: nat :| FileIssued(record, i, j) && j < |record.items[i].plan.files|
                          && record.items[i].plan.files[j].source in w.disk.files && w.session != Up(Moving(i, j));
    InvParts(start, w, record);
    IssuedUnobserved(w.disk, record, i, j);
    UnobservedAllowsOnlyActs(w, record, l);
    NothingElseIssued(w, record, i, j);
  }

  lemma NothingElseReplaced(w: World, record: Record)
    requires Prefix(record) && SessionInv(w.disk, w.session, record) && record.policyState == Issued && w.session != Up(Replacing)
    ensures w.session.Up? ==> w.session.act == Idle
  {
    hide InOrder;
    OneEffectOpen(record);
    ActIsOpen(w, record);
  }

  lemma AllWholeDone(record: Record)
    requires AllWhole(record.items)
    ensures WellFormed(record) && forall i :: 0 <= i < |record.items| ==> record.items[i].pending.None? && ItemDone(record.items[i])
  {
    forall i | 0 <= i < |record.items| ensures Shaped(record.items[i]) && record.items[i].pending.None? && ItemDone(record.items[i]) {
      WholeIsDone(record.items[i]);
    }
  }

  lemma PolicyLostAllowsNothing(start: World, w: World, record: Record, l: Label)
    requires InvOf(start, w, record) && w.journal == Some(record) && Enabled(w, record, l) && PolicyLost(w, record)
    ensures l == Start || l == Crash
  {
    hide InvOf, Observed, InOrder, AllWhole, SessionInv, Settled;
    InvParts(start, w, record);
    NothingElseReplaced(w, record);
    AllWholeDone(record);
    InvDisk(start, w, record);
    PolicyLostTail(w, record, l);
  }

  lemma PolicyLostTail(w: World, record: Record, l: Label)
    requires WellFormed(record) && record.items != [] && record.policyState == Issued && record.progress == Intent
    requires forall i :: 0 <= i < |record.items| ==> record.items[i].pending.None? && ItemDone(record.items[i])
    requires w.disk.policy == record.policy.before != record.policy.target && (w.session.Up? ==> w.session.act == Idle)
    requires Enabled(w, record, l)
    ensures l == Start || l == Crash
  {
    hide Observed, DoneBefore;
  }

  lemma StuckStep(start: World, w: World, l: Label, w': World)
    requires Inv(start, w) && Step(w, l, w') && Stuck(w)
    ensures w' == w.(session := w'.session) && Stuck(w')
  {
    hide InvOf, DirectoryLost, FileLost, PolicyLost;
    var record := w.journal.value;
    assert l == Start || l == Crash by {
      if DirectoryLost(w, record) {
        DirectoryLostAllowsNothing(start, w, record, l);
      } else if FileLost(w, record) {
        FileLostAllowsNothing(start, w, record, l);
      } else {
        PolicyLostAllowsNothing(start, w, record, l);
      }
    }
    LostStays(w, w', record);
  }

  lemma LostStays(w: World, w': World, record: Record)
    requires w' == w.(session := w'.session) && (w'.session.Up? ==> w'.session.act == Idle)
    ensures DirectoryLost(w, record) ==> DirectoryLost(w', record)
    ensures FileLost(w, record) ==> FileLost(w', record)
    ensures PolicyLost(w, record) ==> PolicyLost(w', record)
  {
    if DirectoryLost(w, record) {
      var i: nat :| DirectoryPending(record, i) && record.items[i].pending.value !in w.disk.dirs;
      assert DirectoryPending(record, i) && record.items[i].pending.value !in w'.disk.dirs;
    }
    if FileLost(w, record) {
      var i: nat, j: nat :| FileIssued(record, i, j) && j < |record.items[i].plan.files| && record.items[i].plan.files[j].source in w.disk.files;
      assert FileIssued(record, i, j) && record.items[i].plan.files[j].source in w'.disk.files;
    }
  }

  lemma {:induction false} StuckFrom(start: World, trace: seq<World>, labels: seq<Label>, i: nat, j: nat)
    requires BaseRun(start, trace, labels) && i <= j < |trace| && Stuck(trace[i])
    ensures trace[j] == trace[i].(session := trace[j].session) && Stuck(trace[j])
    decreases j
  {
    hide Base, Inv, Step, Stuck;
    if i < j {
      StuckFrom(start, trace, labels, i, j - 1);
      RunKeepsInv(start, trace, labels, j - 1);
      StuckStep(start, trace[j - 1], labels[j - 1], trace[j]);
    }
  }

  /** After a crash in one of the three windows no later process ever writes anything. */
  lemma StuckForever(trace: seq<World>, labels: seq<Label>, i: nat, j: nat)
    requires OperationRun(trace, labels) && i <= j < |trace| && Stuck(trace[i])
    ensures trace[j] == trace[i].(session := trace[j].session) && Stuck(trace[j])
  {
    hide Published, BaseRun, Stuck;
    Grounded(trace, labels);
    StuckFrom(trace[0], trace, labels, i, j);
  }
}
