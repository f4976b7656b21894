/** finishOperation as the program it is, over a repository it changes in place. Any process may stop
    between any two of its writes; the history records every step made by all of them. */
module RelocationDriver {
  import opened Outcomes
  import opened RelocationPlan
  import opened RelocationMachine
  import opened RelocationSafety
  import opened RelocationFrozen
  import opened RelocationRuns

  lemma RunGrows(start: World, history: seq<World>, labels: seq<Label>, l: Label, w: World)
    requires BaseRun(start, history, labels) && Step(history[|labels|], l, w)
    ensures BaseRun(start, history + [w], labels + [l])
  {
    hide Base, Inv, Step;
    var trace, steps := history + [w], labels + [l];
    forall i | 0 <= i < |steps| ensures Step(trace[i], steps[i], trace[i + 1]) {
      if i < |labels| {
        assert Step(history[i], labels[i], history[i + 1]);
      }
    }
  }

  // ---------------------------------------------------------------- what the absence of a lost effect gives

  lemma ItemIsObserved(disk: Disk, item: Item)
    requires ItemOrder(item) && ItemFiles(disk.files, item) && ItemDirs(disk.dirs, item)
    requires item.pending.Some? ==> item.pending.value in disk.dirs
    requires forall j :: 0 <= j < |item.states| && item.states[j] == Issued ==> item.plan.files[j].source !in disk.files
    ensures ItemObserved(disk, item)
  {
    forall j | 0 <= j < |item.states| ensures FileObserved(disk.files, item.plan.files[j], item.states[j]) {
      assert FileWhere(disk.files, item.plan.files[j], item.states[j]);
    }
  }

  lemma ItemsAreObserved(w: World, record: Record)
    requires Prefix(record) && FilesInv(w.disk.files, record.items) && DirsInv(w.disk.dirs, record.items)
    requires w.session == Up(Idle) && !DirectoryLost(w, record) && !FileLost(w, record)
    ensures WellFormed(record) && forall i :: 0 <= i < |record.items| ==> ItemObserved(w.disk, record.items[i])
  {
    hide Prefix, FilesInv, DirsInv, ItemFiles, ItemDirs, ItemOrder, ItemObserved;
    forall i | 0 <= i < |record.items| ensures Shaped(record.items[i]) && ItemObserved(w.disk, record.items[i]) {
      ItemHere(w, record, i);
      ItemHere2(w, record, i);
      assert DirectoryPending(record, i) ==> record.items[i].pending.value in w.disk.dirs;
      forall j | 0 <= j < |record.items[i].states| && record.items[i].states[j] == Issued ensures record.items[i].plan.files[j].source !in w.disk.files {
        assert FileIssued(record, i, j);
      }
      ItemIsObserved(w.disk, record.items[i]);
    }
  }

  lemma OutputsAreObserved(disk: Disk, record: Record)
    requires Prefix(record) && PolicyInv(disk.policy, record) && ConfigInv(disk.config, record) && ReceiptInv(disk.receipt, disk.config, record)
    ensures ConfigObserved(disk, record) && ReceiptObserved(disk, record) && (record.items != [] ==> PolicyObserved(disk, record))
    ensures record.items != [] && (record.progress != Intent || disk.config == record.config.target) ==> NoFileUnstarted(record)
  {
    hide InOrder, AllWhole;
    if record.items != [] && (record.progress != Intent || disk.config == record.config.target) {
      WholeHasNoUnstarted(record);
    }
  }

  lemma WholeHasNoUnstarted(record: Record)
    requires AllWhole(record.items)
    ensures NoFileUnstarted(record)
  {
    forall i | 0 <= i < |record.items| ensures FilesDone(record.items[i]) {
      assert Whole(record.items[i]);
    }
  }

  lemma NotStuckIsObserved(start: World, w: World, record: Record)
    requires InvOf(start, w, record) && w.journal == Some(record) && w.session == Up(Idle) && !Stuck(w)
    ensures Observed(w.disk, record)
  {
    hide Prefix, FilesInv, DirsInv, PolicyInv, ConfigInv, ReceiptInv, FrameInv, DirFrameInv, DirectoryLost, FileLost, ItemObserved,
      ConfigObserved, ReceiptObserved, PolicyObserved, NoFileUnstarted;
    ItemsAreObserved(w, record);
    OutputsAreObserved(w.disk, record);
  }

  ghost predicate NothingOpen(record: Record) {
    (forall i: nat :: !DirectoryPending(record, i)) && (forall i: nat, j: nat :: !FileIssued(record, i, j))
  }

  lemma NothingOpenNotStuck(w: World, record: Record)
    requires w.journal == Some(record) && NothingOpen(record)
    requires record.policyState != Issued || w.disk.policy == record.policy.target
    ensures !Stuck(w)
  {
  }

  lemma PendingMadeNotStuck(w: World, record: Record, i: nat)
    requires w.journal == Some(record) && Prefix(record) && DirectoryPending(record, i) && record.items[i].pending.value in w.disk.dirs
    ensures !Stuck(w)
  {
    hide InOrder;
    OneEffectOpen(record);
  }

  lemma IssuedMovedNotStuck(w: World, record: Record, i: nat, j: nat)
    requires w.journal == Some(record) && Prefix(record) && FileIssued(record, i, j) && j < |record.items[i].plan.files|
    requires record.items[i].plan.files[j].source !in w.disk.files
    ensures !Stuck(w)
  {
    hide InOrder;
    OneEffectOpen(record);
  }

  lemma ClosedDirectory(record: Record, i: nat, identity: Identity)
    requires Prefix(record) && DirectoryPending(record, i)
    ensures NothingOpen(WithItem(record, i, WithMade(record.items[i], identity))) && record.policyState == NotStarted
  {
    hide InOrder;
    OneEffectOpen(record);
    var record' := WithItem(record, i, WithMade(record.items[i], identity));
    assert forall k: nat, j: nat :: FileIssued(record', k, j) ==> FileIssued(record, k, j);
    assert forall k: nat :: DirectoryPending(record', k) ==> k != i && DirectoryPending(record, k);
  }

  lemma ClosedFile(record: Record, i: nat, j: nat)
    requires Prefix(record) && FileIssued(record, i, j)
    ensures NothingOpen(WithItem(record, i, FileSet(record.items[i], j, Completed))) && record.policyState == NotStarted
  {
    hide InOrder;
    OneEffectOpen(record);
    var record' := WithItem(record, i, FileSet(record.items[i], j, Completed));
    assert forall k: nat, l: nat :: FileIssued(record', k, l) ==> FileIssued(record, k, l) && (k != i || l != j);
    assert forall k: nat :: DirectoryPending(record', k) ==> DirectoryPending(record, k);
  }

  lemma AllDoneOpensNothing(record: Record)
    requires WellFormed(record) && AllDone(record)
    ensures NothingOpen(record)
  {
    hide TargetPaths;
    assert forall i :: 0 <= i < |record.items| ==> ItemDone(record.items[i]);
  }

  /** b is a with one item further on. */
  ghost predicate SameButItem(a: Record, b: Record, i: nat) {
    && i < |a.items| == |b.items| && b == a.(items := a.items[i := b.items[i]])
    && b.items[i].plan == a.items[i].plan && |b.items[i].states| == |a.items[i].states|
  }

  lemma SameButItemKeeps(a: Record, b: Record, i: nat)
    requires WellFormed(a) && DoneBefore(a, i) && SameButItem(a, b, i)
    ensures WellFormed(b) && DoneBefore(b, i)
  {
    hide ItemDone;
    assert forall k :: 0 <= k < |a.items| && k != i ==> b.items[k] == a.items[k];
  }

  lemma SameButItemTwice(a: Record, b: Record, c: Record, i: nat)
    requires SameButItem(a, b, i) && SameButItem(b, c, i)
    ensures SameButItem(a, c, i)
  {
  }

  lemma DoneUpTo(record: Record, i: nat)
    requires WellFormed(record) && DoneBefore(record, i) && i < |record.items| && ItemDone(record.items[i])
    ensures DoneBefore(record, i + 1)
  {
    hide ItemDone;
  }

  lemma RecordedStays(item: Item, identity: Identity, path: string)
    requires item.pending.Some?
    ensures Recorded(item, path) || path == item.pending.value ==> Recorded(WithMade(item, identity), path)
  {
    var item' := WithMade(item, identity);
    if Recorded(item, path) {
      var k :| 0 <= k < |item.made| && item.made[k].path == path;
      assert item'.made[k].path == path;
    } else if path == item.pending.value {
      assert item'.made[|item.made|].path == path;
    }
  }

  lemma MovingIsEnabled(start: World, w: World, record: Record, i: nat, j: nat)
    requires InvOf(start, w, record) && w.session == Up(Moving(i, j))
    ensures i < |record.items| && j < |record.items[i].plan.files| && FileIssued(record, i, j) && Enabled(w, record, MoveFile(i, j))
  {
    hide Prefix, DirsInv, PolicyInv, ConfigInv, ReceiptInv, FrameInv, DirFrameInv;
    ItemHere2(w, record, i);
    assert FileWhere(w.disk.files, record.items[i].plan.files[j], Issued);
  }

  lemma AfterMoveNotStuck(start: World, w: World, record: Record, i: nat, j: nat)
    requires InvOf(start, w, record) && w.journal == Some(record) && FileIssued(record, i, j) && j < |record.items[i].plan.files|
    requires record.items[i].plan.files[j].source !in w.disk.files
    ensures !Stuck(w)
  {
    hide InvOf, Stuck;
    InvPrefix(start, w, record);
    IssuedMovedNotStuck(w, record, i, j);
  }

  lemma AfterMakeNotStuck(start: World, w: World, record: Record, i: nat)
    requires InvOf(start, w, record) && w.journal == Some(record) && i < |record.items| && record.items[i].pending.Some?
    requires record.items[i].pending.value in w.disk.dirs
    ensures !Stuck(w)
  {
    hide InvOf, Stuck;
    InvPrefix(start, w, record);
    PendingMadeNotStuck(w, record, i);
  }

  lemma AfterFileNotStuck(start: World, w: World, record: Record, w': World, record': Record, i: nat, j: nat)
    requires InvOf(start, w, record) && i < |record.items| && j < |record.items[i].states| && record.items[i].states[j] == Issued
    requires record' == WithItem(record, i, FileSet(record.items[i], j, Completed)) && w'.journal == Some(record')
    ensures !Stuck(w')
  {
    hide InvOf, Stuck, NothingOpen;
    InvPrefix(start, w, record);
    ClosedFile(record, i, j);
    NothingOpenNotStuck(w', record');
  }

  lemma RelocatedNotStuck(start: World, w: World, record: Record)
    requires InvOf(start, w, record) && w.journal == Some(record) && WellFormed(record) && RelocationDone(record)
    ensures !Stuck(w)
  {
    hide InvOf, Stuck, NothingOpen, AllDone;
    InvPrefix(start, w, record);
    if record.items == [] {
      NoItemsNothingOpen(record);
    } else {
      AllDoneOpensNothing(record);
    }
    NothingOpenNotStuck(w, record);
  }

  lemma NoItemsNothingOpen(record: Record)
    requires record.items == [] && Prefix(record)
    ensures NothingOpen(record) && record.policyState == NotStarted
  {
  }

  lemma ReplacedNotStuck(w: World, record: Record)
    requires w.journal == Some(record) && WellFormed(record) && AllDone(record) && w.disk.policy == record.policy.target
    ensures !Stuck(w)
  {
    hide Stuck, NothingOpen, AllDone;
    AllDoneOpensNothing(record);
    NothingOpenNotStuck(w, record);
  }

  lemma SettledIsRelocated(start: World, w: World, record: Record)
    requires InvOf(start, w, record)
    ensures WellFormed(record)
    ensures record.progress != Intent ==> RelocationDone(record)
  {
    InvPrefix(start, w, record);
    hide InvOf;
    ItemsShaped(record.items);
    if record.progress != Intent && record.items != [] {
      AllWholeDone(record);
    }
  }

  lemma PolicyFacts(start: World, w: World, record: Record)
    requires InvOf(start, w, record) && w.journal == Some(record) && w.session == Up(Idle) && record.items != [] && !Stuck(w)
    ensures record.policyState == NotStarted ==> w.disk.policy == record.policy.before
    ensures record.policyState != NotStarted ==> w.disk.policy == record.policy.target
  {
    hide Prefix, FilesInv, DirsInv, ConfigInv, ReceiptInv, FrameInv, DirFrameInv, DirectoryLost, FileLost;
  }

  lemma ReplacingIsEnabled(start: World, w: World, record: Record)
    requires InvOf(start, w, record) && w.session == Up(Replacing)
    ensures Enabled(w, record, ReplacePolicy)
  {
    hide Prefix, FilesInv, DirsInv, ConfigInv, ReceiptInv, FrameInv, DirFrameInv, PolicyInv;
  }

  lemma OutputFacts(start: World, w: World, record: Record)
    requires InvOf(start, w, record)
    ensures w.disk.config == record.config.before || w.disk.config == record.config.target
    ensures record.progress != Intent ==> w.disk.config == record.config.target
    ensures ReceiptIs(w.disk, record, false) || ReceiptIs(w.disk, record, true)
    ensures record.progress == ReceiptApplied || record.progress == Complete ==> ReceiptIs(w.disk, record, true)
  {
    hide Prefix, FilesInv, DirsInv, FrameInv, DirFrameInv, PolicyInv, SessionInv, Settled;
  }

  lemma CompleteRelocates(start: World, history: seq<World>, labels: seq<Label>)
    requires BaseRun(start, history, labels) && Published(start) && history[|labels|].journal.None?
    ensures history[|labels|].archive.Some? && Relocated(start.disk, history[|labels|].archive.value, history[|labels|].disk)
    ensures start.journal.Some? && SameOperation(start.journal.value, history[|labels|].archive.value)
  {
    hide InvOf, Base;
    RunKeepsInv(start, history, labels, |labels|);
    PublishedUntouched(start);
    PublishedBase(start);
    CompleteIsRelocated(start, history[|labels|], history[|labels|].archive.value);
    InvSame(start, history[|labels|], history[|labels|].archive.value);
  }

  lemma PublishedBase(start: World)
    requires Published(start)
    ensures InvOf(start, start, start.journal.value)
  {
    hide InvOf, Published;
    PublishedInv(start);
    PublishedUntouched(start);
  }

  /** The j-th file of the i-th item was moved, and nothing else happened to the disk. */
  predicate MovedOn(before: Disk, after: Disk, record: Record, i: nat, j: nat) {
    && i < |record.items| && j < |record.items[i].plan.files| && record.items[i].plan.files[j].source in before.files
    && after == Moved(before, record.items[i].plan.files[j])
  }

  class Repository {
    var journal: Option<Record>
    var archive: Option<Record>
    var disk: Disk
    var session: Session
    /** Whether the process is spared: then it is never cut short. */
    var spared: bool
    ghost var history: seq<World>
    ghost var labels: seq<Label>
    ghost const start: World

    function State(): World
      reads this
    {
      World(journal, archive, disk, session)
    }

    ghost predicate Running()
      reads this
    {
      Published(start) && |history| == |labels| + 1 && BaseRun(start, history, labels) && history[|labels|] == State()
    }

    constructor (world: World)
      requires Published(world)
      ensures Running() && State() == world && start == world && history == [world]
    {
      journal, archive, disk, session := world.journal, world.archive, world.disk, world.session;
      spared := false;
      history, labels, start := [world], [], world;
      hide Published, Base, Inv;
      Grounded([world], []);
    }

    ghost predicate Owns(record: Record)
      reads this
    {
      Running() && journal == Some(record) && session == Up(Idle)
    }

    /** How a process that stopped leaves things. */
    ghost predicate Lost()
      reads this
    {
      Running() && !spared && session.Down?
    }

    ghost method Log(before: World, l: Label)
      requires Published(start) && |history| == |labels| + 1 && BaseRun(start, history, labels)
      requires history[|labels|] == before && Step(before, l, State())
      modifies this`history, this`labels
      ensures Running() && history == old(history) + [State()]
    {
      hide BaseRun, Published, Step;
      RunGrows(start, history, labels, l, State());
      history, labels := history + [State()], labels + [l];
    }

    lemma Here()
      requires Running()
      ensures Base(start) && Inv(start, State()) && (journal.Some? ==> InvOf(start, State(), journal.value))
    {
      hide Base, InvOf, Published;
      RunKeepsInv(start, history, labels, |labels|);
    }

    method Stop()
      requires Running() && journal.Some?
      modifies this
      ensures Running() && State() == old(State()).(session := Down)
      ensures old(history) <= history && spared == old(spared)
    {
      hide BaseRun, Published;
      ghost var before := State();
      session := Down;
      Log(before, Crash);
    }

    method Interrupted() returns (stopped: bool)
      requires Running() && journal.Some?
      modifies this
      ensures Running() && (spared ==> !stopped)
      ensures State() == if stopped then old(State()).(session := Down) else old(State())
      ensures old(history) <= history && spared == old(spared)
    {
      stopped := *;
      if spared {
        stopped := false;
      }
      if stopped {
        Stop();
      }
    }

    lemma StepIsAccepted(owner: Record, candidate: Record, act: Act, l: Label)
      requires Owns(owner) && Enabled(State(), owner, l) && Next(State(), owner, l) == Journaled(State(), candidate, act)
      ensures Step(State(), l, Journaled(State(), candidate, act)) && FrozenRecord(candidate)
    {
      hide BaseRun, Published, Enabled, Next, InvOf, FrozenRecord;
      Here();
      NextImageIsAccepted(start, State(), l, Journaled(State(), candidate, act));
    }

    lemma ObservedUnlessStuck(owner: Record)
      requires Owns(owner)
      ensures !Stuck(State()) ==> Observed(disk, owner)
    {
      hide BaseRun, Published, Observed, InvOf, Stuck;
      Here();
      if !Stuck(State()) {
        NotStuckIsObserved(start, State(), owner);
      }
    }

    /** Revalidates, then replaces the journal if it still holds exactly the owned record. A write that
        moves the relocation on must be a valid frozen relocation first; it always is. */
    method ReplaceJournal(owner: Record, candidate: Record, act: Act, l: Label) returns (r: Outcome<Record>)
      requires Owns(owner)
      requires Observed(disk, owner) ==> Enabled(State(), owner, l) && Next(State(), owner, l) == Journaled(State(), candidate, act)
      modifies this
      ensures old(history) <= history && spared == old(spared)
      ensures r.Refused? ==> Owns(owner) && State() == old(State()) && !Observed(disk, owner)
      ensures r.Crashed? ==> Lost()
      ensures r.Done? ==> Running() && r.value == candidate && State() == Journaled(old(State()), candidate, act)
      ensures !old(Stuck(State())) ==> !r.Refused?
    {
      hide BaseRun, Published, Enabled, Next, Step, Observed, InvOf, Stuck, FrozenRecord;
      ObservedUnlessStuck(owner);
      var stopped := Interrupted();
      if stopped { return Crashed; }
      if !Observed(disk, owner) { return Refused; }
      ghost var before := State();
      StepIsAccepted(owner, candidate, act, l);
      if candidate.progress == owner.progress {
        var accepted := Validate(candidate);
        if !accepted { return Refused; }
      }
      if journal != Some(owner) { return Refused; }
      journal, session := Some(candidate), Up(act);
      Log(before, l);
      return Done(candidate);
    }

    method MakeDirectory(record: Record, i: nat, path: string) returns (r: Outcome<()>)
      requires Running() && journal == Some(record) && session == Up(Making(i, path))
      modifies this
      ensures old(history) <= history && spared == old(spared) && !r.Refused?
      ensures r.Crashed? ==> Lost()
      ensures r.Done? ==> Owns(record) && path in disk.dirs
    {
      hide BaseRun, Published;
      var stopped := Interrupted();
      if stopped { return Crashed; }
      ghost var before := State();
      var identity: Identity := *;
      if path !in disk.dirs {
        disk := disk.(dirs := disk.dirs[path := identity]);
      }
      session := Up(Idle);
      Log(before, RelocationMachine.MakeDirectory(i, identity));
      return Done(());
    }

    /** Records the pending directory of an item, which has been made. */
    method RecordDirectory(record: Record, i: nat) returns (r: Outcome<Record>)
      requires Owns(record) && WellFormed(record) && i < |record.items| && DoneBefore(record, i) && record.items[i].pending.Some?
      modifies this
      ensures old(history) <= history && spared == old(spared) && (!old(Stuck(State())) ==> !r.Refused?)
      ensures r.Crashed? ==> Lost()
      ensures r.Refused? ==> Running() && journal.Some?
      ensures r.Done? ==> Owns(r.value) && !Stuck(State()) && |r.value.items| == |record.items| && r.value == WithItem(record, i, r.value.items[i])
      ensures r.Done? ==> exists identity :: r.value.items[i] == WithMade(record.items[i], identity)
    {
      hide BaseRun, Published, Observed, Stuck, InvOf, DoneBefore, DirectoryPending;
      Here();
      if record.items[i].pending.value !in disk.dirs {
        PendingMissing(State(), record, i);
        return Refused;
      }
      var identity := disk.dirs[record.items[i].pending.value];
      r := ReplaceJournal(record, WithItem(record, i, WithMade(record.items[i], identity)), Idle, RelocationMachine.RecordDirectory(i));
      if r.Done? {
        ClosedHere(start, old(State()), record, i, identity);
        NothingOpenNotStuck(State(), r.value);
      }
    }

    lemma PendingMissing(w: World, record: Record, i: nat)
      requires w.journal == Some(record) && w.session == Up(Idle) && i < |record.items| && record.items[i].pending.Some?
      requires record.items[i].pending.value !in w.disk.dirs
      ensures Stuck(w)
    {
      assert DirectoryPending(record, i);
    }

    lemma ClosedHere(start: World, w: World, record: Record, i: nat, identity: Identity)
      requires InvOf(start, w, record) && i < |record.items| && record.items[i].pending.Some?
      ensures NothingOpen(WithItem(record, i, WithMade(record.items[i], identity))) && record.policyState == NotStarted
    {
      hide InvOf, NothingOpen;
      InvPrefix(start, w, record);
      ClosedDirectory(record, i, identity);
    }

    /** One target directory: pending in the journal, then made, then recorded. */
    method AddDirectory(record: Record, i: nat, d: nat) returns (r: Outcome<Record>)
      requires Owns(record) && WellFormed(record) && i < |record.items| && DoneBefore(record, i) && record.items[i].pending.None?
      requires d < |TargetPaths(record.items[i].plan)| && !Recorded(record.items[i], TargetPaths(record.items[i].plan)[d])
      requires forall e :: 0 <= e < d ==> Recorded(record.items[i], TargetPaths(record.items[i].plan)[e])
      modifies this
      ensures old(history) <= history && spared == old(spared) && (!old(Stuck(State())) ==> !r.Refused?)
      ensures r.Crashed? ==> Lost()
      ensures r.Refused? ==> Running() && journal.Some?
      ensures r.Done? ==> Owns(r.value) && !Stuck(State()) && SameButItem(record, r.value, i)
      ensures r.Done? ==> exists identity :: r.value.items[i] == WithMade(Pended(record.items[i], TargetPaths(record.items[i].plan)[d]), identity)
    {
      hide BaseRun, Published, Observed, Stuck, InvOf, DoneBefore, ItemDone;
      var path := TargetPaths(record.items[i].plan)[d];
      var next := WithItem(record, i, Pended(record.items[i], path));
      var pended :- ReplaceJournal(record, next, Making(i, path), PendDirectory(i, d));
      SameButItemKeeps(record, pended, i);
      var _ :- MakeDirectory(pended, i, path);
      Here();
      AfterMakeNotStuck(start, State(), pended, i);
      r := RecordDirectory(pended, i);
    }

    method MoveFile(record: Record, i: nat, j: nat) returns (r: Outcome<()>)
      requires Running() && journal == Some(record) && session == Up(Moving(i, j))
      modifies this
      ensures old(history) <= history && spared == old(spared) && !r.Refused?
      ensures r.Crashed? ==> Lost()
      ensures r.Done? ==> Owns(record) && !Stuck(State()) && MovedOn(old(disk), disk, record, i, j)
    {
      hide BaseRun, Published, InvOf, Enabled, Stuck;
      Here();
      MovingIsEnabled(start, State(), record, i, j);
      var stopped := Interrupted();
      if stopped { return Crashed; }
      ghost var before := State();
      var f := record.items[i].plan.files[j];
      MoveIsPossible(before, record, i, j);
      disk := Moved(disk, f);
      session := Up(Idle);
      Log(before, RelocationMachine.MoveFile(i, j));
      Here();
      AfterMoveNotStuck(start, State(), record, i, j);
      return Done(());
    }

    lemma MoveIsPossible(w: World, record: Record, i: nat, j: nat)
      requires Enabled(w, record, RelocationMachine.MoveFile(i, j))
      ensures i < |record.items| && j < |record.items[i].plan.files|
      ensures record.items[i].plan.files[j].source in w.disk.files && record.items[i].plan.files[j].destination !in w.disk.files
    {
    }

    /** One file: issued and moved if that was not done yet, then completed. An issued one is never moved again. */
    method RelocateFile(record: Record, i: nat, j: nat) returns (r: Outcome<Record>)
      requires Owns(record) && WellFormed(record) && i < |record.items| && DoneBefore(record, i) && DirectoriesDone(record.items[i])
      requires j < |record.items[i].states| && forall e :: 0 <= e < j ==> record.items[i].states[e] == Completed
      modifies this
      ensures old(history) <= history && spared == old(spared) && (!old(Stuck(State())) ==> !r.Refused?)
      ensures r.Crashed? ==> Lost()
      ensures r.Refused? ==> Running() && journal.Some?
      ensures r.Done? ==> Owns(r.value) && (!old(Stuck(State())) ==> !Stuck(State())) && SameButItem(record, r.value, i)
      ensures r.Done? ==> r.value.items[i] == FileSet(record.items[i], j, Completed)
      ensures r.Done? ==> if record.items[i].states[j] == NotStarted then MovedOn(old(disk), disk, r.value, i, j) else disk == old(disk)
    {
      hide BaseRun, Published, Observed, Stuck, InvOf, DoneBefore, ItemDone, DirectoriesDone;
      if record.items[i].states[j] == Completed {
        return Done(record);
      }
      var current := record;
      if record.items[i].states[j] == NotStarted {
        current :- ReplaceJournal(record, WithItem(record, i, FileSet(record.items[i], j, Issued)), Moving(i, j), IssueFile(i, j));
        SameButItemKeeps(record, current, i);
        SameDirectories(record.items[i], current.items[i]);
        var _ :- MoveFile(current, i, j);
      }
      Here();
      ghost var before := State();
      r := ReplaceJournal(current, WithItem(current, i, FileSet(current.items[i], j, Completed)), Idle, CompleteFile(i, j));
      if r.Done? {
        AfterFileNotStuck(start, before, current, State(), r.value, i, j);
      }
    }

    lemma SameDirectories(a: Item, b: Item)
      requires Shaped(a) && Shaped(b) && a.plan == b.plan && a.made == b.made && a.pending == b.pending && DirectoriesDone(a)
      ensures DirectoriesDone(b)
    {
      assert forall path :: Recorded(a, path) ==> Recorded(b, path);
    }

    /** The target directories of one item that are not there yet, parents first. */
    method MakeDirectories(record: Record, i: nat) returns (r: Outcome<Record>)
      requires Owns(record) && WellFormed(record) && i < |record.items| && DoneBefore(record, i)
      modifies this
      ensures old(history) <= history && spared == old(spared) && (!old(Stuck(State())) ==> !r.Refused?)
      ensures r.Crashed? ==> Lost()
      ensures r.Refused? ==> Running() && journal.Some?
      ensures r.Done? ==> Owns(r.value) && (!old(Stuck(State())) ==> !Stuck(State()))
      ensures r.Done? ==> SameButItem(record, r.value, i) && WellFormed(r.value) && DirectoriesDone(r.value.items[i])
    {
      hide BaseRun, Published, Observed, Stuck, InvOf, DoneBefore, ItemDone, Running, TargetPaths, Recorded;
      var current := record;
      if record.items[i].pending.Some? {
        current :- RecordDirectory(record, i);
        SameButItemKeeps(record, current, i);
      }
      var paths := TargetPaths(record.items[i].plan);
      for d := 0 to |paths|
        invariant Owns(current) && (!old(Stuck(State())) ==> !Stuck(State())) && old(history) <= history && spared == old(spared)
        invariant SameButItem(record, current, i) && WellFormed(current) && DoneBefore(current, i) && current.items[i].pending.None?
        invariant forall e :: 0 <= e < d ==> Recorded(current.items[i], paths[e])
      {
        if !Recorded(current.items[i], paths[d]) {
          ghost var previous := current;
          current :- AddDirectory(current, i, d);
          ghost var identity :| current.items[i] == WithMade(Pended(previous.items[i], paths[d]), identity);
          SameButItemKeeps(previous, current, i);
          SameButItemTwice(record, previous, current, i);
          forall e | 0 <= e <= d ensures Recorded(current.items[i], paths[e]) {
            PendedRecords(previous.items[i], paths[d], paths[e]);
            RecordedStays(Pended(previous.items[i], paths[d]), identity, paths[e]);
          }
        }
      }
      return Done(current);
    }

    lemma PendedRecords(item: Item, pending: string, path: string)
      ensures Recorded(Pended(item, pending), path) <==> Recorded(item, path)
    {
    }

    /** One item of the inventory: its directories, then its files. */
    method RelocateItem(record: Record, i: nat) returns (r: Outcome<Record>)
      requires Owns(record) && WellFormed(record) && i < |record.items| && DoneBefore(record, i)
      modifies this
      ensures old(history) <= history && spared == old(spared) && (!old(Stuck(State())) ==> !r.Refused?)
      ensures r.Crashed? ==> Lost()
      ensures r.Refused? ==> Running() && journal.Some?
      ensures r.Done? ==> Owns(r.value) && (!old(Stuck(State())) ==> !Stuck(State()))
      ensures r.Done? ==> |r.value.items| == |record.items| && WellFormed(r.value) && DoneBefore(r.value, i + 1)
    {
      hide BaseRun, Published, Observed, Stuck, InvOf, DoneBefore, ItemDone, Running, TargetPaths, Recorded, DirectoriesDone;
      var current :- MakeDirectories(record, i);
      SameButItemKeeps(record, current, i);
      var n := |current.items[i].states|;
      for j := 0 to n
        invariant Owns(current) && (!old(Stuck(State())) ==> !Stuck(State())) && old(history) <= history && spared == old(spared)
        invariant |current.items| == |record.items| && |current.items[i].states| == n
        invariant WellFormed(current) && DoneBefore(current, i) && DirectoriesDone(current.items[i])
        invariant forall e :: 0 <= e < j ==> current.items[i].states[e] == Completed
      {
        ghost var previous := current;
        current :- RelocateFile(current, i, j);
        SameButItemKeeps(previous, current, i);
        SameDirectories(previous.items[i], current.items[i]);
      }
      ItemIsDone(current.items[i]);
      DoneUpTo(current, i);
      return Done(current);
    }

    lemma ItemIsDone(item: Item)
      requires Shaped(item) && DirectoriesDone(item) && FilesDone(item)
      ensures ItemDone(item)
    {
    }

    method ReplacePolicy(record: Record) returns (r: Outcome<()>)
      requires Running() && journal == Some(record) && session == Up(Replacing)
      modifies this
      ensures old(history) <= history && spared == old(spared) && !r.Refused?
      ensures r.Crashed? ==> Lost()
      ensures r.Done? ==> Owns(record) && disk.policy == record.policy.target
    {
      hide BaseRun, Published, InvOf;
      Here();
      ReplacingIsEnabled(start, State(), record);
      var stopped := Interrupted();
      if stopped { return Crashed; }
      ghost var before := State();
      disk := disk.(policy := record.policy.target);
      session := Up(Idle);
      Log(before, RelocationMachine.ReplacePolicy);
      return Done(());
    }

    /** The documentation policy, once every file is relocated: replaced if it has to change, then completed. */
    method SettlePolicy(record: Record) returns (r: Outcome<Record>)
      requires Owns(record) && WellFormed(record) && AllDone(record) && record.items != []
      modifies this
      ensures old(history) <= history && spared == old(spared) && (!old(Stuck(State())) ==> !r.Refused?)
      ensures r.Crashed? ==> Lost()
      ensures r.Refused? ==> Running() && journal.Some?
      ensures r.Done? ==> Owns(r.value) && WellFormed(r.value) && RelocationDone(r.value)
    {
      hide BaseRun, Published, Observed, Stuck, InvOf, AllDone;
      Here();
      if !Stuck(State()) {
        PolicyFacts(start, State(), record);
      }
      var current := record;
      if record.policyState == NotStarted && record.policy.before != record.policy.target {
        current :- ReplaceJournal(record, record.(policyState := Issued), Replacing, IssuePolicy);
        SameItemsDone(record, current);
        var _ :- ReplacePolicy(current);
        ReplacedNotStuck(State(), current);
      }
      if disk.policy != current.policy.target { return Refused; }
      if current.policyState != Completed {
        ghost var previous := current;
        current :- ReplaceJournal(current, current.(policyState := Completed), Idle, CompletePolicy);
        SameItemsDone(previous, current);
      }
      return Done(current);
    }

    lemma SameItemsDone(a: Record, b: Record)
      requires WellFormed(a) && AllDone(a) && b.items == a.items
      ensures WellFormed(b) && AllDone(b)
    {
    }

    /** The relocation, if there is one. */
    method Relocate(record: Record) returns (r: Outcome<Record>)
      requires Owns(record) && WellFormed(record)
      modifies this
      ensures old(history) <= history && spared == old(spared) && (!old(Stuck(State())) ==> !r.Refused?)
      ensures r.Crashed? ==> Lost()
      ensures r.Refused? ==> Running() && journal.Some?
      ensures r.Done? ==> Owns(r.value) && WellFormed(r.value) && RelocationDone(r.value)
    {
      hide BaseRun, Published, Observed, Stuck, InvOf, DoneBefore, Running;
      if record.items == [] {
        return Done(record);
      }
      var current, n := record, |record.items|;
      assert DoneBefore(current, 0) by { NoneBefore(current); }
      for i := 0 to n
        invariant Owns(current) && (!old(Stuck(State())) ==> !Stuck(State())) && old(history) <= history && spared == old(spared)
        invariant |current.items| == n && WellFormed(current) && DoneBefore(current, i)
      {
        current :- RelocateItem(current, i);
      }
      r := SettlePolicy(current);
    }

    lemma NoneBefore(record: Record)
      requires WellFormed(record)
      ensures DoneBefore(record, 0)
    {
    }

    method ReplaceConfig(record: Record) returns (r: Outcome<()>)
      requires Owns(record) && WellFormed(record) && RelocationDone(record)
      modifies this
      ensures old(history) <= history && spared == old(spared) && !r.Refused?
      ensures r.Crashed? ==> Lost()
      ensures r.Done? ==> Owns(record) && disk == old(disk).(config := record.config.target)
    {
      hide BaseRun, Published, Observed, Stuck, InvOf, AllDone;
      Here();
      RelocatedNotStuck(start, State(), record);
      NotStuckIsObserved(start, State(), record);
      OutputFacts(start, State(), record);
      var stopped := Interrupted();
      if stopped { return Crashed; }
      if !Observed(disk, record) { return Refused; }
      if record.progress == Intent && disk.config == record.config.before && disk.config != record.config.target {
        ghost var before := State();
        disk := disk.(config := record.config.target);
        Log(before, RelocationMachine.ReplaceConfig);
      }
      return Done(());
    }

    method ReplaceReceipt(record: Record) returns (r: Outcome<()>)
      requires Owns(record) && WellFormed(record) && RelocationDone(record) && record.progress == ConfigApplied
      modifies this
      ensures old(history) <= history && spared == old(spared) && !r.Refused?
      ensures r.Crashed? ==> Lost()
      ensures r.Done? ==> Owns(record) && ReceiptIs(disk, record, true) && disk == old(disk).(receipt := disk.receipt)
    {
      hide BaseRun, Published, Observed, Stuck, InvOf, AllDone;
      Here();
      RelocatedNotStuck(start, State(), record);
      NotStuckIsObserved(start, State(), record);
      OutputFacts(start, State(), record);
      var stopped := Interrupted();
      if stopped { return Crashed; }
      if !Observed(disk, record) { return Refused; }
      if record.receipt.Some? && ReceiptIs(disk, record, false) && !ReceiptIs(disk, record, true) {
        ghost var before := State();
        disk := disk.(receipt := Some(record.receipt.value.target));
        Log(before, RelocationMachine.ReplaceReceipt);
      }
      return Done(());
    }

    /** Advances the progress of the journal by one, when the outputs it is about to claim are there. */
    method Advance(record: Record, progress: Progress) returns (r: Outcome<Record>)
      requires Owns(record) && WellFormed(record) && RelocationDone(record)
      requires disk.config == record.config.target && (progress != ConfigApplied ==> ReceiptIs(disk, record, true))
      requires (record.progress, progress) in {(Intent, ConfigApplied), (ConfigApplied, ReceiptApplied), (ReceiptApplied, Complete)}
      modifies this
      ensures old(history) <= history && spared == old(spared) && !r.Refused?
      ensures r.Crashed? ==> Lost()
      ensures r.Done? ==> Owns(r.value) && r.value == record.(progress := progress) && WellFormed(r.value) && RelocationDone(r.value)
      ensures r.Done? ==> disk == old(disk)
    {
      hide BaseRun, Published, Observed, Stuck, InvOf, AllDone, ReceiptIs;
      Here();
      RelocatedNotStuck(start, State(), record);
      var l := match progress case Intent => Start case ConfigApplied => ApplyConfig case ReceiptApplied => ApplyReceipt case Complete => Finish;
      r := ReplaceJournal(record, record.(progress := progress), Idle, l);
      if r.Done? && record.items != [] {
        SameItemsDone(record, r.value);
      }
    }

    /** Configuration, then receipt, each replaced before the journal says so. */
    method ApplyOutputs(record: Record) returns (r: Outcome<Record>)
      requires Owns(record) && WellFormed(record) && RelocationDone(record)
      modifies this
      ensures old(history) <= history && spared == old(spared) && !r.Refused?
      ensures r.Crashed? ==> Lost()
      ensures r.Done? ==> Owns(r.value) && WellFormed(r.value) && RelocationDone(r.value) && r.value == record.(progress := Complete)
      ensures r.Done? ==> ReceiptIs(disk, record, true) && disk == old(disk).(config := record.config.target, receipt := disk.receipt)
    {
      hide BaseRun, Published, Observed, Stuck, InvOf, AllDone, ReceiptIs, Running, WellFormed, RelocationDone;
      var current := record;
      var _ :- ReplaceConfig(current);
      if current.progress == Intent {
        current :- Advance(current, ConfigApplied);
      }
      if current.progress == ConfigApplied {
        var _ :- ReplaceReceipt(current);
        Here();
        OutputFacts(start, State(), current);
        current :- Advance(current, ReceiptApplied);
      }
      if current.progress == ReceiptApplied {
        Here();
        OutputFacts(start, State(), current);
        current :- Advance(current, Complete);
      }
      Here();
      OutputFacts(start, State(), current);
      SameReceipt(disk, current, record);
      return Done(current);
    }

    lemma SameReceipt(disk: Disk, a: Record, b: Record)
      requires a.receipt == b.receipt && ReceiptIs(disk, a, true)
      ensures ReceiptIs(disk, b, true)
    {
    }

    method ArchiveJournal(record: Record) returns (r: Outcome<()>)
      requires Owns(record) && WellFormed(record) && RelocationDone(record) && record.progress == Complete
      modifies this
      ensures old(history) <= history && spared == old(spared) && !r.Refused?
      ensures r.Crashed? ==> Lost()
      ensures r.Done? ==> Running() && session.Down? && journal.None? && archive == Some(record)
    {
      hide BaseRun, Published, Observed, Stuck, InvOf, AllDone;
      Here();
      RelocatedNotStuck(start, State(), record);
      NotStuckIsObserved(start, State(), record);
      var stopped := Interrupted();
      if stopped { return Crashed; }
      if !Observed(disk, record) || archive.Some? { return Refused; }
      ghost var before := State();
      journal, archive, session := None, Some(record), Down;
      Log(before, RelocationMachine.Archive);
      return Done(());
    }

    method FinishOperation(record: Record) returns (r: Outcome<Record>)
      requires Owns(record) && WellFormed(record)
      modifies this
      ensures old(history) <= history && spared == old(spared) && (!old(Stuck(State())) ==> !r.Refused?)
      ensures r.Crashed? ==> Lost()
      ensures r.Refused? ==> Running() && journal.Some?
      ensures r.Done? ==> Running() && session.Down? && journal.None? && archive == Some(r.value)
    {
      hide BaseRun, Published, Observed, Stuck, InvOf, AllDone, RelocationDone, WellFormed;
      Here();
      SettledIsRelocated(start, State(), record);
      if record.progress != Intent && !RelocationDone(record) { return Refused; }
      var current :- Relocate(record);
      current :- ApplyOutputs(current);
      var _ :- ArchiveJournal(current);
      return Done(current);
    }

    method Begin()
      requires Running() && session.Down? && journal.Some?
      modifies this
      ensures Running() && State() == old(State()).(session := Up(Idle))
      ensures old(history) <= history && spared == old(spared)
    {
      hide BaseRun, Published;
      ghost var before := State();
      session := Up(Idle);
      Log(before, Start);
    }

    /** Resumes the operation wherever earlier processes left it. Unless this process is stopped itself, it
        gets the relocation finished and archived except exactly when an effect was lost: then it, like
        every process after it, writes nothing. An archived operation is only looked at. */
    method Resume(uninterrupted: bool) returns (r: Outcome<Record>)
      requires Running() && session.Down?
      modifies this
      ensures old(history) <= history && Running() && session.Down?
      ensures r.Done? ==> journal.None? && archive == Some(r.value) && Relocated(start.disk, r.value, disk)
      ensures r.Done? ==> start.journal.Some? && SameOperation(start.journal.value, r.value)
      ensures r.Crashed? ==> !uninterrupted
      ensures r.Refused? ==> old(Stuck(State()))
      ensures old(Stuck(State())) ==> !r.Done? && State() == old(State())
      ensures old(journal).None? ==> State() == old(State())
    {
      hide BaseRun, Published, Observed, Stuck, InvOf, Relocated, Base;
      spared := uninterrupted;
      Here();
      ghost var entered := |labels|;
      ghost var before := State();
      if journal.None? {
        NothingLost(before);
        CompleteRelocates(start, history, labels);
        return Done(archive.value);
      }
      SettledIsRelocated(start, before, journal.value);
      Begin();
      SameStuck(before, State());
      r := FinishOperation(journal.value);
      if r.Refused? {
        Stop();
      }
      if Stuck(before) {
        StuckFrom(start, history, labels, entered, |labels|);
        NothingLost(State());
      }
      if r.Done? {
        CompleteRelocates(start, history, labels);
      }
    }

    lemma NothingLost(w: World)
      ensures w.journal.None? ==> !Stuck(w)
    {
    }

    lemma SameStuck(w: World, w': World)
      requires w.session.Down? && w' == w.(session := Up(Idle))
      ensures Stuck(w) <==> Stuck(w')
    {
      if w.journal.Some? {
        LostStays(w, w', w.journal.value);
        LostStays(w', w, w.journal.value);
      }
    }
  }
}
