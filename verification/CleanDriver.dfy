/** The driver of clean initialization: the program itself, over a repository it changes in place.
    Any process may stop between any two of its writes; the ghost history records every write made by
    all of them, so that what CleanRuns promises of runs holds of what this program does. */
module CleanDriver {
  import opened Outcomes
  import opened Paths
  import opened CleanJournal
  import opened CleanMachine
  import opened CleanSafety
  import opened CleanRuns

  /** A baseline captured from a sealed, acceptable plan. */
  ghost predicate Reviewed(base: Baseline) {
    Sound(base) && PlanSound(ImmutablePlan(base.op)) && base.op.binding == Sealed(ImmutablePlan(base.op))
  }

  lemma StartsReviewed(start: World)
    requires Published(start)
    ensures Reviewed(BaselineOf(start)) && BaseRun(BaselineOf(start), [start], [])
  {
    Grounded([start], []);
  }

  lemma RunGrows(base: Baseline, history: seq<World>, labels: seq<Label>, l: Label, w: World)
    requires BaseRun(base, history, labels) && Step(history[|labels|], l, w)
    ensures BaseRun(base, history + [w], labels + [l])
  {
    hide Sound, Inv, Step;
    var trace, steps := history + [w], labels + [l];
    forall i | 0 <= i < |steps| ensures Step(trace[i], steps[i], trace[i + 1]) {
      if i < |labels| {
        assert Step(history[i], labels[i], history[i + 1]);
      }
    }
  }

  lemma SwapShape(w: World, op: Operation, l: Label)
    requires Enabled(w, op, l) && SwapsJournal(l)
    ensures Next(w, op, l).pending.Some?
    ensures Next(w, op, l) == w.(pending := Next(w, op, l).pending, session := match l case IssueContainer(path) => Up(Some(path)) case _ => Up(None))
  {
  }

  lemma SwapImageIsValid(base: Baseline, w: World, op: Operation, l: Label)
    requires Reviewed(base)
    requires InvOf(base, w, op) && w.pending == Some(op) && Enabled(w, op, l) && SwapsJournal(l)
    ensures Next(w, op, l).pending.Some? && Valid(Next(w, op, l).pending.value)
    ensures Next(w, op, l).pending.value.operationId == op.operationId && Next(w, op, l).pending.value.binding == op.binding
  {
    SamePlanSameUse(base.op, op);
    SwapKeepsInv(base, w, op, l);
    var op' := Next(w, op, l).pending.value;
    SealedImage(base.op, op');
    SamePlanFields(base.op, op);
    SamePlanFields(base.op, op');
  }

  // ---------------------------------------------------------------- the checks the driver's own invariants settle

  ghost predicate CompletedBefore(op: Operation, k: nat) {
    k <= |op.containers| && forall i :: 0 <= i < k ==> op.containers[i].state == Completed
  }

  /** The image after the k-th archive directory is done. */
  ghost predicate OneContainerCompleted(op: Operation, op': Operation, k: nat) {
    && op'.phase == Archiving && op'.moves == op.moves && |op'.containers| == |op.containers|
    && (forall i :: 0 <= i < |op.containers| && i != k ==> op'.containers[i] == op.containers[i])
    && (k < |op.containers| ==> op'.containers[k].state == Completed)
  }

  /** The container is in the journal with the identity it was made with. */
  predicate RecordedAs(op: Operation, k: nat, dirs: map<string, Identity>) {
    k < |op.containers| && op.containers[k].path in dirs && op.containers[k].identity == Some(dirs[op.containers[k].path])
  }

  /** At most the one directory was made. */
  predicate WithDirectory(before: map<string, Identity>, after: map<string, Identity>, path: string) {
    path in after && after == before[path := after[path]]
  }

  lemma {:induction false} ContainerFound(containers: seq<Container>, k: nat)
    requires k < |containers| && forall i :: 0 <= i < k ==> containers[i].path != containers[k].path
    ensures FindContainer(containers, containers[k].path) == Some(containers[k])
  {
    if k > 0 {
      ContainerFound(containers[1..], k - 1);
    }
  }

  lemma OwnedByCompletion(w: World, op: Operation, i: nat)
    requires DistinctContainers(op) && ContainersInv(w.dirs, op) && i < |op.containers| && op.containers[i].state == Completed
    ensures DirectoryOwned(w, op, op.containers[i].path)
  {
    ContainerFound(op.containers, i);
    assert ContainerInv(w.dirs, op.containers[i]);
  }

  lemma ParentReady(w: World, op0: Operation, op: Operation, k: nat)
    requires PlanSound(ImmutablePlan(op0)) && SamePlan(op0, op) && DistinctContainers(op) && ContainersInv(w.dirs, op)
    requires k < |op.containers| && CompletedBefore(op, k)
    ensures Dirname(op.containers[k].path) == ".agent" || DirectoryOwned(w, op, Dirname(op.containers[k].path))
  {
    var plan := ImmutablePlan(op);
    assert plan.containers[k] == op.containers[k].path;
    var i := ParentComesFirst(plan, k);
    if Dirname(op.containers[k].path) != ".agent" {
      assert plan.containers[i] == op.containers[i].path;
      OwnedByCompletion(w, op, i);
    }
  }

  lemma IssueContainerEnabled(base: Baseline, w: World, op: Operation, k: nat)
    requires Reviewed(base) && InvOf(base, w, op) && Usable(op) && w.session == Up(None) && op.phase == Archiving
    requires k < |op.containers| && op.containers[k].state == NotStarted && CompletedBefore(op, k)
    ensures var path := op.containers[k].path;
            && Enabled(w, op, IssueContainer(path))
            && Next(w, op, IssueContainer(path)) == Journaled(w, WithContainerState(op, path, Issued, None)).(session := Up(Some(path)))
            && (path in w.dirs ==> path == HISTORY_ROOT)
            && (Dirname(path) == ".agent" || DirectoryOwned(w, op, Dirname(path)))
  {
    ParentReady(w, base.op, op, k);
    ContainerFound(op.containers, k);
    assert ContainerInv(w.dirs, op.containers[k]);
  }

  lemma CompleteContainerEnabled(w: World, op: Operation, path: string)
    requires w.session == Up(Some(path)) && path in w.dirs
    ensures Enabled(w, op, CompleteContainer(path))
    ensures Next(w, op, CompleteContainer(path)) == Journaled(w, WithContainerState(op, path, Completed, Some(w.dirs[path]))).(session := Up(None))
  {
  }

  lemma ContainerDone(op: Operation, k: nat, identity: Identity)
    requires Usable(op) && k < |op.containers|
    ensures var path := op.containers[k].path;
            OneContainerCompleted(op, WithContainerState(WithContainerState(op, path, Issued, None), path, Completed, Some(identity)), k)
    ensures forall dirs: map<string, Identity> :: op.containers[k].path in dirs && dirs[op.containers[k].path] == identity ==>
              RecordedAs(WithContainerState(WithContainerState(op, op.containers[k].path, Issued, None), op.containers[k].path, Completed, Some(identity)), k, dirs)
  {
  }

  lemma ContainerFacts(base: Baseline, w: World, op: Operation, k: nat)
    requires InvOf(base, w, op) && w.session.Up? && k < |op.containers| && CompletedBefore(op, k)
    ensures op.containers[k].state == Completed ==>
              op.containers[k].identity.Some? && op.containers[k].path in w.dirs && w.dirs[op.containers[k].path] == op.containers[k].identity.value
    ensures op.containers[k].state != Completed ==> forall i :: k < i < |op.containers| ==> op.containers[i].state == NotStarted
  {
    assert ContainerInv(w.dirs, op.containers[k]);
  }

  ghost predicate MovesCompletedBefore(op: Operation, k: nat) {
    k <= |op.moves| && forall i :: 0 <= i < k ==> op.moves[i].state == Completed
  }

  /** The image after the k-th file is archived. */
  ghost predicate OneMoveCompleted(op: Operation, op': Operation, k: nat) {
    && op'.phase == op.phase && op'.containers == op.containers && |op'.moves| == |op.moves|
    && (forall i :: 0 <= i < |op.moves| && i != k ==> op'.moves[i] == op.moves[i])
    && (k < |op.moves| ==> op'.moves[k].state == Completed)
  }

  lemma {:induction false} MoveFound(moves: seq<Move>, k: nat)
    requires k < |moves| && forall i :: 0 <= i < k ==> moves[i].source != moves[k].source
    ensures FindMove(moves, moves[k].source) == Some(moves[k])
  {
    if k > 0 {
      MoveFound(moves[1..], k - 1);
    }
  }

  lemma MoveSet(op: Operation, k: nat, state: EffectState)
    requires Usable(op) && k < |op.moves|
    ensures var op' := WithMoveState(op, op.moves[k].source, state);
            && op' == op.(moves := op.moves[k := op.moves[k].(state := state)])
            && (state == Completed ==> OneMoveCompleted(op, op', k))
  {
  }

  lemma TargetReady(w: World, op0: Operation, op: Operation, k: nat)
    requires PlanSound(ImmutablePlan(op0)) && SamePlan(op0, op) && DistinctContainers(op) && ContainersInv(w.dirs, op)
    requires ContainersCompleted(op) && k < |op.moves|
    ensures DirectoryOwned(w, op, Dirname(op.moves[k].target))
  {
    var plan := ImmutablePlan(op);
    assert plan.moves[k].target == op.moves[k].target;
    TargetDirectoryIsOwned(plan, k);
    var i :| 0 <= i < |plan.containers| && plan.containers[i] == Dirname(op.moves[k].target);
    assert plan.containers[i] == op.containers[i].path && op.containers[i] in op.containers;
    OwnedByCompletion(w, op, i);
  }

  /** What the journal's order and custody say about the k-th file once the ones before it are archived. */
  ghost predicate MoveReady(w: World, op: Operation, m: Move) {
    var f := Find(op.inventory, m.source);
    && f.Some? && DirectoryOwned(w, op, Dirname(m.target)) && FindMove(op.moves, m.source) == Some(m)
    && (m.source in w.files ==> Holds(w.files, m.source, f.value) && m.target !in w.files && m.state != Completed)
    && (m.source !in w.files ==> m.target in w.files && Holds(w.files, m.target, f.value) && m.state != NotStarted)
  }

  lemma MoveIsReady(base: Baseline, w: World, op: Operation, k: nat)
    requires Reviewed(base) && InvOf(base, w, op) && Usable(op) && op.phase == Archiving
    requires k < |op.moves| && ContainersCompleted(op)
    ensures MoveReady(w, op, op.moves[k])
  {
    hide PlanSound, ImmutablePlan, Captured, DirectoryOwned, FrameInv, OutputsInv, ConfigInv, ProgressSound, ContainersInv, FenceInv;
    TargetReady(w, base.op, op, k);
    MoveFound(op.moves, k);
    assert Custody(w.files, op, op.moves[k]);
  }

  lemma ReadyIsEnabled(w: World, op: Operation, k: nat)
    requires Usable(op) && w.session == Up(None) && op.phase == Archiving
    requires k < |op.moves| && ContainersCompleted(op) && MovesCompletedBefore(op, k)
    requires MoveReady(w, op, op.moves[k])
    ensures var m := op.moves[k];
            && (m.state == NotStarted ==> Enabled(w, op, IssueMove(m.source)))
            && (m.state == Issued && m.source in w.files ==> Enabled(w, op, MoveFile(m.source)))
            && (m.state == Issued && m.source !in w.files ==> Enabled(w, op, CompleteMove(m.source)))
  {
  }

  lemma MoveFacts(base: Baseline, w: World, op: Operation, k: nat)
    requires Reviewed(base) && InvOf(base, w, op) && Usable(op) && w.session == Up(None) && op.phase == Archiving
    requires k < |op.moves| && ContainersCompleted(op) && MovesCompletedBefore(op, k)
    ensures var m := op.moves[k];
            && MoveReady(w, op, m)
            && (m.state == NotStarted ==> Enabled(w, op, IssueMove(m.source)))
            && (m.state == Issued && m.source in w.files ==> Enabled(w, op, MoveFile(m.source)))
            && (m.state == Issued && m.source !in w.files ==> Enabled(w, op, CompleteMove(m.source)))
  {
    hide Reviewed, InvOf, Enabled, MoveReady, Usable;
    MoveIsReady(base, w, op, k);
    ReadyIsEnabled(w, op, k);
  }

  lemma IntentIsUntouched(base: Baseline, w: World, op: Operation)
    requires InvOf(base, w, op) && op.phase == Intent
    ensures forall c :: c in op.containers ==> c.state == NotStarted
  {
  }

  lemma SameContainers(op: Operation, op': Operation)
    requires op.containers == op'.containers && ContainersCompleted(op)
    ensures ContainersCompleted(op')
  {
  }

  lemma AllArchived(op: Operation)
    requires ContainersCompleted(op) && MovesCompletedBefore(op, |op.moves|)
    ensures AllEffects(op, Completed)
  {
  }

  /** Right after archiving begins nothing is issued. */
  lemma NothingStarted(w: World, op: Operation)
    requires w.pending == Some(op) && forall c :: c in op.containers ==> c.state == NotStarted
    ensures !Stuck(w)
  {
    forall k | 0 <= k < |op.containers| ensures !StuckAt(w, k) {
      assert op.containers[k] in op.containers;
    }
  }

  // ---------------------------------------------------------------- initialization and the fence

  lemma PreparedFacts(base: Baseline, w: World, op: Operation)
    requires InvOf(base, w, op) && op.phase == Initializing
    ensures op.prepared.Some?
    ensures forall o :: o in op.prepared.value.outputs && o.path in w.files ==> w.files[o.path].content == o.content
  {
  }

  lemma CompletionEnabled(w: World, op: Operation)
    requires w.session == Up(None) && op.phase == Initializing && op.prepared.Some?
    requires OutputsPublished(w.files, op.prepared.value.outputs)
    ensures Enabled(w, op, CompleteInitialization)
  {
  }

  lemma InitializationEnabled(w: World, op: Operation, receipt: Prepared)
    requires w.session == Up(None) && op.phase == ArchiveComplete && FreshOutputs(w.files, op)
    requires RightOutputs(op, receipt.outputs)
    requires ProgressSound(op.(phase := Initializing, prepared := Some(receipt), initialization := Issued))
    ensures Enabled(w, op, IssueInitialization(receipt))
  {
  }

  /** What the initializer proposes: the captured identities, and exactly the outputs that are to be written. */
  predicate Acceptable(op: Operation, receipt: Prepared) {
    && receipt.rootIdentity == op.rootIdentity && receipt.bundleIdentity == op.runtime.bundleIdentity
    && receipt.resourceDigest == op.runtime.resourceDigest && |receipt.projectIdentities| == |op.request.projectMappings|
    && RightOutputs(op, receipt.outputs)
  }

  lemma IssuedIsAcceptable(base: Baseline, w: World, op: Operation, receipt: Prepared)
    requires InvOf(base, w, op) && RightOutputs(op, receipt.outputs)
    requires ProgressSound(op.(phase := Initializing, prepared := Some(receipt), initialization := Issued))
    ensures Acceptable(base.op, receipt)
  {
    hide ImmutablePlan, FrameInv, ConfigInv, ContainersInv, FenceInv, MovesInv;
    SamePlanFields(base.op, op);
  }

  /** Once the operation is complete every output of its receipt is there, byte for byte. */
  lemma CompleteOutputs(base: Baseline, w: World, op: Operation)
    requires InvOf(base, w, op) && op.phase == Complete
    ensures op.prepared.Some? && forall o :: o in op.prepared.value.outputs ==> o.path in w.files && w.files[o.path].content == o.content
  {
  }

  lemma AcceptableIsFresh(base: Baseline, w: World, op: Operation, receipt: Prepared)
    requires Reviewed(base) && InvOf(base, w, op) && op.phase == ArchiveComplete
    ensures FreshOutputs(w.files, op)
    ensures Acceptable(base.op, receipt) ==> ProgressSound(op.(phase := Initializing, prepared := Some(receipt), initialization := Issued))
    ensures Acceptable(base.op, receipt) ==> RightOutputs(op, receipt.outputs)
  {
    hide PlanSound, ImmutablePlan, Captured, FrameInv, ConfigInv, ContainersInv, FenceInv, MovesInv, FreshOutputs, RightOutputs;
    SamePlanFields(base.op, op);
    ArchivedIsFresh(base, w, op);
    SameRightOutputs(base.op, op, receipt.outputs);
  }

  lemma SameRightOutputs(a: Operation, b: Operation, outputs: seq<Output>)
    requires a.preserved == b.preserved
    ensures RightOutputs(a, outputs) <==> RightOutputs(b, outputs)
  {
    assert forall path :: ToWrite(a, path) <==> ToWrite(b, path);
  }

  lemma AttachGuard(base: Baseline, w: World, op: Operation)
    requires InvOf(base, w, op) && w.session.Down? && Captured(base)
    ensures match w.fence
            case Held(b) => b == base.binding
            case Released(b) => b == base.binding || (b.binding != op.binding && Pristine(op))
            case Free => Pristine(op)
  {
  }

  lemma CompletionFacts(base: Baseline, w: World, op: Operation)
    requires InvOf(base, w, op) && w.session.Up? && op.phase == Complete
    ensures op.prepared.Some? && OutputsPublished(w.files, op.prepared.value.outputs) && w.fence == Held(base.binding)
  {
  }

  lemma ReleasedFacts(base: Baseline, w: World, op: Operation)
    requires InvOf(base, w, op) && Reviewed(base)
    ensures w.fence == Released(base.binding) ==> op.phase == Complete
    ensures op.phase == Complete && w.fence.Released? ==> w.fence == Released(base.binding)
  {
  }

  lemma RetireFacts(base: Baseline, w: World, op: Operation)
    requires Reviewed(base) && InvOf(base, w, op) && w.fence.Released? && op.phase == Complete
    ensures op.prepared.Some? && OutputsPublished(w.files, op.prepared.value.outputs)
    ensures MaintenanceBinding(w, op).Some? && w.fence == Released(MaintenanceBinding(w, op).value)
    ensures DirectoryOwned(w, op, HistoryOf(op))
  {
    hide PlanSound, ImmutablePlan, Captured, MaintenanceBinding, DirectoryOwned;
    ConfigIsMoved(base);
    SamePlanSameSize(base.op, op);
    ReleasedUnderCaptured(base, w, op);
    CompleteContainers(op);
    SamePlanHistory(base.op, w, op);
  }

  lemma NotStuckOutsideArchiving(base: Baseline, w: World, op: Operation)
    requires InvOf(base, w, op) && w.pending == Some(op) && op.phase != Archiving
    ensures !Stuck(w)
  {
    forall k | 0 <= k < |op.containers| ensures !StuckAt(w, k) {
      assert op.containers[k] in op.containers;
    }
  }

  /** Attaching to the fence neither heals nor causes a container left issued. */
  lemma SameStuck(w: World, w': World)
    requires w.session.Down? && w'.session == Up(None) && w'.pending == w.pending
    ensures Stuck(w) <==> Stuck(w')
  {
    if w.pending.Some? {
      assert forall k :: 0 <= k < |w.pending.value.containers| ==> (StuckAt(w, k) <==> StuckAt(w', k));
    }
  }

  class Repository {
    var files: map<string, FileRecord>
    var dirs: map<string, Identity>
    var pending: Option<Operation>
    var retired: Option<Operation>
    var fence: Fence
    var session: Session
    ghost var history: seq<World>
    ghost var labels: seq<Label>
    ghost const base: Baseline
    /** Whether the process at work is spared: then it is never cut short. */
    var spared: bool

    function State(): World
      reads this
    {
      World(files, dirs, pending, retired, fence, session)
    }

    ghost predicate Running()
      reads this
    {
      && Reviewed(base)
      && |history| == |labels| + 1 && BaseRun(base, history, labels) && history[|labels|] == State()
    }

    constructor (start: World)
      requires Published(start)
      ensures Running() && State() == start && history == [start] && base == BaselineOf(start)
    {
      hide BaseRun, Reviewed, Published, BaselineOf;
      files, dirs, pending, retired, fence := start.files, start.dirs, start.pending, start.retired, start.fence;
      session, history, labels, base := start.session, [start], [], BaselineOf(start);
      spared := false;
      StartsReviewed(start);
    }

    /** Adds one write to the history. */
    ghost method Log(before: World, l: Label)
      requires Reviewed(base) && |history| == |labels| + 1 && BaseRun(base, history, labels)
      requires history[|labels|] == before && Step(before, l, State())
      modifies this`history, this`labels
      ensures Running() && history == old(history) + [State()] && labels == old(labels) + [l]
    {
      hide BaseRun, Reviewed, Step;
      RunGrows(base, history, labels, l, State());
      history, labels := history + [State()], labels + [l];
    }

    lemma Here()
      requires Running()
      ensures Reviewed(base) && Inv(base, State()) && (pending.Some? ==> Usable(pending.value))
    {
      RunKeepsInv(base, history, labels, |labels|);
      if pending.Some? {
        SamePlanSameUse(base.op, pending.value);
      }
    }

    /** The process goes away, leaving everything it wrote. */
    method Stop()
      requires Running() && pending.Some?
      modifies this
      ensures old(history) <= history && spared == old(spared)
      ensures Running() && State() == old(State()).(session := Down)
    {
      hide BaseRun, Reviewed;
      var before := State();
      session := Down;
      Log(before, Crash);
    }

    /** Decides whether the process stops right here. */
    method Interrupted() returns (stopped: bool)
      requires Running() && pending.Some?
      modifies this
      ensures old(history) <= history && spared == old(spared)
      ensures Running() && (spared ==> !stopped)
      ensures State() == if stopped then old(State()).(session := Down) else old(State())
    {
      stopped := *;
      if spared {
        stopped := false;
      }
      if stopped {
        Stop();
      }
    }

    /** Replaces the pending journal if it still holds exactly the owned image. */
    method CompareAndSwapPending(owner: Operation, candidate: Operation, l: Label) returns (r: Outcome<Operation>)
      requires Running() && pending.Some?
      requires pending == Some(owner) ==>
                 SwapsJournal(l) && Enabled(State(), owner, l) && Next(State(), owner, l).pending == Some(candidate)
      modifies this
      ensures old(history) <= history && spared == old(spared)
      ensures Running()
      ensures r.Refused? ==> old(pending) != Some(owner) && State() == old(State())
      ensures r.Crashed? ==> !spared && State() == old(State()).(session := Down)
      ensures r.Done? ==> old(pending) == Some(owner) && r.value == candidate && State() == Next(old(State()), owner, l)
    {
      hide BaseRun, Reviewed, Enabled, InvOf, Valid;
      var stopped := Interrupted();
      if stopped { return Crashed; }
      if pending != Some(owner) { return Refused; }
      Here();
      ghost var before := State();
      SwapImageIsValid(base, before, owner, l);
      SwapShape(before, owner, l);
      var valid := Validate(candidate);
      if !valid || candidate.operationId != owner.operationId || candidate.binding != owner.binding { return Refused; }
      pending := Some(candidate);
      session := match l case IssueContainer(path) => Up(Some(path)) case _ => Up(None);
      Log(before, l);
      return Done(candidate);
    }

    /** How a process that stopped leaves things: gone, with the journal in place. */
    ghost predicate Lost()
      reads this
    {
      Running() && !spared && session.Down? && pending.Some?
    }

    /** The process holds the fence and owns the pending image. */
    ghost predicate Owns(owner: Operation)
      reads this
    {
      Running() && pending == Some(owner) && session == Up(None)
    }

    method CreateDirectory(path: string) returns (r: Outcome<()>)
      requires Running() && pending.Some? && session == Up(Some(path)) && path !in dirs
      modifies this
      ensures old(history) <= history && spared == old(spared)
      ensures Running() && !r.Refused?
      ensures r.Crashed? ==> Lost()
      ensures r.Done? ==> path in dirs && State() == old(State()).(dirs := old(dirs)[path := dirs[path]])
    {
      hide BaseRun, Reviewed;
      var stopped := Interrupted();
      if stopped { return Crashed; }
      ghost var before := State();
      var identity: Identity := *;
      dirs := dirs[path := identity];
      Log(before, CleanMachine.CreateDirectory(path, identity));
      return Done(());
    }

    /** The identity of an issued directory, made unless it was there before. */
    method EnsureDirectory(path: string, preexisting: bool) returns (r: Outcome<Identity>)
      requires Running() && pending.Some? && session == Up(Some(path)) && (preexisting <==> path in dirs)
      modifies this
      ensures old(history) <= history && spared == old(spared)
      ensures Running() && !r.Refused?
      ensures r.Crashed? ==> Lost()
      ensures r.Done? ==> State() == old(State()).(dirs := dirs) && WithDirectory(old(dirs), dirs, path) && dirs[path] == r.value
    {
      hide BaseRun, Reviewed;
      if !preexisting {
        var _ :- CreateDirectory(path);
      }
      return Done(dirs[path]);
    }

    /** Creates one archive directory: issued in the journal, then made, then recorded. */
    method CreateContainer(owner: Operation, k: nat) returns (r: Outcome<Operation>)
      requires Owns(owner) && owner.phase == Archiving
      requires k < |owner.containers| && owner.containers[k].state == NotStarted && CompletedBefore(owner, k)
      modifies this
      ensures old(history) <= history && spared == old(spared)
      ensures !r.Refused?
      ensures r.Crashed? ==> Lost()
      ensures r.Done? ==> Owns(r.value) && OneContainerCompleted(owner, r.value, k)
      ensures r.Done? ==> RecordedAs(r.value, k, dirs) && files == old(files) && WithDirectory(old(dirs), dirs, owner.containers[k].path)
    {
      hide BaseRun, Reviewed, InvOf, Enabled, Published, Usable, DirectoryOwned, CompletedBefore, OneContainerCompleted, WithContainerState, RecordedAs, HISTORY_ROOT;
      var path := owner.containers[k].path;
      Here();
      IssueContainerEnabled(base, State(), owner, k);
      var preexisting := path == HISTORY_ROOT && path in dirs;
      if !preexisting && path in dirs { return Refused; }
      if Dirname(path) != ".agent" && !DirectoryOwned(State(), owner, Dirname(path)) { return Refused; }
      var issued :- CompareAndSwapPending(owner, WithContainerState(owner, path, Issued, None), IssueContainer(path));
      var identity :- EnsureDirectory(path, preexisting);
      CompleteContainerEnabled(State(), issued, path);
      ContainerDone(owner, k, identity);
      var completed :- CompareAndSwapPending(issued, WithContainerState(issued, path, Completed, Some(identity)), CompleteContainer(path));
      return Done(completed);
    }

    /** Creates the archive directories that are not there yet, parents first. */
    method CreateArchiveContainers(initial: Operation) returns (r: Outcome<Operation>)
      requires Owns(initial) && initial.phase == Archiving
      modifies this
      ensures old(history) <= history && spared == old(spared)
      ensures r.Refused? ==> State() == old(State()) && Running() && Stuck(State())
      ensures r.Crashed? ==> Lost()
      ensures r.Done? ==> Owns(r.value) && r.value.phase == Archiving && ContainersCompleted(r.value) && !Stuck(old(State()))
    {
      hide BaseRun, Reviewed, InvOf, Usable, DirectoryOwned, ContainersInv;
      var owner := initial;
      for k := 0 to |initial.containers|
        invariant old(history) <= history && spared == old(spared)
        invariant Owns(owner) && owner.phase == Archiving && |owner.containers| == |initial.containers|
        invariant CompletedBefore(owner, k)
        invariant State() == old(State()) || forall i :: k <= i < |owner.containers| ==> owner.containers[i].state == NotStarted
        invariant forall i :: k <= i < |owner.containers| ==> owner.containers[i] == initial.containers[i]
        invariant forall i :: 0 <= i < k ==> initial.containers[i].state != Issued
      {
        Here();
        ContainerFacts(base, State(), owner, k);
        var current := owner.containers[k];
        if current.state == Completed {
          if current.identity.None? || current.path !in dirs || dirs[current.path] != current.identity.value { return Refused; }
        } else if current.state != NotStarted {
          assert StuckAt(State(), k);
          return Refused;
        } else {
          owner :- CreateContainer(owner, k);
        }
      }
      assert forall i :: 0 <= i < |owner.containers| ==> owner.containers[i].state == Completed;
      return Done(owner);
    }

    /** moveNoReplace: the file leaves its source and appears at its target in one step. */
    method MoveFile(owner: Operation, source: string, target: string) returns (r: Outcome<()>)
      requires Owns(owner) && Enabled(State(), owner, CleanMachine.MoveFile(source))
      requires FindMove(owner.moves, source).Some? && FindMove(owner.moves, source).value.target == target && source in files
      modifies this
      ensures old(history) <= history && spared == old(spared)
      ensures !r.Refused?
      ensures r.Crashed? ==> Lost()
      ensures r.Done? ==> Owns(owner) && State() == old(State()).(files := old((files - {source})[target := files[source]]))
    {
      hide BaseRun, Reviewed, Enabled;
      var stopped := Interrupted();
      if stopped { return Crashed; }
      ghost var before := State();
      files := (files - {source})[target := files[source]];
      Log(before, CleanMachine.MoveFile(source));
      return Done(());
    }

    /** Archives one managed file, taking up whatever an earlier process left of it. */
    method ArchiveFile(owner: Operation, k: nat) returns (r: Outcome<Operation>)
      requires Owns(owner) && owner.phase == Archiving && ContainersCompleted(owner)
      requires k < |owner.moves| && MovesCompletedBefore(owner, k)
      modifies this
      ensures old(history) <= history && spared == old(spared)
      ensures !r.Refused?
      ensures r.Crashed? ==> Lost()
      ensures r.Done? ==> Owns(r.value) && OneMoveCompleted(owner, r.value, k)
    {
      hide BaseRun, Reviewed, InvOf, Enabled, Usable, DirectoryOwned, Holds, Custody, FindMove, Find;
      Here();
      MoveFacts(base, State(), owner, k);
      var move := owner.moves[k];
      var inventory := Find(owner.inventory, move.source);
      if inventory.None? || !DirectoryOwned(State(), owner, Dirname(move.target)) { return Refused; }
      var atSource, atTarget := move.source in files, move.target in files;
      if atSource && !Holds(files, move.source, inventory.value) { return Refused; }
      if atTarget && !Holds(files, move.target, inventory.value) { return Refused; }
      if move.state == Completed {
        if atSource || !atTarget { return Refused; }
        return Done(owner);
      }
      if !atSource && atTarget {
        if move.state != Issued { return Refused; }
        r := CompleteMove(owner, k);
        return;
      }
      if !atSource || atTarget { return Refused; }
      var issued := owner;
      if move.state == NotStarted {
        issued :- CompareAndSwapPending(owner, WithMoveState(owner, move.source, Issued), IssueMove(move.source));
        Here();
        MoveSet(owner, k, Issued);
        MoveFacts(base, State(), issued, k);
      }
      var _ :- MoveFile(issued, move.source, move.target);
      Here();
      MoveFacts(base, State(), issued, k);
      r := CompleteMove(issued, k);
    }

    method CompleteMove(owner: Operation, k: nat) returns (r: Outcome<Operation>)
      requires Owns(owner) && owner.phase == Archiving && ContainersCompleted(owner)
      requires k < |owner.moves| && MovesCompletedBefore(owner, k)
      requires owner.moves[k].state == Issued && owner.moves[k].source !in files
      modifies this
      ensures old(history) <= history && spared == old(spared)
      ensures !r.Refused?
      ensures r.Crashed? ==> Lost()
      ensures r.Done? ==> Owns(r.value) && OneMoveCompleted(owner, r.value, k)
    {
      hide BaseRun, Reviewed, InvOf, Enabled, Usable;
      var source := owner.moves[k].source;
      Here();
      MoveFacts(base, State(), owner, k);
      MoveSet(owner, k, Completed);
      r := CompareAndSwapPending(owner, WithMoveState(owner, source, Completed), CleanMachine.CompleteMove(source));
    }

    /** Takes the archive from wherever the journal says it is to complete. */
    method ArchiveManagedFiles(initial: Operation) returns (r: Outcome<Operation>)
      requires Owns(initial) && (initial.phase == Intent || initial.phase == Archiving)
      modifies this
      ensures old(history) <= history && spared == old(spared)
      ensures r.Refused? ==> Running() && State() == old(State()) && Stuck(State())
      ensures r.Crashed? ==> Lost()
      ensures r.Done? ==> Owns(r.value) && r.value.phase == ArchiveComplete && !Stuck(old(State()))
    {
      hide BaseRun, Reviewed, InvOf, Usable, ContainersCompleted, StuckAt;
      var owner := initial;
      if owner.phase == Intent {
        Here();
        IntentIsUntouched(base, State(), owner);
        owner :- CompareAndSwapPending(owner, owner.(phase := Archiving), BeginArchiving);
        NothingStarted(old(State()), initial);
        NothingStarted(State(), owner);
      }
      owner :- CreateArchiveContainers(owner);
      var moves := owner.moves;
      for k := 0 to |moves|
        invariant old(history) <= history && spared == old(spared)
        invariant Owns(owner) && owner.phase == Archiving && ContainersCompleted(owner) && |owner.moves| == |moves|
        invariant MovesCompletedBefore(owner, k)
      {
        ghost var previous := owner;
        owner :- ArchiveFile(owner, k);
        assert ContainersCompleted(owner) by { SameContainers(previous, owner); }
      }
      AllArchived(owner);
      owner :- CompareAndSwapPending(owner, owner.(phase := ArchiveComplete), FinishArchive);
      return Done(owner);
    }

    method WriteOutput(owner: Operation, output: Output) returns (r: Outcome<()>)
      requires Owns(owner) && owner.phase == Initializing && owner.prepared.Some?
      requires output in owner.prepared.value.outputs && output.path !in files
      modifies this
      ensures old(history) <= history && spared == old(spared)
      ensures !r.Refused?
      ensures r.Crashed? ==> Lost()
      ensures r.Done? ==> Owns(owner) && old(files.Keys) + {output.path} == files.Keys
    {
      hide BaseRun, Reviewed;
      var stopped := Interrupted();
      if stopped { return Crashed; }
      ghost var before := State();
      var identity: Identity := *;
      files := files[output.path := FileRecord(identity, output.content)];
      Log(before, CleanMachine.WriteOutput(output, identity));
      return Done(());
    }

    /** finishPreparedInitialization: writes what the receipt names and is not there yet. */
    method FinishInitialization(owner: Operation) returns (r: Outcome<Operation>)
      requires Owns(owner) && owner.phase == Initializing
      modifies this
      ensures old(history) <= history && spared == old(spared)
      ensures !r.Refused?
      ensures r.Crashed? ==> Lost()
      ensures r.Done? ==> Owns(r.value) && r.value == owner.(phase := Complete, initialization := Completed)
      ensures r.Done? ==> owner.prepared.Some? && OutputsPublished(files, owner.prepared.value.outputs)
    {
      hide BaseRun, Reviewed, InvOf, Enabled, Usable;
      Here();
      PreparedFacts(base, State(), owner);
      if owner.prepared.None? { return Refused; }
      var outputs := owner.prepared.value.outputs;
      for k := 0 to |outputs|
        invariant old(history) <= history && spared == old(spared)
        invariant Owns(owner) && forall i :: 0 <= i < k ==> outputs[i].path in files
      {
        Here();
        PreparedFacts(base, State(), owner);
        if outputs[k].path in files {
          if files[outputs[k].path].content != outputs[k].content { return Refused; }
        } else {
          var _ :- WriteOutput(owner, outputs[k]);
        }
      }
      Here();
      PreparedFacts(base, State(), owner);
      CompletionEnabled(State(), owner);
      r := CompareAndSwapPending(owner, owner.(phase := Complete, initialization := Completed), CompleteInitialization);
    }

    method AdvanceInitialization(initial: Operation, receipt: Prepared) returns (r: Outcome<Operation>)
      requires Owns(initial) && initial.phase != Intent && initial.phase != Archiving
      modifies this
      ensures old(history) <= history && spared == old(spared)
      ensures r.Refused? ==> Running() && pending.Some? && !Acceptable(base.op, receipt)
      ensures r.Crashed? ==> Lost()
      ensures r.Done? ==> Owns(r.value) && r.value.phase == Complete
      ensures r.Done? && initial.phase != ArchiveComplete ==> r.value.prepared == initial.prepared
      ensures r.Done? && initial.phase == ArchiveComplete ==> r.value.prepared == Some(receipt) && Acceptable(base.op, receipt)
    {
      hide BaseRun, Reviewed, InvOf, Enabled, Usable, Acceptable, ProgressSound, FreshOutputs, RightOutputs;
      var owner := initial;
      if owner.phase == ArchiveComplete {
        Here();
        AcceptableIsFresh(base, State(), owner, receipt);
        var candidate := owner.(phase := Initializing, prepared := Some(receipt), initialization := Issued);
        if !FreshOutputs(files, owner) { return Refused; }
        if !RightOutputs(owner, receipt.outputs) || !ProgressSound(candidate) { return Refused; }
        InitializationEnabled(State(), owner, receipt);
        IssuedIsAcceptable(base, State(), owner, receipt);
        owner :- CompareAndSwapPending(owner, candidate, IssueInitialization(receipt));
      }
      if owner.phase == Initializing {
        owner :- FinishInitialization(owner);
      }
      return Done(owner);
    }

    /** Whose fence it is: every project of the captured configuration's. */
    lemma Fenced()
      requires Running()
      ensures history[0].files == base.files && history[0].dirs == base.dirs
      ensures CONFIG_PATH in base.files && base.files[CONFIG_PATH].content.config.Some?
      ensures var projects := base.files[CONFIG_PATH].content.config.value.projects;
              && |base.binding.projects| == |projects|
              && forall k :: 0 <= k < |projects| ==>
                   && projects[k].root in base.dirs
                   && base.binding.projects[k].project == projects[k] && base.binding.projects[k].identity == base.dirs[projects[k].root]
    {
      CapturedProjects(base);
      hide Captured;
    }

    method AcquireFence(owner: Operation) returns (r: Outcome<()>)
      requires Running() && pending == Some(owner) && session.Down?
      modifies this
      ensures old(history) <= history && spared == old(spared)
      ensures r.Refused? ==> Running() && State() == old(State()) && fence == Released(base.binding)
      ensures r.Crashed? ==> Lost()
      ensures r.Done? ==> Owns(owner) && State() == old(State()).(session := Up(None), fence := Held(base.binding))
    {
      hide BaseRun, InvOf, Captured, Usable, PlanSound, ImmutablePlan, CurrentOperation, MaintenanceBinding;
      var stopped := Interrupted();
      if stopped { return Crashed; }
      Here();
      BindingIsConstant(base, State(), owner);
      AttachGuard(base, State(), owner);
      var binding := MaintenanceBinding(State(), owner);
      if !CurrentOperation(State(), owner) || binding.None? { return Refused; }
      var admitted := match fence
        case Held(b) => b == binding.value
        case Released(b) => b.binding != owner.binding && Pristine(owner)
        case Free => Pristine(owner);
      if !admitted { return Refused; }
      ghost var before := State();
      session, fence := Up(None), Held(binding.value);
      Log(before, Acquire);
      return Done(());
    }

    /** Joins the maintenance fence: acquires it on a pristine intent, reattaches afterwards. The fence it
        ends up holding names every project of the captured configuration, with its root's identity. */
    method Attach(owner: Operation) returns (r: Outcome<()>)
      requires Running() && pending == Some(owner) && session.Down?
      modifies this
      ensures old(history) <= history && spared == old(spared)
      ensures r.Refused? ==> Running() && State() == old(State()) && fence == Released(base.binding)
      ensures r.Crashed? ==> Lost()
      ensures r.Done? ==> Owns(owner) && State() == old(State()).(session := Up(None), fence := Held(base.binding))
      ensures CONFIG_PATH in history[0].files && history[0].files[CONFIG_PATH].content.config.Some?
      ensures r.Done? ==>
                var projects, fenced := history[0].files[CONFIG_PATH].content.config.value.projects, fence.binding.projects;
                && |fenced| == |projects|
                && forall k :: 0 <= k < |projects| ==>
                     && projects[k].root in history[0].dirs
                     && fenced[k].project == projects[k] && fenced[k].identity == history[0].dirs[projects[k].root]
    {
      hide BaseRun, Reviewed;
      Fenced();
      r := AcquireFence(owner);
    }

    method ReleaseCompletedFence(owner: Operation) returns (r: Outcome<()>)
      requires Owns(owner) && owner.phase == Complete
      modifies this
      ensures old(history) <= history && spared == old(spared)
      ensures !r.Refused?
      ensures r.Crashed? ==> Lost()
      ensures r.Done? ==> Running() && State() == old(State()).(session := Down, fence := Released(base.binding))
    {
      hide BaseRun, InvOf, Captured, Usable, PlanSound, ImmutablePlan, CurrentOperation, MaintenanceBinding, OutputsPublished;
      var stopped := Interrupted();
      if stopped { return Crashed; }
      Here();
      BindingIsConstant(base, State(), owner);
      CompletionFacts(base, State(), owner);
      var binding := MaintenanceBinding(State(), owner);
      if binding.None? || fence != Held(binding.value) { return Refused; }
      if owner.prepared.None? || !OutputsPublished(files, owner.prepared.value.outputs) { return Refused; }
      ghost var before := State();
      session, fence := Down, Released(binding.value);
      Log(before, Release);
      return Done(());
    }

    /** One process of the operation, from attaching to the fence to releasing it. */
    method RunHeldEffects(initial: Operation, receipt: Prepared) returns (r: Outcome<Operation>)
      requires Running() && pending == Some(initial) && session.Down? && fence != Released(base.binding)
      modifies this
      ensures old(history) <= history && spared == old(spared)
      ensures r.Refused? ==> Running() && pending.Some? && (Stuck(old(State())) || !Acceptable(base.op, receipt))
      ensures r.Crashed? ==> Lost()
      ensures r.Done? ==> Finished(r.value) && !Stuck(old(State()))
      ensures r.Done? && (initial.phase == Initializing || initial.phase == Complete) ==> r.value.prepared == initial.prepared
      ensures r.Done? && initial.phase != Initializing && initial.phase != Complete ==>
                r.value.prepared == Some(receipt) && Acceptable(base.op, receipt)
    {
      hide BaseRun, Reviewed, InvOf, Acceptable, Stuck, Usable;
      var owner := initial;
      if owner.phase != Archiving {
        Here();
        NotStuckOutsideArchiving(base, State(), owner);
      }
      var _ :- Attach(owner);
      SameStuck(old(State()), State());
      if owner.phase == Intent || owner.phase == Archiving {
        owner :- ArchiveManagedFiles(owner);
      }
      owner :- AdvanceInitialization(owner, receipt);
      var _ :- ReleaseCompletedFence(owner);
      return Done(owner);
    }

    /** The operation is over: complete and released. */
    ghost predicate Finished(owner: Operation)
      reads this
    {
      Running() && pending == Some(owner) && session.Down? && owner.phase == Complete && fence == Released(base.binding)
    }

    /** Apply and resume: whatever earlier processes did and wherever they stopped, this one finishes the
        operation unless it is stopped itself, or a container was left issued, or the initializer
        has nothing acceptable to write. */
    method Resume(receipt: Prepared, uninterrupted: bool) returns (r: Outcome<Operation>)
      requires Running() && session.Down?
      modifies this
      ensures old(history) <= history
      ensures Running() && session.Down?
      ensures r.Done? ==> Finished(r.value)
      ensures r.Done? ==> r.value.prepared.Some? && forall o :: o in r.value.prepared.value.outputs ==> o.path in files && files[o.path].content == o.content
      ensures r.Done? ==> old(pending).Some?
      ensures r.Done? ==>
                if old(pending).value.phase == Initializing || old(pending).value.phase == Complete
                then r.value.prepared == old(pending).value.prepared
                else r.value.prepared == Some(receipt) && Acceptable(base.op, receipt)
      ensures r.Crashed? ==> !uninterrupted
      ensures r.Refused? ==> old(pending).None? || Stuck(old(State())) || !Acceptable(base.op, receipt)
      ensures Stuck(old(State())) ==> !r.Done?
      ensures old(fence) == Released(base.binding) ==> State() == old(State())
    {
      hide BaseRun, Reviewed, InvOf, Acceptable, Stuck, Usable;
      spared := uninterrupted;
      if pending.None? { return Refused; }
      var owner := pending.value;
      Here();
      ReleasedFacts(base, State(), owner);
      if owner.phase == Complete && fence.Released? {
        NotStuckOutsideArchiving(base, State(), owner);
        CompleteOutputs(base, State(), owner);
        return Done(owner);
      }
      r := RunHeldEffects(owner, receipt);
      if r.Refused? {
        Stop();
      } else if r.Done? {
        Here();
        CompleteOutputs(base, State(), r.value);
      }
    }

    /** Moves the metadata of a finished operation into the archive's own history. */
    method Retire(uninterrupted: bool) returns (r: Outcome<Operation>)
      requires Running() && session.Down?
      modifies this
      ensures old(history) <= history
      ensures Running() && session.Down?
      ensures r.Done? ==> pending.None? && retired == Some(r.value) && r.value.phase == Complete
      ensures r.Done? ==> State() == old(State()).(pending := None, retired := Some(r.value))
      ensures r.Done? && old(pending).Some? ==> r.value == old(pending).value
      ensures r.Refused? ==> State() == old(State())
      ensures old(pending).Some? && Finished(old(pending).value) && uninterrupted ==> r.Done?
    {
      hide BaseRun, Reviewed, InvOf, Enabled, OutputsPublished, DirectoryOwned, MaintenanceBinding;
      spared := uninterrupted;
      Here();
      if pending.None? {
        if retired.None? { return Refused; }
        return Done(retired.value);
      }
      var stopped := Interrupted();
      if stopped { return Crashed; }
      Here();
      var owner := pending.value;
      if owner.phase == Complete && fence.Released? {
        RetireFacts(base, State(), owner);
      }
      if owner.phase != Complete || owner.prepared.None? || !OutputsPublished(files, owner.prepared.value.outputs) { return Refused; }
      var binding := MaintenanceBinding(State(), owner);
      if binding.None? || fence != Released(binding.value) { return Refused; }
      if !DirectoryOwned(State(), owner, HistoryOf(owner)) { return Refused; }
      ghost var before := State();
      pending, retired := None, Some(owner);
      RetireGuard(before, owner);
      Log(before, CleanMachine.Retire);
      return Done(owner);
    }
  }
}
