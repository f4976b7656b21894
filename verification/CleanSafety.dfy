/** What every run of a clean initialization keeps, crashes and resumes included. */
module CleanSafety {
  import opened Outcomes
  import opened CleanJournal
  import opened CleanMachine

  ghost predicate DistinctMoves(op: Operation) {
    && (forall i, j :: 0 <= i < |op.moves| && 0 <= j < |op.moves| && i != j ==>
          op.moves[i].source != op.moves[j].source && op.moves[i].target != op.moves[j].target)
    && (forall i, j :: 0 <= i < |op.moves| && 0 <= j < |op.moves| ==> op.moves[i].source != op.moves[j].target)
  }

  lemma MovesAreDistinct(op: Operation)
    requires PlanSound(ImmutablePlan(op))
    ensures DistinctMoves(op)
  {
    var plan := ImmutablePlan(op);
    forall i, j | 0 <= i < |op.moves| && 0 <= j < |op.moves|
      ensures op.moves[i].source != op.moves[j].target
      ensures i != j ==> op.moves[i].source != op.moves[j].source && op.moves[i].target != op.moves[j].target
    {
      SoundPlanIsDistinct(plan, i, j);
    }
  }

  ghost predicate DistinctContainers(op: Operation) {
    forall i, j :: 0 <= i < |op.containers| && 0 <= j < |op.containers| && i != j ==> op.containers[i].path != op.containers[j].path
  }

  lemma ContainersAreDistinct(op: Operation)
    requires PlanSound(ImmutablePlan(op))
    ensures DistinctContainers(op)
  {
    var plan := ImmutablePlan(op);
    SoundPathsAreUsable(plan);
    assert forall i :: 0 <= i < |op.containers| ==> op.containers[i].path == plan.containers[i];
  }

  lemma {:induction false} FindMoveKept(moves: seq<Move>, moves': seq<Move>, path: string)
    requires |moves| == |moves'| && forall i :: 0 <= i < |moves| ==> moves[i].source == moves'[i].source
    ensures FindMove(moves, path).Some? <==> FindMove(moves', path).Some?
  {
    if moves != [] && moves[0].source != path {
      FindMoveKept(moves[1..], moves'[1..], path);
    }
  }

  lemma ConfigAtStart(files: map<string, FileRecord>, op: Operation)
    requires AllMoves(op, NotStarted) && OperationConfig(files, op).Some?
    ensures CONFIG_PATH in files && OperationConfig(files, op) == files[CONFIG_PATH].content.config
  {
  }

  lemma ConfigDuring(captured: FileRecord, files: map<string, FileRecord>, op: Operation)
    requires MovesInv(files, op) && ConfigInv(captured, files, op.moves, op.inventory)
    ensures OperationConfig(files, op) == captured.content.config
  {
    var m := FindMove(op.moves, CONFIG_PATH);
    if m.Some? {
      var i :| 0 <= i < |op.moves| && op.moves[i] == m.value;
      assert Custody(files, op, op.moves[i]);
    }
  }

  lemma SamePlanFields(op: Operation, op': Operation)
    requires SamePlan(op, op')
    ensures op.request == op'.request && op.rootIdentity == op'.rootIdentity && op.runtime == op'.runtime
    ensures op.protectedPaths == op'.protectedPaths && op.inventory == op'.inventory && op.preserved == op'.preserved
    ensures op.operationId == op'.operationId && op.archiveRoot == op'.archiveRoot
  {
    var plan, plan' := ImmutablePlan(op), ImmutablePlan(op');
    assert plan == plan';
  }

  /** A baseline describes a repository in which its image was current. */
  ghost predicate Captured(base: Baseline) {
    var start := World(base.files, base.dirs, Some(base.op), None, Free, Down);
    && CurrentOperation(start, base.op) && Covers(base.files, base.op) && Pristine(base.op) && AllMoves(base.op, NotStarted)
    && MaintenanceBinding(start, base.op) == Some(base.binding)
    && OperationConfig(base.files, base.op) == base.config.content.config
  }

  lemma PublishedIsCaptured(start: World)
    requires Published(start)
    ensures Captured(BaselineOf(start))
  {
    hide PlanSound, ImmutablePlan, Covers, IsUuid, FencedProjects;
    ConfigAtStart(start.files, start.pending.value);
  }

  lemma FencedProjectsStay(dirs: map<string, Identity>, dirs': map<string, Identity>, projects: seq<Project>)
    requires Extends(dirs, dirs') && forall p :: p in projects ==> p.root in dirs
    ensures FencedProjects(dirs, projects) == FencedProjects(dirs', projects)
  {
  }

  /** The configuration, and with it the fence binding, recomputed at any point of a run is the captured
      one: a resume always reattaches. */
  lemma BindingIsConstant(base: Baseline, w: World, op: Operation)
    requires Captured(base) && InvOf(base, w, op)
    ensures OperationConfig(w.files, op) == base.config.content.config
    ensures MaintenanceBinding(w, op) == Some(base.binding)
    ensures CurrentOperation(w, op)
  {
    ConfigDuring(base.config, w.files, op);
    SamePlanFields(base.op, op);
    FencedProjectsStay(base.dirs, w.dirs, base.config.content.config.value.projects);
  }

  // ---------------------------------------------------------------- steps that only change a move's state

  lemma MoveStateKeepsMoves(files: map<string, FileRecord>, op: Operation, source: string, state: EffectState)
    requires MovesInv(files, op)
    requires forall m :: m in op.moves && m.source == source ==> Custody(files, op, m.(state := state))
    ensures MovesInv(files, WithMoveState(op, source, state))
  {
    var op' := WithMoveState(op, source, state);
    forall i | 0 <= i < |op'.moves| ensures Custody(files, op', op'.moves[i]) {
      assert Custody(files, op, op.moves[i]);
      assert op.moves[i] in op.moves;
    }
  }

  lemma MoveStateKeepsOrder(op: Operation, source: string, state: EffectState)
    requires MovesInOrder(op) && ContainersCompleted(op) && state != NotStarted
    requires forall i, j :: 0 <= i < j < |op.moves| && op.moves[j].source == source ==> op.moves[i].state == Completed
    requires forall m :: m in op.moves && m.source == source ==> m.state != Completed
    ensures MovesInOrder(WithMoveState(op, source, state))
  {
    var op' := WithMoveState(op, source, state);
    forall i, j | 0 <= i < j < |op'.moves| && op'.moves[j].state != NotStarted ensures op'.moves[i].state == Completed {
      assert op.moves[i].state == Completed;
      assert op.moves[i] in op.moves;
    }
  }

  lemma ConfigKept(captured: FileRecord, files: map<string, FileRecord>, moves: seq<Move>, moves': seq<Move>, inventory: seq<FileObservation>)
    requires ConfigInv(captured, files, moves, inventory)
    requires |moves| == |moves'| && forall i :: 0 <= i < |moves| ==> moves[i].source == moves'[i].source
    ensures ConfigInv(captured, files, moves', inventory)
  {
    FindMoveKept(moves, moves', CONFIG_PATH);
  }

  lemma MoveStateKeepsProgress(op: Operation, source: string, state: EffectState)
    requires ProgressSound(op) && op.phase == Archiving
    ensures ProgressSound(WithMoveState(op, source, state))
  {
  }

  lemma MoveStateStep(base: Baseline, w: World, op: Operation, source: string, state: EffectState)
    requires InvOf(base, w, op) && w.session == Up(None) && op.phase == Archiving
    requires ContainersCompleted(op) && state != NotStarted
    requires forall m :: m in op.moves && m.source == source ==> Custody(w.files, op, m.(state := state)) && m.state != Completed
    requires forall i, j :: 0 <= i < j < |op.moves| && op.moves[j].source == source ==> op.moves[i].state == Completed
    ensures InvOf(base, Journaled(w, WithMoveState(op, source, state)), WithMoveState(op, source, state))
  {
    MoveStateKeepsPlan(op, source, state);
    MoveStateKeepsMoves(w.files, op, source, state);
    MoveStateKeepsOrder(op, source, state);
    MoveStateKeepsProgress(op, source, state);
    ConfigKept(base.config, w.files, op.moves, WithMoveState(op, source, state).moves, op.inventory);
  }

  // ---------------------------------------------------------------- steps that change a container's state

  lemma ContainerStateKeepsContainers(dirs: map<string, Identity>, op: Operation, path: string, state: EffectState, identity: Option<Identity>)
    requires ContainersInv(dirs, op) && state != NotStarted
    requires state == Completed ==> identity.Some? && path in dirs && dirs[path] == identity.value
    requires forall i, j :: 0 <= i < j < |op.containers| && op.containers[j].path == path ==> op.containers[i].state == Completed
    requires forall c :: c in op.containers && c.path == path ==> c.state != Completed
    ensures ContainersInv(dirs, WithContainerState(op, path, state, identity))
  {
    var op' := WithContainerState(op, path, state, identity);
    forall i, j | 0 <= i < j < |op'.containers| && op'.containers[j].state != NotStarted ensures op'.containers[i].state == Completed {
      assert op.containers[i].state == Completed;
      assert op.containers[i] in op.containers;
    }
  }

  lemma ContainerStateKeepsProgress(op: Operation, path: string, state: EffectState, identity: Option<Identity>)
    requires ProgressSound(op) && op.phase == Archiving && (state == Completed ==> identity.Some?) && state != NotStarted
    ensures ProgressSound(WithContainerState(op, path, state, identity))
  {
  }

  lemma UnstartedMovesStay(files: map<string, FileRecord>, op: Operation, op': Operation)
    requires MovesInv(files, op) && op'.moves == op.moves && op'.inventory == op.inventory && AllMoves(op, NotStarted)
    ensures MovesInv(files, op') && MovesInOrder(op')
  {
    forall i | 0 <= i < |op'.moves| ensures Custody(files, op', op'.moves[i]) && op'.moves[i].state == NotStarted {
      assert Custody(files, op, op.moves[i]);
      assert op.moves[i] in op.moves;
    }
  }

  lemma ContainerStateStep(base: Baseline, w: World, op: Operation, path: string, state: EffectState, identity: Option<Identity>, session: Session)
    requires InvOf(base, w, op) && w.session.Up? && session.Up? && op.phase == Archiving && AllMoves(op, NotStarted)
    requires state != NotStarted && (state == Completed ==> identity.Some? && path in w.dirs && w.dirs[path] == identity.value)
    requires forall i, j :: 0 <= i < j < |op.containers| && op.containers[j].path == path ==> op.containers[i].state == Completed
    requires forall c :: c in op.containers && c.path == path ==> c.state != Completed
    requires session == (if state == Issued then Up(Some(path)) else Up(None)) && FindContainer(op.containers, path).Some?
    ensures InvOf(base, Journaled(w, WithContainerState(op, path, state, identity)).(session := session), WithContainerState(op, path, state, identity))
  {
    var op' := WithContainerState(op, path, state, identity);
    ContainerStateKeepsPlan(op, path, state, identity);
    ContainerStateKeepsContainers(w.dirs, op, path, state, identity);
    ContainerStateKeepsProgress(op, path, state, identity);
    UnstartedMovesStay(w.files, op, op');
    var c := FindContainer(op.containers, path).value;
    var i :| 0 <= i < |op.containers| && op.containers[i] == c;
    assert op'.containers[i].path == path && op'.containers[i].state == state;
    assert AllMoves(op', NotStarted);
    assert SessionInv(session, op');
  }

  // ---------------------------------------------------------------- steps that change the repository

  lemma DirectoryStep(base: Baseline, w: World, op: Operation, path: string, identity: Identity)
    requires InvOf(base, w, op) && w.session == Up(Some(path)) && path !in w.dirs && DistinctContainers(op)
    ensures InvOf(base, w.(dirs := w.dirs[path := identity]), op)
  {
    var dirs' := w.dirs[path := identity];
    var k :| 0 <= k < |op.containers| && op.containers[k].path == path && op.containers[k].state == Issued;
    forall i | 0 <= i < |op.containers| ensures ContainerInv(dirs', op.containers[i]) {
      assert ContainerInv(w.dirs, op.containers[i]);
    }
  }

  lemma MoveFileKeepsMoves(files: map<string, FileRecord>, op: Operation, k: int)
    requires MovesInv(files, op) && DistinctMoves(op) && ArchiveOpen(op)
    requires 0 <= k < |op.moves| && op.moves[k].state == Issued && op.moves[k].source in files
    ensures MovesInv((files - {op.moves[k].source})[op.moves[k].target := files[op.moves[k].source]], op)
  {
    var m := op.moves[k];
    var files' := (files - {m.source})[m.target := files[m.source]];
    forall i | 0 <= i < |op.moves| ensures Custody(files', op, op.moves[i]) {
      assert Custody(files, op, op.moves[i]);
      assert op.moves[i].source != m.target && op.moves[i].target != m.source;
      assert Custody(files, op, m);
    }
  }

  lemma MoveFileKeepsFrame(base: Baseline, files: map<string, FileRecord>, op: Operation, k: int)
    requires FrameInv(base, files, true) && SamePlan(base.op, op) && MovesInv(files, op)
    requires 0 <= k < |op.moves| && op.moves[k].state == Issued && op.moves[k].source in files
    ensures FrameInv(base, (files - {op.moves[k].source})[op.moves[k].target := files[op.moves[k].source]], true)
  {
    assert Custody(files, op, op.moves[k]);
    assert ImmutablePlan(base.op).moves[k] == ImmutablePlan(op).moves[k];
    assert |ImmutablePlan(base.op).moves| == |base.op.moves|;
    assert base.op.moves[k].source == op.moves[k].source && base.op.moves[k].target == op.moves[k].target;
    assert IsSource(base.op, op.moves[k].source) && IsTarget(base.op, op.moves[k].target);
  }

  lemma MoveFileStep(base: Baseline, w: World, op: Operation, k: int)
    requires InvOf(base, w, op) && DistinctMoves(op) && w.session == Up(None) && op.phase == Archiving
    requires 0 <= k < |op.moves| && op.moves[k].state == Issued && op.moves[k].source in w.files
    ensures InvOf(base, w.(files := (w.files - {op.moves[k].source})[op.moves[k].target := w.files[op.moves[k].source]]), op)
  {
    var m := op.moves[k];
    MoveFileKeepsMoves(w.files, op, k);
    MoveFileKeepsFrame(base, w.files, op, k);
    var files' := (w.files - {m.source})[m.target := w.files[m.source]];
    if FindMove(op.moves, CONFIG_PATH).None? {
      assert m in op.moves;
      ConfigNotATarget(w.files, op, k);
    }
    assert op.prepared.None?;
  }

  /** A target that is not there yet is not the configuration, which is. */
  lemma ConfigNotATarget(files: map<string, FileRecord>, op: Operation, k: int)
    requires MovesInv(files, op) && 0 <= k < |op.moves| && op.moves[k].state == Issued && op.moves[k].source in files
    ensures op.moves[k].target !in files
  {
    assert Custody(files, op, op.moves[k]);
  }

  lemma OutputKeepsMoves(files: map<string, FileRecord>, op: Operation, path: string, record: FileRecord)
    requires MovesInv(files, op) && !ArchiveOpen(op) && AllMoves(op, Completed) && path !in files
    ensures MovesInv(files[path := record], op)
  {
    forall i | 0 <= i < |op.moves| ensures Custody(files[path := record], op, op.moves[i]) {
      assert Custody(files, op, op.moves[i]);
      assert op.moves[i] in op.moves;
    }
  }

  lemma OutputKeepsOutputs(files: map<string, FileRecord>, prepared: Prepared, output: Output, record: FileRecord)
    requires OutputsInv(files, Some(prepared)) && output in prepared.outputs && record.content == output.content
    ensures OutputsInv(files[output.path := record], Some(prepared))
  {
    forall o | o in prepared.outputs && o.path in files[output.path := record]
      ensures files[output.path := record][o.path].content == o.content
    {
      if o.path == output.path {
        var i :| 0 <= i < |prepared.outputs| && prepared.outputs[i] == o;
        var j :| 0 <= j < |prepared.outputs| && prepared.outputs[j] == output;
        assert i == j;
      }
    }
  }

  lemma OutputStep(base: Baseline, w: World, op: Operation, output: Output, identity: Identity)
    requires InvOf(base, w, op) && w.session == Up(None) && op.phase == Initializing && op.prepared.Some?
    requires output in op.prepared.value.outputs && output.path !in w.files
    ensures InvOf(base, w.(files := w.files[output.path := FileRecord(identity, output.content)]), op)
  {
    var record := FileRecord(identity, output.content);
    OutputKeepsMoves(w.files, op, output.path, record);
    OutputKeepsOutputs(w.files, op.prepared.value, output, record);
  }

  // ---------------------------------------------------------------- steps that change the phase

  lemma PhaseKeepsMoves(files: map<string, FileRecord>, op: Operation, op': Operation)
    requires MovesInv(files, op) && MovesInOrder(op)
    requires op'.moves == op.moves && op'.inventory == op.inventory && op'.containers == op.containers
    requires ArchiveOpen(op') ==> ArchiveOpen(op)
    ensures MovesInv(files, op') && MovesInOrder(op')
  {
    forall i | 0 <= i < |op'.moves| ensures Custody(files, op', op'.moves[i]) {
      assert Custody(files, op, op.moves[i]);
    }
  }

  lemma PhaseStep(base: Baseline, w: World, op: Operation, op': Operation)
    requires InvOf(base, w, op) && w.session == Up(None) && op.phase != Complete && op'.phase != Intent
    requires op' == op.(phase := op'.phase, prepared := op'.prepared, initialization := op'.initialization)
    requires ProgressSound(op') && OutputsInv(w.files, op'.prepared)
    requires ArchiveOpen(op') ==> ArchiveOpen(op)
    requires InitializationInv(w.files, op')
    ensures InvOf(base, Journaled(w, op'), op')
  {
    PhaseKeepsMoves(w.files, op, op');
    assert ImmutablePlan(op') == ImmutablePlan(op);
    assert ContainersInv(w.dirs, op');
  }

  lemma FenceStep(base: Baseline, w: World, op: Operation, fence: Fence, session: Session)
    requires InvOf(base, w, op) && session in {Down, Up(None)}
    requires FenceInv(base.binding, fence, session.Up?, op.phase, op.binding)
    ensures InvOf(base, w.(fence := fence, session := session), op)
  {
  }

  // ---------------------------------------------------------------- every step keeps the invariant

  ghost predicate Usable(op: Operation) {
    DistinctMoves(op) && DistinctContainers(op)
  }

  lemma SamePlanSameUse(op: Operation, op': Operation)
    requires SamePlan(op, op') && Usable(op)
    ensures Usable(op')
  {
    var plan, plan' := ImmutablePlan(op), ImmutablePlan(op');
    assert |op.moves| == |plan.moves| == |op'.moves| && |op.containers| == |plan.containers| == |op'.containers|;
    assert forall i :: 0 <= i < |op.moves| ==> plan.moves[i].source == op.moves[i].source && plan.moves[i].target == op.moves[i].target;
    assert forall i :: 0 <= i < |op'.moves| ==> plan'.moves[i].source == op'.moves[i].source && plan'.moves[i].target == op'.moves[i].target;
    assert forall i :: 0 <= i < |op.containers| ==> plan.containers[i] == op.containers[i].path;
    assert forall i :: 0 <= i < |op'.containers| ==> plan'.containers[i] == op'.containers[i].path;
  }

  lemma MoveIndex(op: Operation, source: string) returns (k: int)
    requires FindMove(op.moves, source).Some?
    ensures 0 <= k < |op.moves| && op.moves[k] == FindMove(op.moves, source).value && op.moves[k].source == source
  {
    var m := FindMove(op.moves, source).value;
    k :| 0 <= k < |op.moves| && op.moves[k] == m;
  }

  lemma IssueOrCompleteMove(base: Baseline, w: World, op: Operation, source: string, l: Label)
    requires InvOf(base, w, op) && Usable(op) && Enabled(w, op, l)
    requires l == IssueMove(source) || l == CompleteMove(source)
    ensures InvOf(base, Next(w, op, l), Next(w, op, l).pending.value)
  {
    hide ContainersInv, FrameInv, ConfigInv, FenceInv, OutputsInv, InitializationInv, DistinctContainers;
    var k := MoveIndex(op, source);
    forall m | m in op.moves && m.source == source ensures m == op.moves[k] {
      var i :| 0 <= i < |op.moves| && op.moves[i] == m;
      assert i == k;
    }
    assert Custody(w.files, op, op.moves[k]);
    MoveStateStep(base, w, op, source, if l.IssueMove? then Issued else Completed);
  }

  /** While some container is not completed no move has begun. */
  lemma MovesAfterContainers(op: Operation, k: int)
    requires MovesInOrder(op) && 0 <= k < |op.containers| && op.containers[k].state != Completed
    ensures AllMoves(op, NotStarted)
  {
    assert op.containers[k] in op.containers;
  }

  lemma IssueOrCompleteContainer(base: Baseline, w: World, op: Operation, path: string, l: Label)
    requires InvOf(base, w, op) && Usable(op) && Enabled(w, op, l)
    requires l == IssueContainer(path) || l == CompleteContainer(path)
    ensures InvOf(base, Next(w, op, l), Next(w, op, l).pending.value)
  {
    hide MovesInv, FrameInv, ConfigInv, FenceInv, OutputsInv, InitializationInv, DistinctMoves;
    if l.IssueContainer? {
      var c := FindContainer(op.containers, path).value;
      var k :| 0 <= k < |op.containers| && op.containers[k] == c;
      forall d | d in op.containers && d.path == path ensures d.state != Completed {
        var i :| 0 <= i < |op.containers| && op.containers[i] == d;
        assert i == k;
      }
      MovesAfterContainers(op, k);
      ContainerStateStep(base, w, op, path, Issued, None, Up(Some(path)));
    } else {
      var k :| 0 <= k < |op.containers| && op.containers[k].path == path && op.containers[k].state == Issued;
      forall i | 0 <= i < |op.containers| && op.containers[i].path == path ensures i == k {
      }
      forall d | d in op.containers && d.path == path ensures d.state != Completed {
        var i :| 0 <= i < |op.containers| && op.containers[i] == d;
      }
      assert op.containers[k] in op.containers;
      ContainerStateStep(base, w, op, path, Completed, Some(w.dirs[path]), Up(None));
    }
  }

  predicate SwapsJournal(l: Label) {
    match l
    case BeginArchiving | IssueContainer(_) | CompleteContainer(_) | IssueMove(_) | CompleteMove(_) | FinishArchive
         | IssueInitialization(_) | CompleteInitialization => true
    case _ => false
  }

  lemma SwapKeepsInv(base: Baseline, w: World, op: Operation, l: Label)
    requires InvOf(base, w, op) && Usable(op) && Enabled(w, op, l) && SwapsJournal(l)
    ensures InvOf(base, Next(w, op, l), Next(w, op, l).pending.value)
  {
    hide InvOf, Usable, Enabled, Next;
    match l {
      case IssueContainer(path) => IssueOrCompleteContainer(base, w, op, path, l);
      case CompleteContainer(path) => IssueOrCompleteContainer(base, w, op, path, l);
      case IssueMove(source) => IssueOrCompleteMove(base, w, op, source, l);
      case CompleteMove(source) => IssueOrCompleteMove(base, w, op, source, l);
      case _ => PhaseSwapKeepsInv(base, w, op, l);
    }
  }

  lemma OutputsAreForeign(path: string)
    requires path == RECEIPT_PATH || path in INITIALIZER_OUTPUTS
    ensures Foreign(path)
  {
    assert HISTORY_ROOT[0] == '.' && HISTORY_ROOT[7] == 'c';
    assert RECEIPT_PATH[7] == 'r';
    assert "AGENTS.md"[0] == 'A' && "AGENT.sidecar.md"[0] == 'A' && CONFIG_PATH[0] == 'a' && POLICY_PATH[0] == 'd';
    assert path in INITIALIZER_OUTPUTS ==> path in {"AGENTS.md", "AGENT.sidecar.md", CONFIG_PATH, POLICY_PATH};
  }

  /** What is to be written of a repository that was found fresh is new there. */
  lemma RightIsNew(files: map<string, FileRecord>, op: Operation, prepared: Prepared)
    requires FreshOutputs(files, op) && RightOutputs(op, prepared.outputs)
    ensures OutputsInv(files, Some(prepared))
  {
    forall o | o in prepared.outputs ensures Foreign(o.path) && o.path !in files {
      OutputsAreForeign(o.path);
    }
  }

  lemma PhaseSwapKeepsInv(base: Baseline, w: World, op: Operation, l: Label)
    requires InvOf(base, w, op) && Enabled(w, op, l)
    requires l in {BeginArchiving, FinishArchive, CompleteInitialization} || l.IssueInitialization?
    ensures InvOf(base, Next(w, op, l), Next(w, op, l).pending.value)
  {
    hide MovesInv, MovesInOrder, ContainersInv, FrameInv, ConfigInv, FenceInv, OutputsInv, FreshOutputs, RightOutputs;
    match l {
      case BeginArchiving => PhaseStep(base, w, op, op.(phase := Archiving));
      case FinishArchive => PhaseStep(base, w, op, op.(phase := ArchiveComplete));
      case IssueInitialization(prepared) =>
        RightIsNew(w.files, op, prepared);
        PhaseStep(base, w, op, op.(phase := Initializing, prepared := Some(prepared), initialization := Issued));
      case CompleteInitialization => PhaseStep(base, w, op, op.(phase := Complete, initialization := Completed));
    }
  }

  lemma StepKeepsInv(base: Baseline, w: World, l: Label, w': World)
    requires Captured(base) && Usable(base.op) && Inv(base, w) && Step(w, l, w')
    ensures Inv(base, w')
  {
    var op := w.pending.value;
    SamePlanSameUse(base.op, op);
    if SwapsJournal(l) {
      SwapKeepsInv(base, w, op, l);
    } else {
      OtherStepKeepsInv(base, w, op, l);
    }
  }

  lemma OtherStepKeepsInv(base: Baseline, w: World, op: Operation, l: Label)
    requires Captured(base) && InvOf(base, w, op) && Usable(op) && Enabled(w, op, l) && !SwapsJournal(l)
    ensures InvOf(base, Next(w, op, l), op)
  {
    match l {
      case Acquire =>
        BindingIsConstant(base, w, op);
        FenceStep(base, w, op, Held(base.binding), Up(None));
      case CreateDirectory(path, identity) => DirectoryStep(base, w, op, path, identity);
      case MoveFile(source) =>
        var k := MoveIndex(op, source);
        MoveFileStep(base, w, op, k);
      case WriteOutput(output, identity) => OutputStep(base, w, op, output, identity);
      case Release =>
        BindingIsConstant(base, w, op);
        FenceStep(base, w, op, Released(base.binding), Down);
      case Retire =>
      case Crash => FenceStep(base, w, op, w.fence, Down);
    }
  }

  lemma InitialInv(base: Baseline, w: World, op: Operation)
    requires base.op == op && base.files == w.files && base.dirs == w.dirs && w.session.Down? && Pristine(op)
    requires ProgressSound(op) && MovesInv(w.files, op) && ConfigInv(base.config, w.files, op.moves, op.inventory)
    requires forall c :: c in op.containers ==> c.path !in w.dirs || c.path == HISTORY_ROOT
    requires !w.fence.Held? && (w.fence.Released? ==> w.fence.binding.binding != op.binding)
    ensures InvOf(base, w, op)
  {
    assert AllMoves(op, NotStarted);
    forall i | 0 <= i < |op.containers| ensures ContainerInv(w.dirs, op.containers[i]) {
      assert op.containers[i] in op.containers;
    }
  }

  lemma PublishedUsable(start: World)
    requires Published(start)
    ensures Usable(start.pending.value)
  {
    MovesAreDistinct(start.pending.value);
    ContainersAreDistinct(start.pending.value);
  }

  lemma PublishedInv(start: World)
    requires Published(start)
    ensures Inv(BaselineOf(start), start)
  {
    hide PlanSound, ImmutablePlan, Covers, IsUuid, MaintenanceBinding, OperationConfig;
    var op := start.pending.value;
    PublishedParts(start.files, op);
    ConfigAtStart(start.files, op);
    PublishedConfig(start.files, op);
    InitialInv(BaselineOf(start), start, op);
  }

  lemma PublishedParts(files: map<string, FileRecord>, op: Operation)
    requires PlanSound(ImmutablePlan(op)) && AllMoves(op, NotStarted)
    requires forall f :: f in op.inventory ==> Holds(files, f.path, f)
    requires forall m :: m in op.moves ==> m.target !in files
    ensures MovesInv(files, op)
  {
    forall i | 0 <= i < |op.moves| ensures Custody(files, op, op.moves[i]) {
      MoveIsInventoried(op, i);
      assert op.moves[i] in op.moves;
    }
  }

  lemma MoveIsInventoried(op: Operation, i: int)
    requires PlanSound(ImmutablePlan(op)) && 0 <= i < |op.moves|
    ensures Find(op.inventory, op.moves[i].source).Some?
  {
    var plan := ImmutablePlan(op);
    assert plan.moves[i].source == op.moves[i].source;
    assert MoveSound(plan, plan.moves[i]);
  }

  lemma PublishedConfig(files: map<string, FileRecord>, op: Operation)
    requires PlanSound(ImmutablePlan(op)) && CONFIG_PATH in files
    requires forall f :: f in op.inventory ==> Holds(files, f.path, f)
    ensures ConfigInv(files[CONFIG_PATH], files, op.moves, op.inventory)
  {
    if FindMove(op.moves, CONFIG_PATH).Some? {
      var k := MoveIndex(op, CONFIG_PATH);
      MoveIsInventoried(op, k);
    }
  }
}
