/** The promises of clean initialization, over whole runs: any number of processes, each of them
    possibly crashing between any two writes. */
module CleanRuns {
  import opened Outcomes
  import opened Paths
  import opened CleanJournal
  import opened CleanMachine
  import opened CleanSafety

  /** A run from the publication of a reviewed plan. */
  ghost predicate OperationRun(trace: seq<World>, labels: seq<Label>) {
    IsRun(trace, labels) && Published(trace[0])
  }

  ghost predicate Sound(base: Baseline) {
    Captured(base) && Usable(base.op)
  }

  /** The same run, measured against its baseline. */
  ghost predicate BaseRun(base: Baseline, trace: seq<World>, labels: seq<Label>) {
    IsRun(trace, labels) && Sound(base) && Inv(base, trace[0]) && trace[0].pending == Some(base.op)
    && trace[0].files == base.files && trace[0].dirs == base.dirs
  }

  lemma Grounded(trace: seq<World>, labels: seq<Label>)
    requires OperationRun(trace, labels)
    ensures BaseRun(BaselineOf(trace[0]), trace, labels)
    ensures PlanSound(ImmutablePlan(trace[0].pending.value))
  {
    PublishedInv(trace[0]);
    PublishedUsable(trace[0]);
    PublishedIsCaptured(trace[0]);
  }

  lemma {:induction false} RunKeepsInv(base: Baseline, trace: seq<World>, labels: seq<Label>, i: nat)
    requires BaseRun(base, trace, labels) && i < |trace|
    ensures Inv(base, trace[i])
    decreases i
  {
    hide Inv, Captured, Usable, Step;
    if i > 0 {
      RunKeepsInv(base, trace, labels, i - 1);
      StepKeepsInv(base, trace[i - 1], labels[i - 1], trace[i]);
    }
  }

  /** The journal image of a state: pending, or retired with the operation complete. */
  function Image(w: World): Operation
    requires w.pending.Some? || w.retired.Some?
  {
    if w.pending.Some? then w.pending.value else w.retired.value
  }

  lemma RunImage(base: Baseline, trace: seq<World>, labels: seq<Label>, i: nat)
    requires BaseRun(base, trace, labels) && i < |trace|
    ensures trace[i].pending.Some? || trace[i].retired.Some?
    ensures InvOf(base, trace[i], Image(trace[i])) && Usable(Image(trace[i]))
  {
    RunKeepsInv(base, trace, labels, i);
    SamePlanSameUse(base.op, Image(trace[i]));
  }

  // ---------------------------------------------------------------- the journal

  /** Every image ever on disk passes checkSemantics and carries the reviewed plan and its binding. */
  lemma EveryImageIsValid(trace: seq<World>, labels: seq<Label>, i: nat)
    requires OperationRun(trace, labels) && i < |trace|
    ensures trace[i].pending.Some? || trace[i].retired.Some?
    ensures Valid(Image(trace[i]))
    ensures ImmutablePlan(Image(trace[i])) == ImmutablePlan(trace[0].pending.value)
  {
    Grounded(trace, labels);
    RunImage(BaselineOf(trace[0]), trace, labels, i);
    SealedImage(trace[0].pending.value, Image(trace[i]));
  }

  lemma SealedImage(op0: Operation, op: Operation)
    requires PlanSound(ImmutablePlan(op0)) && op0.binding == Sealed(ImmutablePlan(op0))
    requires SamePlan(op0, op) && ProgressSound(op)
    ensures Valid(op) && ImmutablePlan(op) == ImmutablePlan(op0)
  {
  }

  function EffectRank(state: EffectState): nat {
    match state
    case NotStarted => 0
    case Issued => 1
    case Completed => 2
  }

  function MovesRank(moves: seq<Move>): nat {
    if moves == [] then 0 else MovesRank(moves[..|moves| - 1]) + EffectRank(moves[|moves| - 1].state)
  }

  function ContainersRank(containers: seq<Container>): nat {
    if containers == [] then 0
    else ContainersRank(containers[..|containers| - 1]) + EffectRank(containers[|containers| - 1].state)
  }

  function PhaseRank(phase: Phase): nat {
    match phase
    case Intent => 0
    case Archiving => 1
    case ArchiveComplete => 2
    case Initializing => 3
    case Complete => 4
  }

  function Rank(op: Operation): nat {
    PhaseRank(op.phase) + MovesRank(op.moves) + ContainersRank(op.containers)
  }

  function Swaps(labels: seq<Label>): nat {
    if labels == [] then 0
    else Swaps(labels[..|labels| - 1]) + if SwapsJournal(labels[|labels| - 1]) then 1 else 0
  }

  lemma {:induction false} MovesRankStep(moves: seq<Move>, moves': seq<Move>, k: int)
    requires |moves| == |moves'| && -1 <= k < |moves|
    requires forall i :: 0 <= i < |moves| && i != k ==> moves[i].state == moves'[i].state
    ensures MovesRank(moves') == MovesRank(moves) + if k < 0 then 0 else EffectRank(moves'[k].state) - EffectRank(moves[k].state)
    decreases |moves|
  {
    if moves != [] {
      var n := |moves| - 1;
      MovesRankStep(moves[..n], moves'[..n], if k == n then -1 else k);
    }
  }

  lemma {:induction false} ContainersRankStep(containers: seq<Container>, containers': seq<Container>, k: int)
    requires |containers| == |containers'| && -1 <= k < |containers|
    requires forall i :: 0 <= i < |containers| && i != k ==> containers[i].state == containers'[i].state
    ensures ContainersRank(containers')
         == ContainersRank(containers) + if k < 0 then 0 else EffectRank(containers'[k].state) - EffectRank(containers[k].state)
    decreases |containers|
  {
    if containers != [] {
      var n := |containers| - 1;
      ContainersRankStep(containers[..n], containers'[..n], if k == n then -1 else k);
    }
  }

  lemma {:induction false} RankBounds(moves: seq<Move>, containers: seq<Container>)
    ensures MovesRank(moves) <= 2 * |moves| && ContainersRank(containers) <= 2 * |containers|
    ensures (forall m :: m in moves ==> m.state == Completed) ==> MovesRank(moves) == 2 * |moves|
    ensures (forall m :: m in moves ==> m.state == NotStarted) ==> MovesRank(moves) == 0
    ensures (forall c :: c in containers ==> c.state == Completed) ==> ContainersRank(containers) == 2 * |containers|
    ensures (forall c :: c in containers ==> c.state == NotStarted) ==> ContainersRank(containers) == 0
    decreases |moves| + |containers|
  {
    if moves != [] {
      RankBounds(moves[..|moves| - 1], containers);
    } else if containers != [] {
      RankBounds(moves, containers[..|containers| - 1]);
    }
  }

  lemma MoveSwapRank(op: Operation, source: string, state: EffectState)
    requires DistinctMoves(op) && FindMove(op.moves, source).Some?
    ensures Rank(WithMoveState(op, source, state))
         == Rank(op) + EffectRank(state) - EffectRank(FindMove(op.moves, source).value.state)
  {
    var k := MoveIndex(op, source);
    MovesRankStep(op.moves, WithMoveState(op, source, state).moves, k);
  }

  lemma ContainerSwapRank(op: Operation, k: int, state: EffectState, identity: Option<Identity>)
    requires DistinctContainers(op) && 0 <= k < |op.containers| && op.phase == Archiving
    ensures Rank(WithContainerState(op, op.containers[k].path, state, identity))
         == Rank(op) + EffectRank(state) - EffectRank(op.containers[k].state)
  {
    ContainersRankStep(op.containers, WithContainerState(op, op.containers[k].path, state, identity).containers, k);
  }

  lemma ContainerSwapRaisesRank(w: World, op: Operation, l: Label)
    requires DistinctContainers(op) && SessionInv(w.session, op) && Enabled(w, op, l)
    requires l.IssueContainer? || l.CompleteContainer?
    ensures Rank(Next(w, op, l).pending.value) == Rank(op) + 1
  {
    if l.IssueContainer? {
      var c := FindContainer(op.containers, l.path).value;
      var k :| 0 <= k < |op.containers| && op.containers[k] == c;
      ContainerSwapRank(op, k, Issued, None);
    } else {
      var k :| 0 <= k < |op.containers| && op.containers[k].path == l.path && op.containers[k].state == Issued;
      ContainerSwapRank(op, k, Completed, Some(w.dirs[l.path]));
    }
  }

  lemma MoveSwapRaisesRank(w: World, op: Operation, l: Label)
    requires DistinctMoves(op) && Enabled(w, op, l) && (l.IssueMove? || l.CompleteMove?)
    ensures Rank(Next(w, op, l).pending.value) == Rank(op) + 1
  {
    MoveSwapRank(op, l.source, if l.IssueMove? then Issued else Completed);
  }

  /** Each compare-and-swap moves the journal forward by exactly one, and nothing else moves it. */
  lemma SwapRaisesRank(w: World, op: Operation, l: Label)
    requires Usable(op) && SessionInv(w.session, op) && Enabled(w, op, l) && w.pending == Some(op)
    ensures l != Retire ==> Next(w, op, l).pending.Some?
    ensures Rank(if l == Retire then op else Next(w, op, l).pending.value) == Rank(op) + if SwapsJournal(l) then 1 else 0
  {
    match l {
      case IssueContainer(path) => ContainerSwapRaisesRank(w, op, l);
      case CompleteContainer(path) => ContainerSwapRaisesRank(w, op, l);
      case IssueMove(source) => MoveSwapRaisesRank(w, op, l);
      case CompleteMove(source) => MoveSwapRaisesRank(w, op, l);
      case _ =>
    }
  }

  lemma {:induction false} SwapsAreRank(base: Baseline, trace: seq<World>, labels: seq<Label>)
    requires BaseRun(base, trace, labels)
    ensures trace[|labels|].pending.Some? || trace[|labels|].retired.Some?
    ensures Rank(Image(trace[|labels|])) == Rank(base.op) + Swaps(labels)
    decreases |labels|
  {
    var n := |labels|;
    if n > 0 {
      SwapsAreRank(base, trace[..n], labels[..n - 1]);
      RunImage(base, trace, labels, n - 1);
      var w := trace[n - 1];
      assert Step(w, labels[n - 1], trace[n]);
      SwapRaisesRank(w, w.pending.value, labels[n - 1]);
    }
  }

  lemma RankOfPhase(op: Operation)
    requires ProgressSound(op)
    ensures Rank(op) <= 2 * |op.moves| + 2 * |op.containers| + 4
    ensures op.phase == Complete <==> Rank(op) == 2 * |op.moves| + 2 * |op.containers| + 4
    ensures op.phase == Intent ==> Rank(op) == 0
  {
    RankBounds(op.moves, op.containers);
  }

  lemma SamePlanSameSize(op: Operation, op': Operation)
    requires SamePlan(op, op')
    ensures |op.moves| == |op'.moves| && |op.containers| == |op'.containers|
  {
    assert |ImmutablePlan(op).moves| == |op.moves| && |ImmutablePlan(op').moves| == |op'.moves|;
    assert |ImmutablePlan(op).containers| == |op.containers| && |ImmutablePlan(op').containers| == |op'.containers|;
  }

  /** Over all crashes and resumes at most 2 swaps per move, 2 per container and 4 for the phases;
      a run has got the operation complete exactly when it has made that many. */
  lemma SwapBound(trace: seq<World>, labels: seq<Label>)
    requires OperationRun(trace, labels)
    ensures trace[|labels|].pending.Some? || trace[|labels|].retired.Some?
    ensures var op := trace[0].pending.value;
            var bound := 2 * |op.moves| + 2 * |op.containers| + 4;
            Swaps(labels) <= bound && (Image(trace[|labels|]).phase == Complete <==> Swaps(labels) == bound)
  {
    Grounded(trace, labels);
    var base := BaselineOf(trace[0]);
    SwapsAreRank(base, trace, labels);
    RunImage(base, trace, labels, |labels|);
    RunImage(base, trace, labels, 0);
    RankOfPhase(base.op);
    RankOfPhase(Image(trace[|labels|]));
    SamePlanSameSize(base.op, Image(trace[|labels|]));
  }

  // ---------------------------------------------------------------- the files

  /** Where one captured file is, in terms of the file found when the plan was published. */
  predicate OnlyAtSource(w: World, m: PlannedMove, file: FileRecord) {
    m.source in w.files && w.files[m.source] == file && m.target !in w.files
  }

  predicate OnlyAtTarget(w: World, m: PlannedMove, file: FileRecord) {
    m.source !in w.files && m.target in w.files && w.files[m.target] == file
  }

  /** What the state of a move says about its file. */
  predicate InCustody(w: World, m: PlannedMove, file: FileRecord, state: EffectState, open: bool) {
    && (open ==> OnlyAtSource(w, m, file) != OnlyAtTarget(w, m, file))
    && (state == NotStarted ==> OnlyAtSource(w, m, file))
    && (open && state == Completed ==> OnlyAtTarget(w, m, file))
    && (!open ==> m.target in w.files && w.files[m.target] == file)
  }

  /** The inventory entry of a move carries the identity the move names. */
  lemma InventoryIdentity(plan: Plan, k: nat)
    requires PlanSound(plan) && k < |plan.moves|
    ensures Find(plan.inventory, plan.moves[k].source).Some?
    ensures Find(plan.inventory, plan.moves[k].source).value.identity == plan.moves[k].sourceIdentity
  {
    hide PathsSound, ContainersSound, SizesSound, PreservedSound;
    assert MovesSound(plan) && plan.moves[k] in plan.moves && MoveSound(plan, plan.moves[k]);
    var f := Find(plan.inventory, plan.moves[k].source).value;
    assert InventoryMatched(plan) && f in plan.inventory;
    var move :| move in plan.moves && move.source == f.path && move.sourceIdentity == f.identity;
    var j :| 0 <= j < |plan.moves| && plan.moves[j] == move;
    SoundPlanIsDistinct(plan, j, k);
  }

  lemma CustodyOfFile(w: World, op: Operation, files0: map<string, FileRecord>, op0: Operation, k: nat)
    requires MovesInv(w.files, op) && MovesInv(files0, op0) && ProgressSound(op) && AllMoves(op0, NotStarted) && DistinctMoves(op)
    requires k < |op.moves| == |op0.moves| && SamePlan(op0, op)
    ensures var m := ImmutablePlan(op0).moves[k];
            && m.source in files0
            && InCustody(w, m, files0[m.source], op.moves[k].state, ArchiveOpen(op))
  {
    var plan, plan0 := ImmutablePlan(op), ImmutablePlan(op0);
    assert plan.moves[k] == plan0.moves[k] && plan.inventory == plan0.inventory;
    assert Custody(w.files, op, op.moves[k]) && Custody(files0, op0, op0.moves[k]);
    assert op0.moves[k] in op0.moves && op.moves[k] in op.moves;
    assert op.moves[k].source != op.moves[k].target;
  }

  /** Nothing archived is ever lost or duplicated: until archiving finishes each captured file, with
      its captured identity and bytes, is at exactly one of its two places, the one the journal's
      state admits; and from then on it stays in the archive for good. */
  lemma Custodian(trace: seq<World>, labels: seq<Label>, i: nat, k: nat)
    requires OperationRun(trace, labels) && i < |trace| && k < |trace[0].pending.value.moves|
    ensures trace[i].pending.Some? || trace[i].retired.Some?
    ensures var op := Image(trace[i]);
            var m := ImmutablePlan(trace[0].pending.value).moves[k];
            && |op.moves| == |trace[0].pending.value.moves| && m.source in trace[0].files
            && trace[0].files[m.source].identity == m.sourceIdentity
            && InCustody(trace[i], m, trace[0].files[m.source], op.moves[k].state, ArchiveOpen(op))
  {
    Grounded(trace, labels);
    var base := BaselineOf(trace[0]);
    RunImage(base, trace, labels, i);
    RunImage(base, trace, labels, 0);
    SamePlanSameSize(base.op, Image(trace[i]));
    CustodyOfFile(trace[i], Image(trace[i]), base.files, base.op, k);
    InventoryIdentity(ImmutablePlan(base.op), k);
    assert Custody(base.files, base.op, base.op.moves[k]) && base.op.moves[k] in base.op.moves;
  }

  function MovesOf(labels: seq<Label>, source: string): nat {
    if labels == [] then 0
    else MovesOf(labels[..|labels| - 1], source) + if labels[|labels| - 1] == MoveFile(source) then 1 else 0
  }

  /** Once a file has been moved it is not at its source while the archive is open. */
  predicate MovedAway(w: World, op: Operation, source: string) {
    FindMove(op.moves, source).Some? && (ArchiveOpen(op) ==> source !in w.files)
  }

  lemma MovedStaysAway(w: World, op: Operation, l: Label, source: string)
    requires Usable(op) && SessionInv(w.session, op) && Enabled(w, op, l) && w.pending == Some(op) && l != Retire
    ensures l == MoveFile(source) ==> source in w.files && op.phase == Archiving
    ensures l == MoveFile(source) || MovedAway(w, op, source) ==> MovedAway(Next(w, op, l), Next(w, op, l).pending.value, source)
  {
    hide CurrentOperation, MaintenanceBinding, OperationConfig, ProgressSound, FreshOutputs, RightOutputs, AllEffects, DirectoryOwned,
      OutputsPublished, ContainersCompleted, FindContainer, Find;
    var w', op' := Next(w, op, l), Next(w, op, l).pending.value;
    if l == MoveFile(source) || MovedAway(w, op, source) {
      var k := MoveIndex(op, source);
      FindMoveKept(op.moves, op'.moves, source);
      if l.MoveFile? {
        var j := MoveIndex(op, l.source);
        assert op.moves[k].source != op.moves[j].target;
      }
    }
  }

  lemma MovedStep(base: Baseline, w: World, l: Label, w': World, source: string)
    requires Usable(base.op) && Inv(base, w) && Step(w, l, w')
    ensures w'.pending.Some? || w'.retired.Some?
    ensures l == MoveFile(source) ==> !MovedAway(w, Image(w), source)
    ensures l == MoveFile(source) || MovedAway(w, Image(w), source) ==> MovedAway(w', Image(w'), source)
  {
    SamePlanSameUse(base.op, w.pending.value);
    if l != Retire {
      MovedStaysAway(w, w.pending.value, l, source);
    }
  }

  lemma {:induction false} MovedOnceFrom(base: Baseline, trace: seq<World>, labels: seq<Label>, source: string)
    requires BaseRun(base, trace, labels)
    ensures MovesOf(labels, source) <= 1
    ensures trace[|labels|].pending.Some? || trace[|labels|].retired.Some?
    ensures MovesOf(labels, source) == 1 ==> MovedAway(trace[|labels|], Image(trace[|labels|]), source)
    decreases |labels|
  {
    hide Inv, Captured, Usable, Step, MovedAway, Image;
    var n := |labels|;
    if n > 0 {
      MovedOnceFrom(base, trace[..n], labels[..n - 1], source);
      RunKeepsInv(base, trace, labels, n - 1);
      assert Step(trace[n - 1], labels[n - 1], trace[n]);
      MovedStep(base, trace[n - 1], labels[n - 1], trace[n], source);
    }
  }

  /** Nothing else is touched: every other file of the repository is still there with its identity and
      bytes, and until the initializer runs the only new files are archive copies. */
  lemma OtherFilesUntouched(trace: seq<World>, labels: seq<Label>, i: nat, path: string)
    requires OperationRun(trace, labels) && i < |trace|
    ensures trace[i].pending.Some? || trace[i].retired.Some?
    ensures path in trace[0].files && !IsSource(trace[0].pending.value, path) ==>
              path in trace[i].files && trace[i].files[path] == trace[0].files[path]
    ensures path in trace[i].files && ArchiveOpen(Image(trace[i])) ==> path in trace[0].files || IsTarget(trace[0].pending.value, path)
  {
    Grounded(trace, labels);
    RunImage(BaselineOf(trace[0]), trace, labels, i);
  }

  lemma GuardedIsNotMoved(plan: Plan, i: nat, guard: string)
    requires PlanSound(plan) && i < |plan.moves| && guard in plan.protectedPaths
    ensures guard != "."
    ensures !(Fold(guard) == Fold(plan.moves[i].source) || Fold(guard) + "/" <= Fold(plan.moves[i].source) || Fold(plan.moves[i].source) + "/" <= Fold(guard))
    ensures !(Fold(guard) == Fold(plan.moves[i].target) || Fold(guard) + "/" <= Fold(plan.moves[i].target) || Fold(plan.moves[i].target) + "/" <= Fold(guard))
  {
    hide PathsSound, ContainersSound, SizesSound, Fold;
    assert MoveSound(plan, plan.moves[i]);
    assert !Protects(guard, plan.moves[i]);
  }

  /** No file at, above or below a protected path is ever moved or changed, and nothing is archived to such
      a place. */
  lemma ProtectedIsLeftAlone(trace: seq<World>, labels: seq<Label>, i: nat, guard: string, path: string)
    requires OperationRun(trace, labels) && i < |trace| && trace[0].pending.Some? && guard in trace[0].pending.value.protectedPaths
    requires guard == "." || Fold(guard) == Fold(path) || Fold(guard) + "/" <= Fold(path) || Fold(path) + "/" <= Fold(guard)
    ensures path in trace[0].files ==> path in trace[i].files && trace[i].files[path] == trace[0].files[path]
    ensures forall k :: 0 <= k < |labels| ==> labels[k] != MoveFile(path)
    ensures (trace[i].pending.Some? || trace[i].retired.Some?)
    ensures path !in trace[0].files && path in trace[i].files ==> !ArchiveOpen(Image(trace[i]))
  {
    hide Fold, Published, BaseRun, PlanSound;
    Grounded(trace, labels);
    var op := trace[0].pending.value;
    NotAnEndpoint(op, guard, path);
    OtherFilesUntouched(trace, labels, i, path);
    forall k | 0 <= k < |labels| ensures labels[k] != MoveFile(path) {
      if labels[k] == MoveFile(path) {
        MovesSources(trace, labels, k, path);
      }
    }
  }

  lemma NotAnEndpoint(op: Operation, guard: string, path: string)
    requires PlanSound(ImmutablePlan(op)) && guard in op.protectedPaths
    requires guard == "." || Fold(guard) == Fold(path) || Fold(guard) + "/" <= Fold(path) || Fold(path) + "/" <= Fold(guard)
    ensures !IsSource(op, path) && !IsTarget(op, path)
  {
    hide PlanSound, Fold;
    var plan := ImmutablePlan(op);
    forall k | 0 <= k < |op.moves| ensures op.moves[k].source != path && op.moves[k].target != path {
      GuardedIsNotMoved(plan, k, guard);
      assert plan.moves[k].source == op.moves[k].source && plan.moves[k].target == op.moves[k].target;
    }
  }

  /** Only a source is ever moved. */
  lemma MovesSources(trace: seq<World>, labels: seq<Label>, k: nat, path: string)
    requires OperationRun(trace, labels) && k < |labels| && labels[k] == MoveFile(path)
    ensures trace[0].pending.Some? && IsSource(trace[0].pending.value, path)
  {
    Grounded(trace, labels);
    var base := BaselineOf(trace[0]);
    RunImage(base, trace, labels, k);
    assert Step(trace[k], labels[k], trace[k + 1]);
    hide Published, BaseRun, InvOf, Usable;
    var op := trace[k].pending.value;
    var j := MoveIndex(op, path);
    SamePlanOf(base, trace[k], op);
    assert ImmutablePlan(op).moves[j].source == path;
    assert ImmutablePlan(base.op).moves[j].source == base.op.moves[j].source;
  }

  lemma SamePlanOf(base: Baseline, w: World, op: Operation)
    requires InvOf(base, w, op)
    ensures ImmutablePlan(op) == ImmutablePlan(base.op)
  {
  }

  /** A native move of a file happens at most once, however often its process crashes around it. */
  lemma MovedAtMostOnce(trace: seq<World>, labels: seq<Label>, source: string)
    requires OperationRun(trace, labels)
    ensures MovesOf(labels, source) <= 1
  {
    Grounded(trace, labels);
    MovedOnceFrom(BaselineOf(trace[0]), trace, labels, source);
  }

  // ---------------------------------------------------------------- the fence

  /** A step that changes the repository, the journal or the fence on behalf of the operation. */
  predicate Effect(l: Label) {
    SwapsJournal(l) || l.CreateDirectory? || l.MoveFile? || l.WriteOutput? || l.Release?
  }

  function CapturedBinding(start: World): Option<FenceBinding> {
    if start.pending.Some? then MaintenanceBinding(start, start.pending.value) else None
  }

  lemma EffectNeedsSession(w: World, op: Operation, l: Label)
    requires Enabled(w, op, l) && Effect(l)
    ensures w.session.Up?
  {
  }

  /** No effect happens but under the held fence of this operation, with the binding captured at the
      start; and the fence is released only once the operation is complete. */
  lemma EffectsAreFenced(trace: seq<World>, labels: seq<Label>, i: nat)
    requires OperationRun(trace, labels) && i < |labels|
    ensures CapturedBinding(trace[0]).Some?
    ensures Effect(labels[i]) ==> trace[i].fence == Held(CapturedBinding(trace[0]).value)
    ensures labels[i] == Release ==> trace[i].pending.Some? && trace[i].pending.value.phase == Complete && trace[i + 1].fence == Released(CapturedBinding(trace[0]).value)
  {
    Grounded(trace, labels);
    var base := BaselineOf(trace[0]);
    RunImage(base, trace, labels, i);
    assert Step(trace[i], labels[i], trace[i + 1]);
    if Effect(labels[i]) {
      EffectNeedsSession(trace[i], trace[i].pending.value, labels[i]);
    }
  }

  /** The captured configuration names the projects of the fence, each with its root's identity. */
  lemma CapturedProjects(base: Baseline)
    requires Captured(base)
    ensures CONFIG_PATH in base.files && base.files[CONFIG_PATH].content.config.Some? && base.binding.binding == base.op.binding
    ensures var projects := base.files[CONFIG_PATH].content.config.value.projects;
            && |base.binding.projects| == |projects|
            && forall k :: 0 <= k < |projects| ==>
                 && projects[k].root in base.dirs
                 && base.binding.projects[k].project == projects[k] && base.binding.projects[k].identity == base.dirs[projects[k].root]
  {
    ConfigAtStart(base.files, base.op);
    hide CurrentOperation, Covers, OperationConfig;
  }

  /** As long as a process is up the fence is held for this operation, and names every project of the
      captured configuration, in its order, each with the identity its root had at the start. */
  lemma FenceNamesEveryProject(trace: seq<World>, labels: seq<Label>, i: nat)
    requires OperationRun(trace, labels) && i < |trace| && trace[i].session.Up?
    ensures trace[0].pending.Some? && CONFIG_PATH in trace[0].files && trace[0].files[CONFIG_PATH].content.config.Some?
    ensures trace[i].fence.Held? && trace[i].fence.binding.binding == trace[0].pending.value.binding
    ensures var projects, fenced := trace[0].files[CONFIG_PATH].content.config.value.projects, trace[i].fence.binding.projects;
            && |fenced| == |projects|
            && forall k :: 0 <= k < |projects| ==>
                 && projects[k].root in trace[0].dirs
                 && fenced[k].project == projects[k] && fenced[k].identity == trace[0].dirs[projects[k].root]
  {
    Grounded(trace, labels);
    var base := BaselineOf(trace[0]);
    RunImage(base, trace, labels, i);
    CapturedProjects(base);
  }

  ghost predicate ReleasedBy(w: World, binding: FenceBinding) {
    w.fence == Released(binding)
  }

  lemma AcquireEnabled(base: Baseline, w: World, op: Operation)
    requires Sound(base) && InvOf(base, w, op) && w.session.Down?
    requires base.binding.binding == base.op.binding
    ensures Enabled(w, op, Acquire) <==> !ReleasedBy(w, base.binding)
  {
    BindingIsConstant(base, w, op);
  }

  /** The configuration and the binding recomputed at any point are the captured ones, also after a new
      configuration was written where the old one was; so a new process always attaches to the fence,
      unless the operation has already released it. */
  lemma ResumeAlwaysAttaches(trace: seq<World>, labels: seq<Label>, i: nat)
    requires OperationRun(trace, labels) && i < |trace| && trace[i].pending.Some?
    ensures var op := trace[i].pending.value;
            && OperationConfig(trace[i].files, op) == OperationConfig(trace[0].files, trace[0].pending.value)
            && MaintenanceBinding(trace[i], op) == CapturedBinding(trace[0])
            && (trace[i].session.Down? ==>
                  (Enabled(trace[i], op, Acquire) <==> !ReleasedBy(trace[i], CapturedBinding(trace[0]).value)))
  {
    Grounded(trace, labels);
    var base := BaselineOf(trace[0]);
    RunImage(base, trace, labels, i);
    BindingIsConstant(base, trace[i], trace[i].pending.value);
    if trace[i].session.Down? {
      AcquireEnabled(base, trace[i], trace[i].pending.value);
    }
  }

  // ---------------------------------------------------------------- the one crash that cannot be resumed

  /** A container was issued by a process that is gone. */
  ghost predicate Stuck(w: World) {
    && w.pending.Some?
    && exists k :: 0 <= k < |w.pending.value.containers| && StuckAt(w, k)
  }

  ghost predicate StuckAt(w: World, k: int)
    requires w.pending.Some? && 0 <= k < |w.pending.value.containers|
  {
    var c := w.pending.value.containers[k];
    c.state == Issued && w.session != Up(Some(c.path))
  }

  lemma StuckAllowsNothing(base: Baseline, w: World, l: Label, k: int)
    requires Sound(base) && w.pending.Some? && InvOf(base, w, w.pending.value)
    requires 0 <= k < |w.pending.value.containers| && StuckAt(w, k)
    requires Enabled(w, w.pending.value, l)
    ensures l == Acquire || l == Crash
  {
    var op := w.pending.value;
    SamePlanSameUse(base.op, op);
    assert op.containers[k] in op.containers;
    assert !ContainersCompleted(op) && !AllEffects(op, Completed);
    match l {
      case CreateDirectory(path, _) => StuckMeansNotCreating(w, op, k);
      case CompleteContainer(path) => StuckMeansNotCreating(w, op, k);
      case MoveFile(source) => UnissuedMove(op, k, source);
      case CompleteMove(source) => UnissuedMove(op, k, source);
      case _ =>
    }
  }

  lemma UnissuedMove(op: Operation, k: int, source: string)
    requires MovesInOrder(op) && 0 <= k < |op.containers| && op.containers[k].state != Completed
    ensures FindMove(op.moves, source).Some? ==> FindMove(op.moves, source).value.state == NotStarted
  {
    MovesAfterContainers(op, k);
  }

  lemma StuckMeansNotCreating(w: World, op: Operation, k: int)
    requires SessionInv(w.session, op) && ContainersInv(w.dirs, op) && w.pending == Some(op)
    requires 0 <= k < |op.containers| && StuckAt(w, k)
    ensures w.session.Up? ==> w.session.creating.None?
  {
  }

  lemma StuckStep(base: Baseline, w: World, l: Label, w': World)
    requires Sound(base) && Inv(base, w) && Step(w, l, w') && Stuck(w)
    ensures w' == w.(session := w'.session) && Stuck(w')
  {
    var op := w.pending.value;
    var k :| 0 <= k < |op.containers| && StuckAt(w, k);
    StuckAllowsNothing(base, w, l, k);
    BindingIsConstant(base, w, op);
    StuckPhase(base, w, op, k);
    assert StuckAt(w', k);
  }

  lemma StuckNext(base: Baseline, trace: seq<World>, labels: seq<Label>, j: nat)
    requires BaseRun(base, trace, labels) && j < |labels| && Stuck(trace[j])
    ensures trace[j + 1] == trace[j].(session := trace[j + 1].session) && Stuck(trace[j + 1])
  {
    RunKeepsInv(base, trace, labels, j);
    assert Step(trace[j], labels[j], trace[j + 1]);
    StuckStep(base, trace[j], labels[j], trace[j + 1]);
  }

  lemma {:induction false} StuckFrom(base: Baseline, trace: seq<World>, labels: seq<Label>, i: nat, j: nat)
    requires BaseRun(base, trace, labels) && i <= j < |trace| && Stuck(trace[i])
    ensures trace[j] == trace[i].(session := trace[j].session) && Stuck(trace[j])
    decreases j
  {
    hide Inv, Captured, Usable, Stuck, Step;
    if i < j {
      StuckFrom(base, trace, labels, i, j - 1);
      StuckNext(base, trace, labels, j - 1);
    }
  }

  /** Once that has happened nothing but coming and going of processes ever happens again: every later
      resume acquires the fence and leaves the journal, the files and the directories as they are. */
  lemma StuckForever(trace: seq<World>, labels: seq<Label>, i: nat, j: nat)
    requires OperationRun(trace, labels) && i <= j < |trace| && Stuck(trace[i])
    ensures trace[j] == trace[i].(session := trace[j].session) && Stuck(trace[j])
  {
    Grounded(trace, labels);
    StuckFrom(BaselineOf(trace[0]), trace, labels, i, j);
  }

  lemma StuckPhase(base: Baseline, w: World, op: Operation, k: int)
    requires InvOf(base, w, op) && 0 <= k < |op.containers| && op.containers[k].state == Issued
    ensures op.phase == Archiving
  {
    assert op.containers[k] in op.containers;
  }

  /** Every archive directory exists before anything is created in it. */
  lemma ParentExistsBeforeChild(trace: seq<World>, labels: seq<Label>, i: nat, k: nat)
    requires OperationRun(trace, labels) && i < |trace| && k < |trace[0].pending.value.containers|
    ensures trace[i].pending.Some? || trace[i].retired.Some?
    ensures |Image(trace[i]).containers| == |trace[0].pending.value.containers|
    ensures var op := Image(trace[i]);
            var parent := Dirname(op.containers[k].path);
            op.containers[k].state != NotStarted && parent != ".agent" ==>
              exists p :: 0 <= p < k && op.containers[p].path == parent && op.containers[p].state == Completed && parent in trace[i].dirs
  {
    Grounded(trace, labels);
    var base := BaselineOf(trace[0]);
    RunImage(base, trace, labels, i);
    RunImage(base, trace, labels, 0);
    var op := Image(trace[i]);
    SamePlanSameSize(base.op, op);
    var plan := ImmutablePlan(base.op);
    var p := ParentComesFirst(plan, k);
    assert plan.containers[k] == op.containers[k].path by { assert ImmutablePlan(op).containers[k] == op.containers[k].path; }
    if op.containers[k].state != NotStarted && Dirname(op.containers[k].path) != ".agent" {
      assert plan.containers[p] == op.containers[p].path by { assert ImmutablePlan(op).containers[p] == op.containers[p].path; }
      assert ContainerInv(trace[i].dirs, op.containers[p]);
    }
  }

  // ---------------------------------------------------------------- retirement

  function HistoryOf(op: Operation): string {
    HISTORY_ROOT + "/" + op.operationId
  }

  lemma HistoryIsOwned(plan: Plan)
    requires PlanSound(plan)
    ensures HISTORY_ROOT + "/" + plan.operationId in plan.containers <==> plan.moves != []
  {
    var history := HISTORY_ROOT + "/" + plan.operationId;
    if plan.moves != [] {
      var move := plan.moves[0];
      assert MovesSound(plan) && MoveSound(plan, move);
      assert history + "/" <= plan.archiveRoot <= move.target;
      assert |history| > 6;
      assert OwnedAncestor(plan, history);
    } else {
      assert !OwnedAncestor(plan, history);
    }
  }

  lemma HistoryDirectory(w: World, op: Operation)
    requires PlanSound(ImmutablePlan(op)) && ContainersInv(w.dirs, op) && ContainersCompleted(op)
    ensures DirectoryOwned(w, op, HistoryOf(op)) <==> op.moves != []
  {
    var plan := ImmutablePlan(op);
    HistoryIsOwned(plan);
    var c := FindContainer(op.containers, HistoryOf(op));
    if c.Some? {
      var k :| 0 <= k < |op.containers| && op.containers[k] == c.value;
      assert ContainerInv(w.dirs, op.containers[k]);
      assert plan.containers[k] == HistoryOf(op);
    }
    assert forall k :: 0 <= k < |plan.containers| ==> op.containers[k] in op.containers && plan.containers[k] == op.containers[k].path;
  }

  lemma CompleteContainers(op: Operation)
    requires ProgressSound(op) && op.phase == Complete
    ensures ContainersCompleted(op)
  {
  }

  lemma ReleasedUnderCaptured(base: Baseline, w: World, op: Operation)
    requires Sound(base) && InvOf(base, w, op) && w.fence.Released? && op.phase == Complete
    ensures MaintenanceBinding(w, op).Some? && w.fence == Released(MaintenanceBinding(w, op).value)
  {
    BindingIsConstant(base, w, op);
  }

  lemma SamePlanHistory(op0: Operation, w: World, op: Operation)
    requires PlanSound(ImmutablePlan(op0)) && SamePlan(op0, op) && ContainersInv(w.dirs, op) && ContainersCompleted(op)
    ensures DirectoryOwned(w, op, HistoryOf(op)) <==> op.moves != []
  {
    HistoryDirectory(w, op);
  }

  lemma RetireGuard(w: World, op: Operation)
    requires w.session.Down? && op.phase == Complete && op.prepared.Some? && OutputsPublished(w.files, op.prepared.value.outputs)
    requires MaintenanceBinding(w, op).Some? && w.fence == Released(MaintenanceBinding(w, op).value)
    ensures Enabled(w, op, Retire) <==> DirectoryOwned(w, op, HistoryOf(op))
  {
  }

  lemma RetireEnabled(base: Baseline, w: World, op: Operation)
    requires Sound(base) && PlanSound(ImmutablePlan(base.op)) && InvOf(base, w, op)
    requires w.session.Down? && w.fence.Released? && op.phase == Complete
    ensures Enabled(w, op, Retire) <==> op.moves != []
  {
    ReleasedUnderCaptured(base, w, op);
    CompleteContainers(op);
    SamePlanHistory(base.op, w, op);
    RetireGuard(w, op);
  }

  /** The capture always archives the configuration: it is there and cannot be preserved. */
  lemma ConfigIsMoved(base: Baseline)
    requires Captured(base) && PlanSound(ImmutablePlan(base.op))
    ensures base.op.moves != []
  {
    hide PathsSound, MovesSound, ContainersSound, SizesSound;
    var plan := ImmutablePlan(base.op);
    ConfigAtStart(base.files, base.op);
    assert ARCHIVE_SOURCES[1] == CONFIG_PATH;
    assert !Preserved(base.op, CONFIG_PATH) by { ConfigNotPreserved(base.op); }
    var f := Find(plan.inventory, CONFIG_PATH).value;
    assert exists move :: move in plan.moves && move.source == f.path;
  }

  lemma ConfigNotPreserved(op: Operation)
    requires PlanSound(ImmutablePlan(op))
    ensures !Preserved(op, CONFIG_PATH)
  {
    var f := Find(op.preserved, CONFIG_PATH);
    assert f.Some? ==> PreservedSound(ImmutablePlan(op), f.value);
    assert CONFIG_PATH !in PRESERVABLE_SOURCES;
  }

  /** Every complete, released operation can have its metadata retired. */
  lemma AlwaysRetirable(trace: seq<World>, labels: seq<Label>, i: nat)
    requires OperationRun(trace, labels) && i < |trace| && trace[i].pending.Some?
    requires trace[i].session.Down? && trace[i].fence.Released? && trace[i].pending.value.phase == Complete
    ensures Enabled(trace[i], trace[i].pending.value, Retire)
  {
    hide Published, Enabled;
    Grounded(trace, labels);
    var base := BaselineOf(trace[0]);
    RunImage(base, trace, labels, i);
    SamePlanSameSize(base.op, trace[i].pending.value);
    ConfigIsMoved(base);
    RetireEnabled(base, trace[i], trace[i].pending.value);
  }

  // ---------------------------------------------------------------- what the initializer finds

  lemma TargetsAreArchived(plan: Plan, i: nat)
    requires PlanSound(plan) && i < |plan.moves|
    ensures !Foreign(plan.moves[i].target)
  {
    assert MovesSound(plan) && MoveSound(plan, plan.moves[i]);
    assert HISTORY_ROOT + "/" <= plan.archiveRoot <= plan.moves[i].target;
  }

  lemma OutputIsFresh(base: Baseline, w: World, op: Operation, path: string)
    requires PlanSound(ImmutablePlan(base.op)) && SamePlan(base.op, op) && MovesInv(w.files, op) && AllMoves(op, Completed) && ArchiveOpen(op)
    requires FrameInv(base, w.files, true) && Foreign(path) && (path in base.files ==> IsSource(base.op, path))
    ensures path !in w.files
  {
    var plan := ImmutablePlan(base.op);
    assert |op.moves| == |ImmutablePlan(op).moves| == |base.op.moves|;
    forall i | 0 <= i < |base.op.moves|
      ensures base.op.moves[i].target != path && (base.op.moves[i].source == path ==> path !in w.files)
    {
      TargetsAreArchived(plan, i);
      assert plan.moves[i].target == base.op.moves[i].target;
      assert ImmutablePlan(op).moves[i].source == op.moves[i].source && plan.moves[i].source == base.op.moves[i].source;
      assert op.moves[i] in op.moves && Custody(w.files, op, op.moves[i]);
    }
  }

  /** What the initializer is to write and was there before is archived. */
  lemma WrittenWasMoved(base: Baseline, path: string)
    requires Captured(base) && PlanSound(ImmutablePlan(base.op)) && ToWrite(base.op, path) && path in base.files
    ensures IsSource(base.op, path)
  {
    hide PathsSound, MovesSound, ContainersSound, SizesSound;
    var op, plan := base.op, ImmutablePlan(base.op);
    assert !Preserved(op, path) by { ReceiptNotPreserved(op); }
    assert path in ARCHIVE_SOURCES || path in PRESERVABLE_SOURCES by { OutputsAreManaged(path); }
    assert Covers(base.files, op);
    var f := Find(op.inventory, path).value;
    var move :| move in plan.moves && move.source == f.path;
    var i :| 0 <= i < |plan.moves| && plan.moves[i] == move;
    assert op.moves[i].source == path;
  }

  lemma OutputsAreManaged(path: string)
    requires path == RECEIPT_PATH || path in INITIALIZER_OUTPUTS
    ensures path in ARCHIVE_SOURCES || path in PRESERVABLE_SOURCES
  {
    assert ARCHIVE_SOURCES[0] == INITIALIZER_OUTPUTS[0] && ARCHIVE_SOURCES[1] == INITIALIZER_OUTPUTS[2];
    assert ARCHIVE_SOURCES[2] == INITIALIZER_OUTPUTS[3] && ARCHIVE_SOURCES[3] == RECEIPT_PATH;
    assert PRESERVABLE_SOURCES[0] == INITIALIZER_OUTPUTS[1];
  }

  lemma ReceiptNotPreserved(op: Operation)
    requires PlanSound(ImmutablePlan(op))
    ensures !Preserved(op, RECEIPT_PATH)
  {
    var f := Find(op.preserved, RECEIPT_PATH);
    assert f.Some? ==> PreservedSound(ImmutablePlan(op), f.value);
    assert RECEIPT_PATH !in PRESERVABLE_SOURCES;
  }

  lemma ArchivedIsFresh(base: Baseline, w: World, op: Operation)
    requires Captured(base) && PlanSound(ImmutablePlan(base.op)) && InvOf(base, w, op) && op.phase == ArchiveComplete
    ensures FreshOutputs(w.files, op)
  {
    hide PlanSound, Captured, FrameInv, ConfigInv, ContainersInv, FenceInv, MovesInv, ImmutablePlan, ToWrite, Foreign;
    SamePlanFields(base.op, op);
    forall path | path == RECEIPT_PATH || (path in INITIALIZER_OUTPUTS && !Preserved(op, path)) ensures path !in w.files {
      assert ToWrite(base.op, path) by { IsToWrite(base.op, op, path); }
      OutputsAreForeign(path);
      if path in base.files {
        WrittenWasMoved(base, path);
      }
      OutputIsFresh(base, w, op, path);
    }
  }

  lemma IsToWrite(a: Operation, b: Operation, path: string)
    requires a.preserved == b.preserved && (path == RECEIPT_PATH || (path in INITIALIZER_OUTPUTS && !Preserved(b, path)))
    ensures ToWrite(a, path)
  {
  }

  /** Once the archive is complete nothing the initializer is to write is there: its check for fresh outputs
      never refuses what the archive leaves. */
  lemma InitializerFindsItFresh(trace: seq<World>, labels: seq<Label>, i: nat)
    requires OperationRun(trace, labels) && i < |trace| && trace[i].pending.Some? && trace[i].pending.value.phase == ArchiveComplete
    ensures FreshOutputs(trace[i].files, trace[i].pending.value)
  {
    hide Published, FreshOutputs;
    Grounded(trace, labels);
    RunImage(BaselineOf(trace[0]), trace, labels, i);
    ArchivedIsFresh(BaselineOf(trace[0]), trace[i], trace[i].pending.value);
  }
}
