/** Clean initialization as one transition system: the repository's files and directories, the
    pending journal, the Host's maintenance fence, and the process, which a crash takes away. */
module CleanMachine {
  import opened Outcomes
  import opened Paths
  import opened CleanJournal

  datatype FileRecord = FileRecord(identity: Identity, content: Content)
  datatype FencedProject = FencedProject(project: Project, identity: Identity)
  datatype FenceBinding = FenceBinding(binding: Binding, projects: seq<FencedProject>)
  datatype Fence = Free | Held(binding: FenceBinding) | Released(binding: FenceBinding)

  /** Up: a process holds the fence. creating is the container it issued and has yet to record. */
  datatype Session = Down | Up(creating: Option<string>)

  datatype World = World(files: map<string, FileRecord>, dirs: map<string, Identity>, pending: Option<Operation>,
                         retired: Option<Operation>, fence: Fence, session: Session)

  datatype Label =
    | Acquire
    | BeginArchiving
    | IssueContainer(path: string)
    | CreateDirectory(path: string, identity: Identity)
    | CompleteContainer(path: string)
    | IssueMove(source: string)
    | MoveFile(source: string)
    | CompleteMove(source: string)
    | FinishArchive
    | IssueInitialization(prepared: Prepared)
    | WriteOutput(output: Output, identity: Identity)
    | CompleteInitialization
    | Release
    | Retire
    | Crash

  // ---------------------------------------------------------------- observing the repository

  function Find(files: seq<FileObservation>, path: string): (r: Option<FileObservation>)
    ensures r.Some? ==> r.value in files && r.value.path == path
    ensures r.None? ==> forall f :: f in files ==> f.path != path
  {
    if files == [] then None
    else if files[0].path == path then Some(files[0])
    else Find(files[1..], path)
  }

  function FindMove(moves: seq<Move>, source: string): (r: Option<Move>)
    ensures r.Some? ==> r.value in moves && r.value.source == source
    ensures r.None? ==> forall m :: m in moves ==> m.source != source
  {
    if moves == [] then None
    else if moves[0].source == source then Some(moves[0])
    else FindMove(moves[1..], source)
  }

  function FindContainer(containers: seq<Container>, path: string): (r: Option<Container>)
    ensures r.Some? ==> r.value in containers && r.value.path == path
    ensures r.None? ==> forall c :: c in containers ==> c.path != path
  {
    if containers == [] then None
    else if containers[0].path == path then Some(containers[0])
    else FindContainer(containers[1..], path)
  }

  /** assertFileObservationAt: the captured identity, size and digest are found at a path. */
  predicate Holds(files: map<string, FileRecord>, path: string, f: FileObservation) {
    && path in files
    && files[path].identity == f.identity
    && |files[path].content.raw| == f.size
    && Sha256(files[path].content) == f.sha256
  }

  /** operationConfig: the configuration the operation was captured under. */
  function OperationConfig(files: map<string, FileRecord>, op: Operation): Option<RuntimeConfig> {
    var move, original := FindMove(op.moves, CONFIG_PATH), Find(op.inventory, CONFIG_PATH);
    if move.Some? && original.Some?
       && (move.value.state == Completed
           || (move.value.state == Issued && move.value.source !in files && move.value.target in files))
    then
      if Holds(files, move.value.target, original.value) then files[move.value.target].content.config else None
    else if CONFIG_PATH in files then files[CONFIG_PATH].content.config
    else None
  }

  function FencedProjects(dirs: map<string, Identity>, projects: seq<Project>): (r: seq<FencedProject>)
    requires forall p :: p in projects ==> p.root in dirs
    ensures |r| == |projects| && forall i :: 0 <= i < |r| ==> r[i] == FencedProject(projects[i], dirs[projects[i].root])
  {
    seq(|projects|, i requires 0 <= i < |projects| => FencedProject(projects[i], dirs[projects[i].root]))
  }

  /** maintenanceBinding, recomputed from the journal and what the repository now shows. */
  function MaintenanceBinding(w: World, op: Operation): Option<FenceBinding> {
    var config := OperationConfig(w.files, op);
    if config.None? || exists p :: p in config.value.projects && p.root !in w.dirs then None
    else Some(FenceBinding(op.binding, FencedProjects(w.dirs, config.value.projects)))
  }

  predicate Pristine(op: Operation) {
    op.phase == Intent && op.prepared.None? && op.initialization == NotStarted
  }

  /** assertCurrentOperation */
  predicate CurrentOperation(w: World, op: Operation) {
    var config := OperationConfig(w.files, op);
    && "." in w.dirs && w.dirs["."] == op.rootIdentity
    && config.Some?
    && config.value.repositoryId == op.request.repository
    && (forall mapping :: mapping in op.request.projectMappings ==> mapping in config.value.projects && mapping.root in w.dirs)
    && (forall guard :: guard in config.value.protection ==> guard in op.protectedPaths)
    && (Pristine(op) ==> forall f :: f in op.inventory + op.preserved ==> Holds(w.files, f.path, f))
  }

  /** What is below the archive's history directory is the archive's own. */
  predicate Foreign(path: string) {
    !Contains(HISTORY_ROOT, path)
  }

  predicate OutputsPublished(files: map<string, FileRecord>, outputs: seq<Output>) {
    forall o :: o in outputs ==> o.path in files && files[o.path].content == o.content
  }

  /** What the initializer sets up, unless it is preserved; the receipt comes last. */
  const INITIALIZER_OUTPUTS := ["AGENTS.md", "AGENT.sidecar.md", CONFIG_PATH, POLICY_PATH]

  predicate Preserved(op: Operation, path: string) {
    Find(op.preserved, path).Some?
  }

  /** What the initializer is to write. */
  predicate ToWrite(op: Operation, path: string) {
    path == RECEIPT_PATH || (path in INITIALIZER_OUTPUTS && !Preserved(op, path))
  }

  /** prepareInitializationUnderAdmission: none of it is there yet. */
  predicate FreshOutputs(files: map<string, FileRecord>, op: Operation) {
    (forall path :: path in INITIALIZER_OUTPUTS && path in files ==> Preserved(op, path)) && RECEIPT_PATH !in files
  }

  /** A receipt names exactly what is to be written, once each. */
  predicate RightOutputs(op: Operation, outputs: seq<Output>) {
    && DistinctOutputs(outputs)
    && (forall o :: o in outputs ==> ToWrite(op, o.path))
    && (forall path :: path in INITIALIZER_OUTPUTS + [RECEIPT_PATH] && ToWrite(op, path) ==> exists o :: o in outputs && o.path == path)
  }

  predicate DistinctOutputs(outputs: seq<Output>) {
    forall i, j :: 0 <= i < j < |outputs| ==> outputs[i].path != outputs[j].path
  }

  predicate DirectoryOwned(w: World, op: Operation, path: string) {
    var c := FindContainer(op.containers, path);
    && c.Some? && c.value.state == Completed && c.value.identity.Some?
    && path in w.dirs && w.dirs[path] == c.value.identity.value
  }

  // ---------------------------------------------------------------- one step

  /** The guard each write of the driver is behind, in terms of the image it works on. */
  predicate Enabled(w: World, op: Operation, l: Label) {
    match l
    case Acquire =>
      var binding := MaintenanceBinding(w, op);
      && w.session.Down? && CurrentOperation(w, op) && binding.Some?
      && (match w.fence
          case Held(b) => b == binding.value
          case Released(b) => b.binding != op.binding && Pristine(op)
          case Free => Pristine(op))
    case BeginArchiving => w.session == Up(None) && op.phase == Intent
    case IssueContainer(path) =>
      var c := FindContainer(op.containers, path);
      && w.session == Up(None) && op.phase == Archiving
      && c.Some? && c.value.state == NotStarted
      && (path !in w.dirs || path == HISTORY_ROOT)
      && (Dirname(path) == ".agent" || DirectoryOwned(w, op, Dirname(path)))
      && (forall i, j :: 0 <= i < j < |op.containers| && op.containers[j].path == path ==> op.containers[i].state == Completed)
    case CreateDirectory(path, identity) => w.session == Up(Some(path)) && path !in w.dirs
    case CompleteContainer(path) => w.session == Up(Some(path)) && path in w.dirs
    case IssueMove(source) =>
      var m, f := FindMove(op.moves, source), Find(op.inventory, source);
      && w.session == Up(None) && op.phase == Archiving && ContainersCompleted(op)
      && m.Some? && m.value.state == NotStarted && f.Some?
      && Holds(w.files, source, f.value) && m.value.target !in w.files
      && DirectoryOwned(w, op, Dirname(m.value.target))
      && (forall i, j :: 0 <= i < j < |op.moves| && op.moves[j].source == source ==> op.moves[i].state == Completed)
    case MoveFile(source) =>
      var m, f := FindMove(op.moves, source), Find(op.inventory, source);
      && w.session == Up(None) && op.phase == Archiving
      && m.Some? && m.value.state == Issued && f.Some?
      && Holds(w.files, source, f.value) && m.value.target !in w.files
      && DirectoryOwned(w, op, Dirname(m.value.target))
    case CompleteMove(source) =>
      var m, f := FindMove(op.moves, source), Find(op.inventory, source);
      && w.session == Up(None) && op.phase == Archiving
      && m.Some? && m.value.state == Issued && f.Some?
      && source !in w.files && Holds(w.files, m.value.target, f.value)
    case FinishArchive => w.session == Up(None) && op.phase == Archiving && AllEffects(op, Completed)
    case IssueInitialization(prepared) =>
      && w.session == Up(None) && op.phase == ArchiveComplete
      && ProgressSound(op.(phase := Initializing, prepared := Some(prepared), initialization := Issued))
      && FreshOutputs(w.files, op) && RightOutputs(op, prepared.outputs)
    case WriteOutput(output, identity) =>
      w.session == Up(None) && op.phase == Initializing && op.prepared.Some? && output in op.prepared.value.outputs && output.path !in w.files
    case CompleteInitialization =>
      w.session == Up(None) && op.phase == Initializing && op.prepared.Some? && OutputsPublished(w.files, op.prepared.value.outputs)
    case Release =>
      && w.session == Up(None) && op.phase == Complete && op.prepared.Some? && OutputsPublished(w.files, op.prepared.value.outputs)
      && MaintenanceBinding(w, op).Some? && w.fence == Held(MaintenanceBinding(w, op).value)
    case Retire =>
      && w.session.Down? && op.phase == Complete && op.prepared.Some? && OutputsPublished(w.files, op.prepared.value.outputs)
      && MaintenanceBinding(w, op).Some? && w.fence == Released(MaintenanceBinding(w, op).value)
      && DirectoryOwned(w, op, HISTORY_ROOT + "/" + op.operationId)
    case Crash => true
  }

  predicate AllMoves(op: Operation, state: EffectState) {
    forall m :: m in op.moves ==> m.state == state
  }

  predicate ContainersCompleted(op: Operation) {
    forall c :: c in op.containers ==> c.state == Completed
  }

  function Journaled(w: World, op: Operation): World { w.(pending := Some(op)) }

  function Next(w: World, op: Operation, l: Label): World
    requires Enabled(w, op, l)
  {
    match l
    case Acquire =>
      w.(session := Up(None), fence := Held(MaintenanceBinding(w, op).value))
    case BeginArchiving => Journaled(w, op.(phase := Archiving))
    case IssueContainer(path) =>
      Journaled(w, WithContainerState(op, path, Issued, None)).(session := Up(Some(path)))
    case CreateDirectory(path, identity) => w.(dirs := w.dirs[path := identity])
    case CompleteContainer(path) =>
      Journaled(w, WithContainerState(op, path, Completed, Some(w.dirs[path]))).(session := Up(None))
    case IssueMove(source) => Journaled(w, WithMoveState(op, source, Issued))
    case MoveFile(source) =>
      w.(files := (w.files - {source})[FindMove(op.moves, source).value.target := w.files[source]])
    case CompleteMove(source) => Journaled(w, WithMoveState(op, source, Completed))
    case FinishArchive => Journaled(w, op.(phase := ArchiveComplete))
    case IssueInitialization(prepared) =>
      Journaled(w, op.(phase := Initializing, prepared := Some(prepared), initialization := Issued))
    case WriteOutput(output, identity) =>
      w.(files := w.files[output.path := FileRecord(identity, output.content)])
    case CompleteInitialization => Journaled(w, op.(phase := Complete, initialization := Completed))
    case Release => w.(fence := Released(w.fence.binding), session := Down)
    case Retire => w.(pending := None, retired := Some(op))
    case Crash => w.(session := Down)
  }

  predicate Step(w: World, l: Label, w': World) {
    w.pending.Some? && Enabled(w, w.pending.value, l) && w' == Next(w, w.pending.value, l)
  }

  /** A whole history of one operation: any number of processes, each possibly cut short. */
  ghost predicate IsRun(trace: seq<World>, labels: seq<Label>) {
    && |trace| == |labels| + 1
    && forall i :: 0 <= i < |labels| ==> Step(trace[i], labels[i], trace[i + 1])
  }

  // ---------------------------------------------------------------- what every step keeps

  /** The identity of an operation is a UUID in small letters. */
  predicate IsUuid(id: string) {
    |id| == 36 && forall i :: 0 <= i < 36 ==>
      if i == 8 || i == 13 || i == 18 || i == 23 then id[i] == '-' else '0' <= id[i] <= '9' || 'a' <= id[i] <= 'f'
  }

  /** What the capture puts into a plan: every managed file there is, to be preserved if it may be, or else
      to be archived. */
  predicate Covers(files: map<string, FileRecord>, op: Operation) {
    && (forall path :: path in PRESERVABLE_SOURCES ==> (Preserved(op, path) <==> path in files))
    && (forall path :: path in ARCHIVE_SOURCES ==> (Find(op.inventory, path).Some? <==> path in files && !Preserved(op, path)))
  }

  /** A repository right after the reviewed plan was published: the plan is the one the capture makes of it,
      nothing is begun and nothing in the way. */
  ghost predicate Published(w: World) {
    && w.pending.Some? && w.retired.None? && w.session.Down?
    && (var op := w.pending.value;
        && Valid(op) && IsUuid(op.operationId) && Covers(w.files, op) && Pristine(op) && CurrentOperation(w, op) && MaintenanceBinding(w, op).Some?
        && !w.fence.Held? && (w.fence.Released? ==> w.fence.binding.binding != op.binding)
        && (forall m :: m in op.moves ==> m.target !in w.files)
        && (forall c :: c in op.containers ==> c.path !in w.dirs || c.path == HISTORY_ROOT))
  }

  predicate AtSource(files: map<string, FileRecord>, m: Move, f: FileObservation) {
    Holds(files, m.source, f) && m.target !in files
  }

  predicate AtTarget(files: map<string, FileRecord>, m: Move, f: FileObservation) {
    m.source !in files && Holds(files, m.target, f)
  }

  predicate ArchiveOpen(op: Operation) {
    op.phase in {Intent, Archiving, ArchiveComplete}
  }

  /** Where the captured file of one move is, by the state the journal gives it. */
  predicate Custody(files: map<string, FileRecord>, op: Operation, m: Move) {
    var f := Find(op.inventory, m.source);
    && f.Some?
    && match m.state
       case NotStarted => AtSource(files, m, f.value)
       case Issued => AtSource(files, m, f.value) || AtTarget(files, m, f.value)
       case Completed => Holds(files, m.target, f.value) && (ArchiveOpen(op) ==> AtTarget(files, m, f.value))
  }

  ghost predicate MovesInv(files: map<string, FileRecord>, op: Operation) {
    forall i :: 0 <= i < |op.moves| ==> Custody(files, op, op.moves[i])
  }

  ghost predicate MovesInOrder(op: Operation) {
    && (forall i, j :: 0 <= i < j < |op.moves| && op.moves[j].state != NotStarted ==> op.moves[i].state == Completed)
    && (forall j :: 0 <= j < |op.moves| && op.moves[j].state != NotStarted ==> ContainersCompleted(op))
  }

  predicate ContainerInv(dirs: map<string, Identity>, c: Container) {
    && (c.state == Completed ==> c.identity.Some? && c.path in dirs && dirs[c.path] == c.identity.value)
    && (c.state == NotStarted ==> c.path !in dirs || c.path == HISTORY_ROOT)
  }

  ghost predicate ContainersInv(dirs: map<string, Identity>, op: Operation) {
    && (forall i :: 0 <= i < |op.containers| ==> ContainerInv(dirs, op.containers[i]))
    && (forall i, j :: 0 <= i < j < |op.containers| && op.containers[j].state != NotStarted ==> op.containers[i].state == Completed)
  }

  /** The process creates exactly the container the journal calls issued. */
  ghost predicate SessionInv(session: Session, op: Operation) {
    session.Up? && session.creating.Some? ==>
      && op.phase == Archiving && AllMoves(op, NotStarted)
      && exists i :: 0 <= i < |op.containers| && op.containers[i].path == session.creating.value && op.containers[i].state == Issued
  }

  /** No effect without the held fence, always under the captured binding; released only when complete. */
  ghost predicate FenceInv(expected: FenceBinding, fence: Fence, up: bool, phase: Phase, binding: Binding) {
    && (up ==> fence == Held(expected))
    && (fence.Held? ==> fence.binding == expected)
    && (fence.Released? && fence.binding.binding == binding ==> phase == Complete && fence.binding == expected)
    && (phase != Intent ==> fence == Held(expected) || fence == Released(expected))
  }

  /** The initializer runs only on a recorded receipt, and is done only when all of it is there. */
  predicate InitializationInv(files: map<string, FileRecord>, op: Operation) {
    && (op.phase == Initializing || op.phase == Complete ==> op.prepared.Some?)
    && (op.phase == Complete ==> OutputsPublished(files, op.prepared.value.outputs))
  }

  ghost predicate OutputsInv(files: map<string, FileRecord>, prepared: Option<Prepared>) {
    prepared.Some? ==>
      && (forall o :: o in prepared.value.outputs ==> Foreign(o.path))
      && (forall o :: o in prepared.value.outputs && o.path in files ==> files[o.path].content == o.content)
      && DistinctOutputs(prepared.value.outputs)
  }

  /** The configuration the plan was captured under stays readable. */
  ghost predicate ConfigInv(captured: FileRecord, files: map<string, FileRecord>, moves: seq<Move>, inventory: seq<FileObservation>) {
    if FindMove(moves, CONFIG_PATH).None? then CONFIG_PATH in files && files[CONFIG_PATH] == captured
    else Find(inventory, CONFIG_PATH).Some? && Find(inventory, CONFIG_PATH).value.sha256 == Sha256(captured.content)
  }

  ghost predicate Extends(dirs: map<string, Identity>, dirs': map<string, Identity>) {
    forall d :: d in dirs ==> d in dirs' && dirs'[d] == dirs[d]
  }

  /** What the rest of a run is measured against: the published image and the repository it describes. */
  datatype Baseline = Baseline(op: Operation, files: map<string, FileRecord>, dirs: map<string, Identity>, config: FileRecord,
                               binding: FenceBinding)

  ghost function BaselineOf(start: World): Baseline
    requires Published(start)
  {
    assert CONFIG_PATH in start.files by {
      var m := FindMove(start.pending.value.moves, CONFIG_PATH);
      assert m.Some? ==> m.value.state == NotStarted;
    }
    Baseline(start.pending.value, start.files, start.dirs, start.files[CONFIG_PATH],
             MaintenanceBinding(start, start.pending.value).value)
  }

  /** Nothing but the managed files moves, and nothing but their archive copies appears before the
      initializer runs. */
  ghost predicate FrameInv(base: Baseline, files: map<string, FileRecord>, open: bool) {
    && (forall p :: p in base.files && !IsSource(base.op, p) ==> p in files && files[p] == base.files[p])
    && (open ==> forall p :: p in files ==> p in base.files || IsTarget(base.op, p))
  }

  ghost predicate IsSource(op: Operation, path: string) {
    exists i :: 0 <= i < |op.moves| && op.moves[i].source == path
  }

  ghost predicate IsTarget(op: Operation, path: string) {
    exists i :: 0 <= i < |op.moves| && op.moves[i].target == path
  }

  ghost predicate SamePlan(op: Operation, op': Operation) {
    ImmutablePlan(op) == ImmutablePlan(op') && op.binding == op'.binding
  }

  /** The state every process of the operation finds, by the image it reads. */
  ghost predicate InvOf(base: Baseline, w: World, op: Operation) {
    && SamePlan(base.op, op)
    && ProgressSound(op)
    && Extends(base.dirs, w.dirs)
    && (op.phase == Intent ==> w.files == base.files)
    && MovesInv(w.files, op) && MovesInOrder(op)
    && ContainersInv(w.dirs, op)
    && SessionInv(w.session, op)
    && FenceInv(base.binding, w.fence, w.session.Up?, op.phase, op.binding)
    && OutputsInv(w.files, op.prepared)
    && FrameInv(base, w.files, ArchiveOpen(op))
    && InitializationInv(w.files, op)
    && ConfigInv(base.config, w.files, op.moves, op.inventory)
  }

  ghost predicate Inv(base: Baseline, w: World) {
    && (w.pending.Some? ==> InvOf(base, w, w.pending.value))
    && (w.pending.None? ==> w.retired.Some? && InvOf(base, w, w.retired.value) && w.retired.value.phase == Complete && w.session.Down?)
  }
}
