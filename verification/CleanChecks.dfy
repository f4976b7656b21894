/** What the checks of clean initialization ask for, field by field: the terms in which the promises about
    runs are to be read. */
module CleanChecks {
  import opened Outcomes
  import opened CleanJournal
  import opened CleanMachine

  // ---------------------------------------------------------------- plans and images

  /** Every archived file goes below the history directory of its operation, under its own path. */
  lemma ArchivePlaces(plan: Plan, i: nat)
    requires PlanSound(plan) && i < |plan.moves|
    ensures plan.moves[i].target == ".agent/clean-initialization-history/" + plan.operationId + "/payload/" + plan.moves[i].source
  {
    hide PathsSound, ContainersSound, SizesSound, PreservedSound, InventoryMatched;
    assert MoveSound(plan, plan.moves[i]);
  }

  /** The spelling check takes in every path of a plan. */
  lemma SpelledIff(plan: Plan, path: string)
    ensures path in Spelled(plan) <==>
            || path == plan.archiveRoot
            || (exists m :: m in plan.moves && (path == m.source || path == m.target))
            || (exists f :: (f in plan.inventory || f in plan.preserved) && path == f.path)
            || path in plan.protectedPaths || path in plan.containers
  {
  }

  /** The states a journal image admits, phase by phase. */
  lemma ProgressByPhase(op: Operation)
    ensures ProgressSound(op) <==>
            && (forall c :: c in op.containers ==>
                  match c.state
                  case NotStarted => c.identity.None?
                  case Issued => true
                  case Completed => c.identity.Some?)
            && (match op.phase
                case Intent =>
                  && (forall m :: m in op.moves ==> m.state == NotStarted)
                  && (forall c :: c in op.containers ==> c.state == NotStarted)
                case Archiving => true
                case _ =>
                  && (forall m :: m in op.moves ==> m.state == Completed)
                  && (forall c :: c in op.containers ==> c.state == Completed))
            && (match op.phase
                case Initializing => op.initialization == NotStarted || op.prepared.Some?
                case Complete => op.initialization == Completed && op.prepared.Some?
                case _ => op.initialization == NotStarted && op.prepared.None?)
            && (match op.prepared
                case None => true
                case Some(p) =>
                  p.rootIdentity == op.rootIdentity && p.bundleIdentity == op.runtime.bundleIdentity
                  && p.resourceDigest == op.runtime.resourceDigest && |p.projectIdentities| == |op.request.projectMappings|)
  {
  }

  /** Setting the state of one move changes nothing else. */
  lemma MoveStateOnly(op: Operation, source: string, state: EffectState)
    ensures WithMoveState(op, source, state) == op.(moves := WithMoveState(op, source, state).moves)
  {
  }

  lemma ContainerStateOnly(op: Operation, path: string, state: EffectState, identity: Option<Identity>)
    ensures WithContainerState(op, path, state, identity)
         == op.(phase := Archiving, containers := WithContainerState(op, path, state, identity).containers)
  {
  }

  // ---------------------------------------------------------------- what a process asks before it attaches

  lemma FoundIff(files: seq<FileObservation>)
    ensures forall path :: Find(files, path).Some? <==> exists f :: f in files && f.path == path
  {
  }

  /** A repository right after its plan was published: the root is the one the plan names, the configuration
      there names this repository, every project of the request and no protected path the plan leaves out,
      and every captured file is there as captured. */
  lemma CurrentOperationIff(w: World, op: Operation)
    requires forall m :: m in op.moves ==> m.state == NotStarted
    ensures CurrentOperation(w, op) <==>
            && "." in w.dirs && w.dirs["."] == op.rootIdentity
            && "agent-runtime.config.v1.yaml" in w.files
            && (match w.files["agent-runtime.config.v1.yaml"].content.config
                case None => false
                case Some(config) =>
                  && config.repositoryId == op.request.repository
                  && (forall mapping :: mapping in op.request.projectMappings ==> mapping in config.projects && mapping.root in w.dirs)
                  && (forall guard :: guard in config.protection ==> guard in op.protectedPaths))
            && (op.phase != Intent || op.prepared.Some? || op.initialization != NotStarted
                || forall f :: f in op.inventory || f in op.preserved ==>
                     && f.path in w.files && w.files[f.path].identity == f.identity
                     && |w.files[f.path].content.raw| == f.size && f.sha256 == Sha256(w.files[f.path].content))
  {
  }

  predicate MayStay(path: string) {
    path == "AGENT.sidecar.md" || path == "AGENTS.md" || path == "docs/agent-instructions/documentation-policy.v1.json"
  }

  predicate IsReplaced(path: string) {
    || path == "AGENTS.md" || path == "agent-runtime.config.v1.yaml"
    || path == "docs/agent-instructions/documentation-policy.v1.json" || path == ".agent/runtime-initialization.v1.json"
  }

  /** What the initializer sets up besides its receipt. */
  predicate IsSetUp(path: string) {
    || path == "AGENTS.md" || path == "AGENT.sidecar.md" || path == "agent-runtime.config.v1.yaml"
    || path == "docs/agent-instructions/documentation-policy.v1.json"
  }

  lemma ManagedPaths()
    ensures forall path :: path in PRESERVABLE_SOURCES <==> MayStay(path)
    ensures forall path :: path in ARCHIVE_SOURCES <==> IsReplaced(path)
    ensures forall path :: path in INITIALIZER_OUTPUTS <==> IsSetUp(path)
    ensures RECEIPT_PATH == ".agent/runtime-initialization.v1.json"
  {
    assert POLICY_PATH == "docs/agent-instructions/documentation-policy.v1.json";
    hide POLICY_PATH;
    assert PRESERVABLE_SOURCES == ["AGENT.sidecar.md", "AGENTS.md", POLICY_PATH];
    assert ARCHIVE_SOURCES == ["AGENTS.md", "agent-runtime.config.v1.yaml", POLICY_PATH, RECEIPT_PATH];
    assert INITIALIZER_OUTPUTS == ["AGENTS.md", "AGENT.sidecar.md", "agent-runtime.config.v1.yaml", POLICY_PATH];
  }

  /** The capture takes every managed file there is: into what is preserved, if the file may be, or into
      what is archived. */
  lemma CoversIff(files: map<string, FileRecord>, op: Operation)
    ensures Covers(files, op) <==>
            && (forall path :: MayStay(path) ==> ((exists f :: f in op.preserved && f.path == path) <==> path in files))
            && (forall path :: IsReplaced(path) ==>
                  ((exists f :: f in op.inventory && f.path == path)
                   <==> path in files && forall f :: f in op.preserved ==> f.path != path))
  {
    ManagedPaths();
    FoundIff(op.preserved);
    FoundIff(op.inventory);
    hide PRESERVABLE_SOURCES, ARCHIVE_SOURCES, MayStay, IsReplaced, Find;
  }

  // ---------------------------------------------------------------- what the initializer writes

  /** Fresh: neither the receipt is there nor any output but a preserved one. */
  lemma FreshOutputsIff(files: map<string, FileRecord>, op: Operation)
    ensures FreshOutputs(files, op) <==>
            && ".agent/runtime-initialization.v1.json" !in files
            && forall path :: IsSetUp(path) && path in files ==> exists f :: f in op.preserved && f.path == path
  {
    ManagedPaths();
    FoundIff(op.preserved);
    hide INITIALIZER_OUTPUTS, IsSetUp, Find;
  }

  /** A receipt is right if it names the receipt file and every output that is not preserved, all of them
      once, and nothing else. */
  lemma RightOutputsIff(op: Operation, outputs: seq<Output>)
    ensures RightOutputs(op, outputs) <==>
            && (forall i, j | 0 <= i < |outputs| && 0 <= j < |outputs| :: outputs[i].path == outputs[j].path ==> i == j)
            && (exists o :: o in outputs && o.path == ".agent/runtime-initialization.v1.json")
            && (forall path :: IsSetUp(path) ==>
                  (exists o :: o in outputs && o.path == path) || exists f :: f in op.preserved && f.path == path)
            && (forall o :: o in outputs ==>
                  || o.path == ".agent/runtime-initialization.v1.json"
                  || (IsSetUp(o.path) && forall f :: f in op.preserved ==> f.path != o.path))
  {
    ManagedPaths();
    FoundIff(op.preserved);
    DistinctOutputsIff(outputs);
    assert forall path :: path in INITIALIZER_OUTPUTS + [RECEIPT_PATH] <==> path in INITIALIZER_OUTPUTS || path == RECEIPT_PATH;
    hide DistinctOutputs, INITIALIZER_OUTPUTS, IsSetUp, Find, RECEIPT_PATH;
    assert RECEIPT_PATH in INITIALIZER_OUTPUTS + [RECEIPT_PATH];
  }

  lemma DistinctOutputsIff(outputs: seq<Output>)
    ensures DistinctOutputs(outputs) <==>
            forall i, j | 0 <= i < |outputs| && 0 <= j < |outputs| :: outputs[i].path == outputs[j].path ==> i == j
  {
  }

  /** A directory is the operation's own if the journal has it completed with the identity it has now. */
  lemma DirectoryOwnedIff(w: World, op: Operation, path: string)
    requires forall i, j :: 0 <= i < j < |op.containers| ==> op.containers[i].path != op.containers[j].path
    ensures DirectoryOwned(w, op, path) <==>
            path in w.dirs && exists c :: c in op.containers && c.path == path && c.state == Completed && c.identity == Some(w.dirs[path])
  {
  }

  /** Eight, four, four, four and twelve small hexadecimal digits. */
  lemma UuidIff(id: string)
    ensures IsUuid(id) <==>
            && |id| == 8 + 1 + 4 + 1 + 4 + 1 + 4 + 1 + 12
            && id[8] == id[13] == id[18] == id[23] == '-'
            && forall i :: 0 <= i < |id| && i !in {8, 13, 18, 23} ==> id[i] in "0123456789abcdef"
  {
  }
}
