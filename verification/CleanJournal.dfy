/** The clean-initialization journal: its record, the immutable plan the binding seals,
    and checkSemantics, which every image written to the pending file must pass. */
module CleanJournal {
  import opened Collections
  import opened Outcomes
  import opened Paths

  datatype EffectState = NotStarted | Issued | Completed
  datatype Phase = Intent | Archiving | ArchiveComplete | Initializing | Complete

  type Identity = string

  datatype Project = Project(id: string, root: string)

  /** What parseRuntimeConfigYaml makes of a configuration file. */
  datatype RuntimeConfig = RuntimeConfig(repositoryId: string, projects: seq<Project>, protection: seq<string>)

  /** The bytes of a file, with the configuration they parse to, if any. */
  datatype Content = Content(raw: string, config: Option<RuntimeConfig>)

  /** SHA-256, taken to be injective: a digest stands for the bytes it was computed from. */
  datatype Digest = Sha256(preimage: Content)

  datatype FileObservation = FileObservation(path: string, identity: Identity, size: nat, sha256: Digest)
  datatype Move = Move(source: string, target: string, sourceIdentity: Identity, state: EffectState)
  datatype Container = Container(path: string, state: EffectState, identity: Option<Identity>)
  datatype Request = Request(projectRoot: string, repository: string, projectMappings: seq<Project>)
  datatype Runtime = Runtime(version: string, bundleIdentity: Identity, resourceDigest: string)

  /** outputs stands for the receipt text: the files the initializer is going to write. */
  datatype Prepared = Prepared(outputs: seq<Output>, rootIdentity: Identity, bundleIdentity: Identity,
                               projectIdentities: seq<Identity>, resourceDigest: string)
  datatype Output = Output(path: string, content: Content)

  datatype PlannedMove = PlannedMove(source: string, target: string, sourceIdentity: Identity)
  datatype Plan = Plan(operationId: string, root: string, rootIdentity: Identity, workspaceId: string, request: Request,
                       runtime: Runtime, archiveRoot: string, inventory: seq<FileObservation>,
                       preserved: seq<FileObservation>, protectedPaths: seq<string>, moves: seq<PlannedMove>,
                       containers: seq<string>)

  /** The digest of the canonical JSON of an immutable plan, taken to be injective. */
  datatype Binding = Draft | Sealed(plan: Plan)

  datatype Operation = Operation(operationId: string, root: string, rootIdentity: Identity, workspaceId: string,
                                 request: Request, runtime: Runtime, archiveRoot: string,
                                 inventory: seq<FileObservation>, preserved: seq<FileObservation>,
                                 protectedPaths: seq<string>, moves: seq<Move>, containers: seq<Container>,
                                 phase: Phase, prepared: Option<Prepared>, initialization: EffectState,
                                 binding: Binding)

  const HISTORY_ROOT := ".agent/clean-initialization-history"
  const CONFIG_PATH := "agent-runtime.config.v1.yaml"
  const MAX_FILE_BYTES := 64 * 1024 * 1024
  const MAX_TOTAL_BYTES := 512 * 1024 * 1024
  const POLICY_PATH := "docs/agent-instructions/" + "documentation-policy.v1.json"
  const RECEIPT_PATH := ".agent/runtime-initialization.v1.json"
  const ARCHIVE_SOURCES := ["AGENTS.md", CONFIG_PATH, POLICY_PATH, RECEIPT_PATH]
  const PRESERVABLE_SOURCES := ["AGENT.sidecar.md", "AGENTS.md", POLICY_PATH]
  const REQUIRED_PROTECTED_PATHS := [".agent/coordination", ".agent/work"]

  function ImmutablePlan(op: Operation): Plan {
    Plan(op.operationId, op.root, op.rootIdentity, op.workspaceId, op.request, op.runtime, op.archiveRoot, op.inventory,
         op.preserved, op.protectedPaths,
         seq(|op.moves|, i requires 0 <= i < |op.moves| =>
           PlannedMove(op.moves[i].source, op.moves[i].target, op.moves[i].sourceIdentity)),
         seq(|op.containers|, i requires 0 <= i < |op.containers| => op.containers[i].path))
  }

  function Sources(plan: Plan): (r: seq<string>)
    ensures |r| == |plan.moves| && forall i :: 0 <= i < |r| ==> r[i] == plan.moves[i].source
  {
    seq(|plan.moves|, i requires 0 <= i < |plan.moves| => plan.moves[i].source)
  }

  function Targets(plan: Plan): (r: seq<string>)
    ensures |r| == |plan.moves| && forall i :: 0 <= i < |r| ==> r[i] == plan.moves[i].target
  {
    seq(|plan.moves|, i requires 0 <= i < |plan.moves| => plan.moves[i].target)
  }

  function ObservedPaths(files: seq<FileObservation>): (r: seq<string>)
    ensures |r| == |files| && forall i :: 0 <= i < |r| ==> r[i] == files[i].path
  {
    seq(|files|, i requires 0 <= i < |files| => files[i].path)
  }

  // ---------------------------------------------------------------- what an acceptable plan is

  ghost predicate PathsSound(plan: Plan) {
    var sources, targets, inventory, preserved :=
      Sources(plan), Targets(plan), ObservedPaths(plan.inventory), ObservedPaths(plan.preserved);
    var everyMoved := sources + targets + preserved;
    && AllSafe(everyMoved, false) && AllSafe(inventory, false) && AllSafe(plan.containers, false)
    && AllSafe(plan.protectedPaths, true)
    && FoldedDistinct(everyMoved) && FoldedDistinct(inventory) && FoldedDistinct(plan.containers)
    && FoldedDistinct(plan.protectedPaths)
    && NoneOverlap(everyMoved)
    && ConsistentSpelling(Spelled(plan))
    && Ordered(sources) && Ordered(inventory) && Ordered(preserved) && Ordered(plan.protectedPaths)
    && Ordered(plan.containers)
  }

  function Spelled(plan: Plan): seq<string> {
    [plan.archiveRoot] + Sources(plan) + Targets(plan) + ObservedPaths(plan.inventory) + ObservedPaths(plan.preserved)
    + plan.protectedPaths + plan.containers
  }

  predicate Protects(guard: string, move: PlannedMove) {
    guard == "." || Overlap(Fold(guard), Fold(move.source)) || Overlap(Fold(guard), Fold(move.target))
  }

  /** A guard protects what lies at, above or below it, whatever the spelling; the root protects everything. */
  lemma ProtectsIff(guard: string, move: PlannedMove)
    ensures Protects(guard, move) <==>
              || guard == "."
              || Fold(guard) == Fold(move.source) || Fold(guard) + "/" <= Fold(move.source) || Fold(move.source) + "/" <= Fold(guard)
              || Fold(guard) == Fold(move.target) || Fold(guard) + "/" <= Fold(move.target) || Fold(move.target) + "/" <= Fold(guard)
  {
    hide Fold;
  }

  ghost predicate MoveSound(plan: Plan, move: PlannedMove) {
    && move.source in ARCHIVE_SOURCES
    && move.target == plan.archiveRoot + "/" + move.source
    && (exists f :: f in plan.inventory && f.path == move.source && f.identity == move.sourceIdentity)
    && (forall guard :: guard in plan.protectedPaths ==> !Protects(guard, move))
  }

  ghost predicate PreservedSound(plan: Plan, file: FileObservation) {
    && file.path in PRESERVABLE_SOURCES
    && (forall move :: move in plan.moves ==> !Overlap(Fold(move.source), Fold(file.path)))
  }

  /** A directory the archive needs: a proper ancestor of some target, other than .agent itself. */
  ghost predicate OwnedAncestor(plan: Plan, path: string) {
    path != ".agent" && exists move :: move in plan.moves && move.target != path && Contains(path, move.target)
  }

  function SizeOf(file: FileObservation): nat { file.size }

  function TotalSize(files: seq<FileObservation>): nat {
    Sum(files, SizeOf)
  }

  ghost predicate MovesSound(plan: Plan) {
    forall move :: move in plan.moves ==> MoveSound(plan, move)
  }

  ghost predicate InventoryMatched(plan: Plan) {
    forall f :: f in plan.inventory ==> exists move :: move in plan.moves && move.source == f.path && move.sourceIdentity == f.identity
  }

  ghost predicate ContainersSound(plan: Plan) {
    forall path :: path in plan.containers <==> OwnedAncestor(plan, path)
  }

  ghost predicate SizesSound(files: seq<FileObservation>) {
    (forall f :: f in files ==> f.size <= MAX_FILE_BYTES) && TotalSize(files) <= MAX_TOTAL_BYTES
  }

  function ArchiveRoot(operationId: string): string {
    HISTORY_ROOT + "/" + operationId + "/payload"
  }

  function MappingIds(mappings: seq<Project>): (r: seq<string>)
    ensures |r| == |mappings| && forall i :: 0 <= i < |r| ==> r[i] == mappings[i].id
  {
    seq(|mappings|, i requires 0 <= i < |mappings| => mappings[i].id)
  }

  /** projectMappings: there are some, and no two are of one project. */
  ghost predicate MappingsSound(mappings: seq<Project>) {
    mappings != [] && Distinct(MappingIds(mappings))
  }

  ghost predicate PlanSound(plan: Plan) {
    && plan.root == plan.request.projectRoot && MappingsSound(plan.request.projectMappings)
    && plan.archiveRoot == ArchiveRoot(plan.operationId)
    && PathsSound(plan)
    && (forall required :: required in REQUIRED_PROTECTED_PATHS ==> required in plan.protectedPaths)
    && |plan.inventory| == |plan.moves| <= |ARCHIVE_SOURCES|
    && MovesSound(plan)
    && InventoryMatched(plan)
    && (forall f :: f in plan.preserved ==> PreservedSound(plan, f))
    && ContainersSound(plan)
    && SizesSound(plan.inventory + plan.preserved)
  }

  // ---------------------------------------------------------------- how far an image may have got

  predicate AllEffects(op: Operation, state: EffectState) {
    && (forall move :: move in op.moves ==> move.state == state)
    && (forall container :: container in op.containers ==> container.state == state)
  }

  predicate ProgressSound(op: Operation) {
    && (forall c :: c in op.containers ==>
          (c.state == Completed ==> c.identity.Some?) && (c.state == NotStarted ==> c.identity.None?))
    && (op.phase == Intent ==> AllEffects(op, NotStarted))
    && (op.phase in {ArchiveComplete, Initializing, Complete} ==> AllEffects(op, Completed))
    && (op.phase in {Intent, Archiving, ArchiveComplete} ==> op.prepared.None? && op.initialization == NotStarted)
    && (op.initialization != NotStarted ==> op.prepared.Some?)
    && (op.phase == Complete ==> op.prepared.Some? && op.initialization == Completed)
    && (op.prepared.Some? ==>
          && op.prepared.value.rootIdentity == op.rootIdentity
          && op.prepared.value.bundleIdentity == op.runtime.bundleIdentity
          && op.prepared.value.resourceDigest == op.runtime.resourceDigest
          && |op.prepared.value.projectIdentities| == |op.request.projectMappings|)
  }

  /** validateCleanInitializationOperationV2 beyond the schema's shape. */
  ghost predicate Valid(op: Operation) {
    PlanSound(ImmutablePlan(op)) && ProgressSound(op) && op.binding == Sealed(ImmutablePlan(op))
  }

  // ---------------------------------------------------------------- the checks, as they are run

  lemma EveryPathRelative(plan: Plan)
    requires plan.archiveRoot == ArchiveRoot(plan.operationId)
    requires AllSafe(Sources(plan) + Targets(plan) + ObservedPaths(plan.preserved), false)
    requires AllSafe(ObservedPaths(plan.inventory), false) && AllSafe(plan.containers, false) && AllSafe(plan.protectedPaths, true)
    ensures forall i :: 0 <= i < |Spelled(plan)| ==> Relative(Spelled(plan)[i])
  {
    var moved := Sources(plan) + Targets(plan) + ObservedPaths(plan.preserved);
    forall p | p in moved ensures Relative(p) { SafePathIsRelative(p, false); }
    forall p | p in ObservedPaths(plan.inventory) ensures Relative(p) { SafePathIsRelative(p, false); }
    forall p | p in plan.containers ensures Relative(p) { SafePathIsRelative(p, false); }
    forall p | p in plan.protectedPaths ensures Relative(p) { SafePathIsRelative(p, true); }
    assert plan.archiveRoot[0] == HISTORY_ROOT[0] == '.';
    forall p | p in Spelled(plan) ensures Relative(p) {
      assert p == plan.archiveRoot || p in moved || p in ObservedPaths(plan.inventory) || p in plan.protectedPaths || p in plan.containers;
    }
  }

  method CheckPaths(plan: Plan) returns (ok: bool)
    requires plan.archiveRoot == ArchiveRoot(plan.operationId)
    ensures ok <==> PathsSound(plan)
  {
    var sources, targets, preserved := Sources(plan), Targets(plan), ObservedPaths(plan.preserved);
    var inventory := ObservedPaths(plan.inventory);
    var moved := sources + targets + preserved;
    var unique := UniquePaths(inventory, false, false);
    if !unique { return false; }
    unique := UniquePaths(plan.protectedPaths, false, true);
    if !unique { return false; }
    unique := UniquePaths(plan.containers, false, false);
    if !unique { return false; }
    unique := UniquePaths(moved, true, false);
    if !unique { return false; }
    EveryPathRelative(plan);
    var consistent := ConsistentPathCase(Spelled(plan));
    if !consistent { return false; }
    var inOrder := CheckOrdered(sources);
    if !inOrder { return false; }
    inOrder := CheckOrdered(inventory);
    if !inOrder { return false; }
    inOrder := CheckOrdered(preserved);
    if !inOrder { return false; }
    inOrder := CheckOrdered(plan.protectedPaths);
    if !inOrder { return false; }
    ok := CheckOrdered(plan.containers);
  }

  method CheckMoves(plan: Plan) returns (ok: bool)
    ensures ok <==> MovesSound(plan)
  {
    for i := 0 to |plan.moves|
      invariant forall j :: 0 <= j < i ==> MoveSound(plan, plan.moves[j])
    {
      var move := plan.moves[i];
      if !(&& move.source in ARCHIVE_SOURCES
           && move.target == plan.archiveRoot + "/" + move.source
           && (exists f :: f in plan.inventory && f.path == move.source && f.identity == move.sourceIdentity)
           && (forall guard :: guard in plan.protectedPaths ==> !Protects(guard, move))) {
        assert !MoveSound(plan, plan.moves[i]);
        return false;
      }
    }
    return true;
  }

  method CheckPreserved(plan: Plan) returns (ok: bool)
    ensures ok <==> forall f :: f in plan.preserved ==> PreservedSound(plan, f)
  {
    for i := 0 to |plan.preserved|
      invariant forall j :: 0 <= j < i ==> PreservedSound(plan, plan.preserved[j])
    {
      var file := plan.preserved[i];
      if !(&& file.path in PRESERVABLE_SOURCES
           && (forall move :: move in plan.moves ==> !Overlap(Fold(move.source), Fold(file.path)))) {
        assert !PreservedSound(plan, plan.preserved[i]);
        return false;
      }
    }
    return true;
  }

  ghost predicate AllCuts(walked: set<string>, path: string) {
    forall p :: p in walked ==> CutAt(path, |p|) && p == path[..|p|]
  }

  lemma CutsAreAncestors(target: string, prefix: string, lead: string, rest: string, todo: seq<string>, walked: set<string>, p: string)
    requires |todo| == 1 && Walking(target, prefix, lead, rest, todo, walked) && AllCuts(walked, target)
    ensures p in walked <==> p != target && Contains(p, target)
  {
    AncestorsAreCuts(p, target);
    if p != target && Contains(p, target) {
      NextPart(target, lead, rest, rest, FirstSlash(rest));
      assert |p| < |lead|;
    }
  }

  lemma NotLastIsCut(target: string, prefix: string, lead: string, rest: string, todo: seq<string>, walked: set<string>, cuts: set<string>)
    requires todo != [] && prefix != "" && Walking(target, prefix, lead, rest, todo, walked) && AllCuts(cuts, target)
    ensures AllCuts(cuts + {prefix}, target)
  {
    assert target[|prefix|] == lead[|prefix|] == '/';
    assert target[..|prefix|] == lead[..|prefix|] == prefix;
  }

  lemma WalkedIsNamed(target: string, prefix: string)
    requires Relative(target) && ComponentPrefix(prefix, target) && target != ""
    ensures prefix != ""
  {
  }

  lemma TwoPartsLeft(target: string, prefix: string, lead: string, rest: string, todo: seq<string>, walked: set<string>)
    requires Walking(target, prefix, lead, rest, todo, walked) && |todo| > 1
    ensures target != ""
  {
    assert FirstSlash(rest) >= 0;
  }

  lemma StartWalk(target: string)
    requires Relative(target)
    ensures Walking(target, "", "", target, Split(target), {}) && AllCuts({}, target)
  {
  }

  /** Splits one target and collects the directories above it, .agent aside. */
  method OwnedAncestors(target: string) returns (owned: set<string>)
    requires Relative(target)
    ensures forall p :: p in owned <==> p != ".agent" && p != target && Contains(p, target)
  {
    hide Walking, AllCuts, Relative, Split, Contains;
    var todo := Split(target);
    var prefix := "";
    ghost var lead, rest, walked: set<string> := "", target, {};
    owned := {};
    StartWalk(target);
    while |todo| > 1
      invariant |todo| >= 1 && Walking(target, prefix, lead, rest, todo, walked)
      invariant owned == walked - {".agent"}
      invariant AllCuts(walked, target)
      decreases |todo|
    {
      TwoPartsLeft(target, prefix, lead, rest, todo, walked);
      ghost var lead', rest' := WalkOn(target, prefix, lead, rest, todo, walked);
      prefix := if prefix != "" then prefix + "/" + todo[0] else todo[0];
      todo, lead, rest := todo[1..], lead', rest';
      WalkedIsNamed(target, prefix);
      NotLastIsCut(target, prefix, lead, rest, todo, walked + {prefix}, walked);
      walked := walked + {prefix};
      if prefix != ".agent" {
        owned := owned + {prefix};
      }
    }
    forall p ensures p in walked <==> p != target && Contains(p, target) {
      CutsAreAncestors(target, prefix, lead, rest, todo, walked, p);
    }
  }

  ghost predicate OwnedUpTo(plan: Plan, i: int, path: string) {
    path != ".agent" && exists j :: 0 <= j < i && j < |plan.moves| && plan.moves[j].target != path && Contains(path, plan.moves[j].target)
  }

  lemma OwnedByAll(plan: Plan, path: string)
    ensures OwnedUpTo(plan, |plan.moves|, path) <==> OwnedAncestor(plan, path)
  {
    if OwnedAncestor(plan, path) {
      var move :| move in plan.moves && move.target != path && Contains(path, move.target);
      var j :| 0 <= j < |plan.moves| && plan.moves[j] == move;
    }
  }

  /** The container set is compared by size and membership; on distinct paths that is equality. */
  method CheckContainers(plan: Plan) returns (ok: bool)
    requires forall i, j :: 0 <= i < j < |plan.containers| ==> plan.containers[i] != plan.containers[j]
    requires forall i :: 0 <= i < |plan.moves| ==> Relative(plan.moves[i].target)
    ensures ok <==> ContainersSound(plan)
  {
    var expected: set<string> := {};
    for i := 0 to |plan.moves|
      invariant forall p :: p in expected <==> OwnedUpTo(plan, i, p)
    {
      var owned := OwnedAncestors(plan.moves[i].target);
      expected := expected + owned;
    }
    forall p ensures p in expected <==> OwnedAncestor(plan, p) {
      OwnedByAll(plan, p);
    }
    SameMembers(plan.containers, expected);
    ok := |plan.containers| == |expected| && forall path :: path in plan.containers ==> path in expected;
  }

  method CheckSizes(files: seq<FileObservation>) returns (ok: bool)
    ensures ok <==> SizesSound(files)
  {
    var aggregate := 0;
    for i := 0 to |files|
      invariant aggregate == TotalSize(files[..i]) <= MAX_TOTAL_BYTES
      invariant forall j :: 0 <= j < i ==> files[j].size <= MAX_FILE_BYTES
    {
      if files[i].size > MAX_FILE_BYTES {
        return false;
      }
      assert files[..i + 1][..i] == files[..i];
      aggregate := aggregate + files[i].size;
      if aggregate > MAX_TOTAL_BYTES {
        SumGrows(files, SizeOf, i + 1);
        return false;
      }
    }
    assert files[..|files|] == files;
    return true;
  }

  lemma SoundPathsAreUsable(plan: Plan)
    requires PathsSound(plan)
    ensures forall i, j :: 0 <= i < j < |plan.containers| ==> plan.containers[i] != plan.containers[j]
    ensures forall i :: 0 <= i < |plan.moves| ==> Relative(plan.moves[i].target)
  {
    var moved := Sources(plan) + Targets(plan) + ObservedPaths(plan.preserved);
    forall i | 0 <= i < |plan.moves| ensures Relative(plan.moves[i].target) {
      assert moved[|plan.moves| + i] == plan.moves[i].target;
      SafePathIsRelative(plan.moves[i].target, false);
    }
  }

  /** checkSemantics on the immutable part of a record. */
  method CheckPlan(plan: Plan) returns (ok: bool)
    ensures ok <==> PlanSound(plan)
  {
    DistinctBySize(MappingIds(plan.request.projectMappings));
    if plan.root != plan.request.projectRoot || plan.request.projectMappings == []
       || |Members(MappingIds(plan.request.projectMappings))| != |plan.request.projectMappings|
       || plan.archiveRoot != ArchiveRoot(plan.operationId) {
      return false;
    }
    var paths := CheckPaths(plan);
    if !paths { return false; }
    SoundPathsAreUsable(plan);
    if exists required :: required in REQUIRED_PROTECTED_PATHS && required !in plan.protectedPaths { return false; }
    if |plan.inventory| != |plan.moves| || |plan.moves| > |ARCHIVE_SOURCES| { return false; }
    var moves := CheckMoves(plan);
    if !moves { return false; }
    if exists f :: f in plan.inventory && !exists move :: move in plan.moves && move.source == f.path && move.sourceIdentity == f.identity {
      return false;
    }
    var preserved := CheckPreserved(plan);
    if !preserved { return false; }
    var containers := CheckContainers(plan);
    if !containers { return false; }
    ok := CheckSizes(plan.inventory + plan.preserved);
  }

  /** Decodes one candidate image: every clause of checkSemantics, then the binding. */
  method Validate(op: Operation) returns (ok: bool)
    ensures ok <==> Valid(op)
  {
    var plan := ImmutablePlan(op);
    ok := CheckPlan(plan);
    ok := ok && ProgressSound(op) && op.binding == Sealed(plan);
  }

  // ---------------------------------------------------------------- moving an image forward

  function WithMoveState(op: Operation, source: string, state: EffectState): (r: Operation)
    ensures |r.moves| == |op.moves|
    ensures forall i :: 0 <= i < |op.moves| ==>
              r.moves[i] == if op.moves[i].source == source then op.moves[i].(state := state) else op.moves[i]
  {
    op.(moves := seq(|op.moves|, i requires 0 <= i < |op.moves| =>
          if op.moves[i].source == source then op.moves[i].(state := state) else op.moves[i]))
  }

  function WithContainerState(op: Operation, path: string, state: EffectState, identity: Option<Identity>): (r: Operation)
    ensures |r.containers| == |op.containers|
    ensures forall i :: 0 <= i < |op.containers| ==>
              r.containers[i] == if op.containers[i].path == path then op.containers[i].(state := state, identity := identity) else op.containers[i]
  {
    op.(phase := Archiving, containers := seq(|op.containers|, i requires 0 <= i < |op.containers| =>
          if op.containers[i].path == path then op.containers[i].(state := state, identity := identity) else op.containers[i]))
  }

  lemma MoveStateKeepsPlan(op: Operation, source: string, state: EffectState)
    ensures ImmutablePlan(WithMoveState(op, source, state)) == ImmutablePlan(op)
  {
  }

  lemma ContainerStateKeepsPlan(op: Operation, path: string, state: EffectState, identity: Option<Identity>)
    ensures ImmutablePlan(WithContainerState(op, path, state, identity)) == ImmutablePlan(op)
  {
  }

  // ---------------------------------------------------------------- what soundness gives the archive

  /** Sources and targets of an acceptable plan are all different paths. */
  lemma SoundPlanIsDistinct(plan: Plan, i: nat, j: nat)
    requires PlanSound(plan) && i < |plan.moves| && j < |plan.moves|
    ensures plan.moves[i].source != plan.moves[j].target
    ensures i != j ==> plan.moves[i].source != plan.moves[j].source && plan.moves[i].target != plan.moves[j].target
  {
    hide MovesSound, InventoryMatched, ContainersSound, SizesSound, PreservedSound, ConsistentSpelling, NoneOverlap, Ordered, AllSafe;
    var moved := Sources(plan) + Targets(plan) + ObservedPaths(plan.preserved);
    var n := |plan.moves|;
    assert moved[i] == plan.moves[i].source && moved[j] == plan.moves[j].source;
    assert moved[n + i] == plan.moves[i].target && moved[n + j] == plan.moves[j].target;
    if i < j {
      assert Fold(moved[i]) != Fold(moved[j]) && Fold(moved[n + i]) != Fold(moved[n + j]);
    } else if j < i {
      assert Fold(moved[j]) != Fold(moved[i]) && Fold(moved[n + j]) != Fold(moved[n + i]);
    }
    assert Fold(moved[i]) != Fold(moved[n + j]);
  }

  lemma DirnameIsAncestor(path: string)
    ensures LastSlash(path) >= 0 ==> Dirname(path) != path && Contains(Dirname(path), path)
    ensures LastSlash(path) >= 0 ==> forall p :: p != path && Contains(p, path) ==> |p| <= |Dirname(path)|
  {
    if LastSlash(path) >= 0 {
      AncestorsAreCuts(Dirname(path), path);
      forall p | p != path && Contains(p, path) ensures |p| <= |Dirname(path)| {
        AncestorsAreCuts(p, path);
      }
    }
  }

  lemma AncestorsNest(a: string, b: string, c: string)
    requires Contains(a, b) && Contains(b, c)
    ensures Contains(a, c)
  {
    if a != b && b != c {
      assert a + "/" <= b <= c;
    }
  }

  /** Every archived file has its directory among the containers. */
  lemma TargetDirectoryIsOwned(plan: Plan, i: nat)
    requires PlanSound(plan) && i < |plan.moves|
    ensures Dirname(plan.moves[i].target) in plan.containers
  {
    var move := plan.moves[i];
    assert MoveSound(plan, move);
    assert plan.archiveRoot + "/" <= move.target && |ArchiveRoot(plan.operationId)| > 6;
    assert move.target[|plan.archiveRoot|] == '/';
    DirnameIsAncestor(move.target);
    assert Contains(plan.archiveRoot, move.target) && plan.archiveRoot != move.target;
    assert OwnedAncestor(plan, Dirname(move.target));
  }

  lemma BelowAgent(target: string, path: string)
    requires ".agent/" <= target && path != target && Contains(path, target)
    ensures path == ".agent" || LastSlash(path) >= 0
  {
    AncestorsAreCuts(path, target);
    assert forall i :: 0 <= i < 7 ==> target[i] == ".agent/"[i];
    assert forall i :: 0 <= i < |path| ==> path[i] == target[i];
    assert forall i :: 0 <= i < 6 ==> target[i] != '/';
    assert |path| == 6 ==> path == ".agent";
    assert |path| > 6 ==> path[6] == '/';
  }

  lemma TargetsAreBelowAgent(plan: Plan, move: PlannedMove)
    requires MoveSound(plan, move) && plan.archiveRoot == ArchiveRoot(plan.operationId)
    ensures ".agent/" <= move.target
  {
    assert ".agent/" <= HISTORY_ROOT <= plan.archiveRoot <= move.target;
  }

  /** The directory above a container is .agent or another container. */
  lemma ParentIsOwned(plan: Plan, path: string)
    requires plan.archiveRoot == ArchiveRoot(plan.operationId) && MovesSound(plan) && OwnedAncestor(plan, path)
    ensures LastSlash(path) >= 0
    ensures Dirname(path) == ".agent" || OwnedAncestor(plan, Dirname(path))
  {
    var move :| move in plan.moves && move.target != path && Contains(path, move.target);
    TargetsAreBelowAgent(plan, move);
    BelowAgent(move.target, path);
    DirnameIsAncestor(path);
    AncestorsNest(Dirname(path), path, move.target);
  }

  /** Container closure and the lexicographic order together: the directory above a container is
      .agent or a container that stands earlier in the list. */
  lemma ParentComesFirst(plan: Plan, j: nat) returns (i: nat)
    requires PlanSound(plan) && j < |plan.containers|
    ensures Dirname(plan.containers[j]) != ".agent" ==> i < j && plan.containers[i] == Dirname(plan.containers[j])
  {
    var path := plan.containers[j];
    ParentIsOwned(plan, path);
    i := 0;
    if Dirname(path) != ".agent" {
      i :| 0 <= i < |plan.containers| && plan.containers[i] == Dirname(path);
      DirnameIsAncestor(path);
      AncestorComesFirst(plan.containers, i, j);
    }
  }
}
