/** An operation of clean initialization that archives the configuration of a small repository, and is cut
    short where nobody can resume it. */
module CleanExamples {
  import opened Outcomes
  import opened Paths
  import opened CleanJournal
  import opened CleanMachine
  import opened CleanRuns

  // ---------------------------------------------------------------- plain paths

  predicate PlainChar(c: char) {
    'a' <= c <= 'z' || '0' <= c <= '9' || c == '.' || c == '-'
  }

  /** One part of a path, in small letters. */
  predicate PlainPart(s: string) {
    s != "" && s != "." && s != ".." && |s| <= 100 && forall i :: 0 <= i < |s| ==> PlainChar(s[i])
  }

  /** Parts joined by separators. */
  function Joined(parts: seq<string>): string
    requires parts != []
  {
    if |parts| == 1 then parts[0] else parts[0] + "/" + Joined(parts[1..])
  }

  predicate PlainParts(parts: seq<string>) {
    1 <= |parts| <= 10 && forall k :: 0 <= k < |parts| ==> PlainPart(parts[k])
  }

  /** Nothing but the characters of plain parts, and separators. */
  predicate PlainPath(s: string) {
    forall i :: 0 <= i < |s| ==> PlainChar(s[i]) || s[i] == '/'
  }

  lemma PlainFold(s: string)
    requires PlainPath(s)
    ensures Fold(s) == s
  {
  }

  lemma SplitOne(a: string)
    requires '/' !in a
    ensures Split(a) == [a]
  {
  }

  lemma SplitCons(a: string, rest: string)
    requires '/' !in a
    ensures Split(a + "/" + rest) == [a] + Split(rest)
  {
    var s := a + "/" + rest;
    var k := FirstSlash(s);
    assert s[|a|] == '/';
    assert forall i :: 0 <= i < |a| ==> s[i] == a[i];
    assert forall i :: 0 <= i < k ==> s[..k][i] == s[i];
    assert k == |a|;
    assert s[..k] == a && s[k + 1..] == rest;
  }

  lemma {:induction false} JoinedIs(parts: seq<string>)
    requires PlainParts(parts)
    ensures Split(Joined(parts)) == parts && PlainPath(Joined(parts)) && 0 < |Joined(parts)| <= 101 * |parts|
  {
    var a := parts[0];
    assert '/' !in a;
    if |parts| == 1 {
      SplitOne(a);
    } else {
      JoinedIs(parts[1..]);
      SplitCons(a, Joined(parts[1..]));
    }
  }

  lemma PlainHasNothingElse(s: string)
    requires PlainPath(s)
    ensures '\\' !in s && ':' !in s && !HasControlCharacters(s)
  {
  }

  lemma JoinedIsSafe(parts: seq<string>, allowDot: bool)
    requires PlainParts(parts)
    ensures SafePath(Joined(parts), allowDot) && Fold(Joined(parts)) == Joined(parts)
  {
    JoinedIs(parts);
    var s := Joined(parts);
    PlainFold(s);
    PlainHasNothingElse(s);
    SplitOne(".");
    hide Joined, PlainPath, PlainChar, Split, HasControlCharacters, Fold;
    assert forall i :: 0 <= i < |Split(s)| ==> PlainPart(Split(s)[i]);
  }

  lemma CutsAfter(a: string, rest: string, k: int)
    requires '/' !in a
    ensures CutAt(a + "/" + rest, k) <==> k == |a| || CutAt(rest, k - |a| - 1)
  {
    var s := a + "/" + rest;
    assert s[|a|] == '/';
    assert forall i :: 0 <= i < |a| ==> s[i] == a[i];
    assert forall i :: |a| < i < |s| ==> s[i] == rest[i - |a| - 1];
  }

  // ---------------------------------------------------------------- the paths of the operation

  const HISTORY := "clean-initialization-history"
  const ID := "00000000-0000-0000-0000-000000000000"

  lemma LongNames()
    ensures PlainPart(HISTORY) && PlainPart(CONFIG_PATH) && |HISTORY| == 28 && |CONFIG_PATH| == 28
  {
  }

  lemma IdName()
    ensures PlainPart(ID) && |ID| == 36 && IsUuid(ID)
  {
  }

  lemma ShortNames()
    ensures PlainPart(".agent") && PlainPart("payload") && PlainPart("coordination") && PlainPart("work")
    ensures PlainPart(".git") && PlainPart(".tmp") && PlainPart(".vida") && PlainPart("proj")
  {
  }

  lemma {:induction false} JoinedMore(parts: seq<string>, a: string)
    requires parts != []
    ensures Joined(parts + [a]) == Joined(parts) + "/" + a
  {
    var more := parts + [a];
    if |parts| == 1 {
      assert more[1..] == [a];
    } else {
      assert more[1..] == parts[1..] + [a];
      JoinedMore(parts[1..], a);
    }
  }

  function HistoryParts(): seq<string> { [".agent", HISTORY] }
  function OperationParts(): seq<string> { [".agent", HISTORY, ID] }
  function PayloadParts(): seq<string> { [".agent", HISTORY, ID, "payload"] }
  function TargetParts(): seq<string> { [".agent", HISTORY, ID, "payload", CONFIG_PATH] }

  function OperationRoot(): string { HISTORY_ROOT + "/" + ID }
  function Target(): string { ArchiveRoot(ID) + "/" + CONFIG_PATH }

  lemma HistoryIs()
    ensures HISTORY_ROOT == ".agent" + "/" + HISTORY && HISTORY_ROOT == Joined(HistoryParts())
  {
    assert HistoryParts()[1..] == [HISTORY];
  }

  lemma Roots()
    ensures HISTORY_ROOT == Joined(HistoryParts()) && OperationRoot() == Joined(OperationParts())
    ensures ArchiveRoot(ID) == Joined(PayloadParts()) && Target() == Joined(TargetParts())
  {
    HistoryIs();
    hide HISTORY, ID, CONFIG_PATH;
    JoinedMore(HistoryParts(), ID);
    JoinedMore(OperationParts(), "payload");
    JoinedMore(PayloadParts(), CONFIG_PATH);
    ArchiveRootIs();
  }

  lemma ArchiveRootIs()
    ensures ArchiveRoot(ID) == OperationRoot() + "/" + "payload"
  {
    hide HISTORY, ID, HISTORY_ROOT;
    assert "/payload" == "/" + "payload";
  }

  /** The directories above the target. */
  function Containers(): seq<string> {
    [HISTORY_ROOT, OperationRoot(), ArchiveRoot(ID)]
  }

  lemma Sizes()
    ensures |HISTORY_ROOT| == 35 && |OperationRoot()| == 72 && |ArchiveRoot(ID)| == 80 && |Target()| == 109
    ensures HISTORY_ROOT + "/" <= OperationRoot() && OperationRoot() + "/" <= ArchiveRoot(ID) && ArchiveRoot(ID) + "/" <= Target()
    ensures HISTORY_ROOT[..6] == ".agent"
  {
    LongNames();
    IdName();
    HistoryIs();
    ArchiveRootIs();
    hide HISTORY, ID, CONFIG_PATH, HISTORY_ROOT, ArchiveRoot;
  }

  lemma NoSlash(s: string)
    requires PlainPart(s)
    ensures '/' !in s
  {
  }

  lemma TargetCuts(k: int)
    ensures CutAt(Target(), k) ==> k in {6, 35, 72, 80}
  {
    LongNames();
    IdName();
    ShortNames();
    Roots();
    hide PlainPart, Target, HISTORY, ID, CONFIG_PATH;
    var parts := TargetParts();
    var rest1, rest2, rest3 := [HISTORY, ID, "payload", CONFIG_PATH], [ID, "payload", CONFIG_PATH], ["payload", CONFIG_PATH];
    assert parts[1..] == rest1 && rest1[1..] == rest2 && rest2[1..] == rest3 && rest3[1..] == [CONFIG_PATH];
    NoSlash(".agent");
    NoSlash(HISTORY);
    NoSlash(ID);
    NoSlash("payload");
    NoSlash(CONFIG_PATH);
    CutsAfter(".agent", Joined(rest1), k);
    CutsAfter(HISTORY, Joined(rest2), k - 7);
    CutsAfter(ID, Joined(rest3), k - 36);
    CutsAfter("payload", CONFIG_PATH, k - 73);
  }

  lemma TargetAncestors(path: string)
    ensures path != ".agent" && path != Target() && Contains(path, Target()) <==> path in Containers()
  {
    AncestorsAreCuts(path, Target());
    TargetCuts(|path|);
    Sizes();
    hide HISTORY_ROOT, OperationRoot, ArchiveRoot, Target;
    assert Target()[..80] == ArchiveRoot(ID) && ArchiveRoot(ID)[..72] == OperationRoot() && OperationRoot()[..35] == HISTORY_ROOT;
    assert Target()[..72] == OperationRoot() && Target()[..35] == HISTORY_ROOT && Target()[..6] == HISTORY_ROOT[..6];
    assert HISTORY_ROOT + "/" <= Target() && OperationRoot() + "/" <= Target();
    assert Target()[35] == '/' && Target()[72] == '/' && Target()[80] == '/';
  }

  // ---------------------------------------------------------------- the plan

  /** What stands under protection: the runtime's own places, and the project. */
  function Protected(): seq<string> { [".agent/coordination", ".agent/work", ".git", ".tmp", ".vida", "proj"] }

  function SmallProject(): Project { Project("p", "proj") }

  function SmallConfig(): Content {
    Content("c", Some(RuntimeConfig("r", [SmallProject()], Protected())))
  }

  function SmallFile(): FileObservation {
    FileObservation(CONFIG_PATH, "1", 1, Sha256(SmallConfig()))
  }

  /** Archives the configuration, which is all there is. */
  function Draft(): Operation {
    Operation(ID, "/", "2", "w", Request("/", "r", [SmallProject()]), Runtime("v", "b", "d"), ArchiveRoot(ID),
              [SmallFile()], [], Protected(), [Move(CONFIG_PATH, Target(), "1", NotStarted)],
              [Container(HISTORY_ROOT, NotStarted, None), Container(OperationRoot(), NotStarted, None),
               Container(ArchiveRoot(ID), NotStarted, None)],
              Intent, None, NotStarted, CleanJournal.Draft)
  }

  function SmallOperation(): Operation {
    Draft().(binding := Sealed(ImmutablePlan(Draft())))
  }

  function SmallPlan(): Plan {
    Plan(ID, "/", "2", "w", Request("/", "r", [SmallProject()]), Runtime("v", "b", "d"), ArchiveRoot(ID),
         [SmallFile()], [], Protected(), [PlannedMove(CONFIG_PATH, Target(), "1")], Containers())
  }

  lemma PlanIs()
    ensures ImmutablePlan(SmallOperation()) == SmallPlan() && SmallOperation().binding == Sealed(SmallPlan())
  {
    hide Target, Protected, HISTORY_ROOT, ID, CONFIG_PATH, OperationRoot, ArchiveRoot;
    assert ImmutablePlan(Draft()).moves == SmallPlan().moves;
    assert ImmutablePlan(Draft()).containers == SmallPlan().containers;
  }

  lemma PathSafe(path: string, parts: seq<string>)
    requires PlainParts(parts) && path == Joined(parts)
    ensures Fine(path)
  {
    JoinedIs(parts);
    JoinedIsSafe(parts, false);
    JoinedIsSafe(parts, true);
  }

  predicate Fine(path: string) {
    PlainPath(path) && Fold(path) == path && SafePath(path, false) && SafePath(path, true)
  }

  lemma ManagedFine()
    ensures Fine(CONFIG_PATH) && Fine(Target()) && Fine(HISTORY_ROOT) && Fine(OperationRoot()) && Fine(ArchiveRoot(ID))
  {
    LongNames();
    IdName();
    ShortNames();
    Roots();
    hide PlainPart, Fine, Target, HISTORY_ROOT, OperationRoot, ArchiveRoot, HISTORY, ID, CONFIG_PATH;
    PathSafe(CONFIG_PATH, [CONFIG_PATH]);
    PathSafe(Target(), TargetParts());
    PathSafe(HISTORY_ROOT, HistoryParts());
    PathSafe(OperationRoot(), OperationParts());
    PathSafe(ArchiveRoot(ID), PayloadParts());
  }

  lemma ProtectedIs()
    ensures Joined([".agent", "coordination"]) == ".agent/coordination" && Joined([".agent", "work"]) == ".agent/work"
  {
    assert [".agent", "coordination"][1..] == ["coordination"];
    assert [".agent", "work"][1..] == ["work"];
    assert ".agent/coordination" == ".agent" + "/" + "coordination";
    assert ".agent/work" == ".agent" + "/" + "work";
  }

  lemma ProtectedFine()
    ensures forall g :: g in Protected() ==> Fine(g)
  {
    ShortNames();
    ProtectedIs();
    hide PlainPart, Fine;
    PathSafe(".agent/coordination", [".agent", "coordination"]);
    PathSafe(".agent/work", [".agent", "work"]);
    PathSafe(".git", [".git"]);
    PathSafe(".tmp", [".tmp"]);
    PathSafe(".vida", [".vida"]);
    PathSafe("proj", ["proj"]);
  }

  lemma PlainSpelling(paths: seq<string>)
    requires forall i :: 0 <= i < |paths| ==> Fine(paths[i])
    ensures ConsistentSpelling(paths)
  {
    forall a, b, p, q | 0 <= a < |paths| && 0 <= b < |paths| && ComponentPrefix(p, paths[a]) && ComponentPrefix(q, paths[b]) && Fold(p) == Fold(q)
      ensures p == q
    {
      assert PlainPath(paths[a]) && PlainPath(paths[b]);
      PlainFold(p);
      PlainFold(q);
    }
  }

  lemma OrderedIsDistinct(paths: seq<string>)
    requires Ordered(paths) && forall p :: p in paths ==> Fine(p)
    ensures FoldedDistinct(paths)
  {
    forall i, j | 0 <= i < j < |paths| ensures Fold(paths[i]) != Fold(paths[j]) {
      OrderedPairs(paths, i, j);
      LexLessIrreflexive(paths[i]);
      assert Fine(paths[i]) && Fine(paths[j]);
    }
  }

  lemma ContainersInOrder()
    ensures Ordered(Containers()) && FoldedDistinct(Containers())
  {
    Sizes();
    ManagedFine();
    hide Fold, Fine, HISTORY_ROOT, OperationRoot, ArchiveRoot, Target;
    ProperPrefixIsLess(HISTORY_ROOT, OperationRoot());
    ProperPrefixIsLess(OperationRoot(), ArchiveRoot(ID));
    assert Ordered(Containers()) by { hide LexLess; }
    OrderedIsDistinct(Containers());
  }

  lemma AgentPlacesInOrder()
    ensures LexLess(".agent/coordination", ".agent/work") && LexLess(".agent/work", ".git")
  {
    assert LexLess("coordination", "work") && LexLess("agent/work", "git");
    hide LexLess;
    LexAfter(".agent/", "coordination", "work");
    LexAfter(".", "agent/work", "git");
    assert ".agent/coordination" == ".agent/" + "coordination" && ".agent/work" == ".agent/" + "work";
    assert ".agent/work" == "." + "agent/work" && ".git" == "." + "git";
  }

  lemma OtherPlacesInOrder()
    ensures LexLess(".git", ".tmp") && LexLess(".tmp", ".vida") && LexLess(".vida", "proj")
  {
    assert LexLess("git", "tmp") && LexLess("tmp", "vida") && LexLess(".vida", "proj");
    hide LexLess;
    LexAfter(".", "git", "tmp");
    LexAfter(".", "tmp", "vida");
    assert ".git" == "." + "git" && ".tmp" == "." + "tmp" && ".vida" == "." + "vida";
  }

  lemma ProtectedInOrder()
    ensures Ordered(Protected()) && FoldedDistinct(Protected())
  {
    hide Fine, LexLess;
    ProtectedFine();
    AgentPlacesInOrder();
    OtherPlacesInOrder();
    OrderedIsDistinct(Protected());
  }

  lemma PrefixAgrees(a: string, b: string, i: nat)
    requires i < |a| && i < |b|
    ensures Contains(a, b) ==> a[i] == b[i]
  {
  }

  lemma DifferAt(a: string, b: string, i: nat)
    requires i < |a| && i < |b| && a[i] != b[i]
    ensures !Overlap(a, b) && !Overlap(b, a) && a != b
  {
    PrefixAgrees(a, b, i);
    PrefixAgrees(b, a, i);
  }

  lemma TargetChars()
    ensures |Target()| > 8 && Target()[0] == '.' && Target()[1] == 'a' && Target()[7] == 'c' && Target()[8] == 'l'
  {
    Sizes();
    assert HISTORY_ROOT[0] == '.' && HISTORY_ROOT[1] == 'a' && HISTORY_ROOT[7] == 'c' && HISTORY_ROOT[8] == 'l';
    hide HISTORY_ROOT, OperationRoot, ArchiveRoot, Target;
    assert HISTORY_ROOT <= Target();
  }

  lemma NothingOverlaps()
    ensures !Overlap(CONFIG_PATH, Target()) && CONFIG_PATH != Target()
    ensures forall g :: g in Protected() ==> g != "." && !Overlap(g, CONFIG_PATH) && !Overlap(g, Target())
  {
    TargetChars();
    assert CONFIG_PATH[0] == 'a' && |CONFIG_PATH| > 8;
    hide Target, Overlap, CONFIG_PATH;
    DifferAt(CONFIG_PATH, Target(), 0);
    forall g | g in Protected() ensures g != "." && !Overlap(g, CONFIG_PATH) && !Overlap(g, Target()) {
      GuardChars(g);
      DifferAt(g, CONFIG_PATH, 0);
      DifferAt(g, Target(), if g[0] != '.' then 0 else if g[1] != 'a' then 1 else if g[7] != 'c' then 7 else 8);
    }
  }

  /** Where a protected path differs from the configuration and from the archive. */
  lemma GuardChars(g: string)
    requires g in Protected()
    ensures |g| > 1 && g[0] != 'a'
    ensures g[0] == '.' && g[1] == 'a' ==> |g| > 8 && (g[7] == 'c' ==> g[8] != 'l')
  {
    assert g in {".agent/coordination", ".agent/work", ".git", ".tmp", ".vida", "proj"};
  }

  lemma {:induction false} LexAfter(prefix: string, a: string, b: string)
    requires LexLess(a, b)
    ensures LexLess(prefix + a, prefix + b)
  {
    if prefix == "" {
      assert prefix + a == a && prefix + b == b;
    } else {
      assert (prefix + a)[1..] == prefix[1..] + a && (prefix + b)[1..] == prefix[1..] + b;
      LexAfter(prefix[1..], a, b);
    }
  }

  lemma SmallLists()
    ensures Sources(SmallPlan()) == [CONFIG_PATH] && Targets(SmallPlan()) == [Target()]
    ensures ObservedPaths(SmallPlan().inventory) == [CONFIG_PATH] && ObservedPaths(SmallPlan().preserved) == []
  {
    hide Target, Protected, HISTORY_ROOT, ID, CONFIG_PATH, OperationRoot, ArchiveRoot;
  }

  lemma SmallSpelling()
    ensures ConsistentSpelling(Spelled(SmallPlan()))
  {
    ManagedFine();
    ProtectedFine();
    SmallLists();
    hide Fine, Target, Protected, HISTORY_ROOT, ID, CONFIG_PATH, OperationRoot, ArchiveRoot, ConsistentSpelling, Sources, Targets, ObservedPaths;
    forall p | p in Spelled(SmallPlan()) ensures Fine(p) {
      assert p in [ArchiveRoot(ID), CONFIG_PATH, Target()] || p in Protected() || p in Containers();
    }
    PlainSpelling(Spelled(SmallPlan()));
  }

  lemma AllFineIsSafe(paths: seq<string>, allowDot: bool)
    requires forall p :: p in paths ==> Fine(p)
    ensures AllSafe(paths, allowDot)
  {
    hide SafePath;
    forall i | 0 <= i < |paths| ensures SafePath(paths[i], allowDot) {
      assert Fine(paths[i]);
    }
  }

  lemma MovedApart()
    ensures FoldedDistinct([CONFIG_PATH, Target()]) && NoneOverlap([CONFIG_PATH, Target()]) && Ordered([CONFIG_PATH]) && Ordered([Target()])
  {
    ManagedFine();
    NothingOverlaps();
    hide SafePath, PlainPath, Fold, Target, CONFIG_PATH;
  }

  lemma SmallPaths()
    ensures PathsSound(SmallPlan())
  {
    ManagedFine();
    ProtectedFine();
    ContainersInOrder();
    ProtectedInOrder();
    MovedApart();
    SmallLists();
    SmallSpelling();
    hide Fine, Sources, Targets, ObservedPaths, Spelled, Protected, SafePath, Fold, Target, HISTORY_ROOT, OperationRoot, ArchiveRoot, CONFIG_PATH,
      LexLess, ConsistentSpelling, Contains;
    AllFineIsSafe([CONFIG_PATH, Target()], false);
    AllFineIsSafe([CONFIG_PATH], false);
    AllFineIsSafe(Containers(), false);
    AllFineIsSafe(Protected(), true);
    assert Sources(SmallPlan()) + Targets(SmallPlan()) + ObservedPaths(SmallPlan().preserved) == [CONFIG_PATH, Target()];
  }

  lemma SmallContainers()
    ensures ContainersSound(SmallPlan())
  {
    hide Target, Containers, Protected;
    var plan := SmallPlan();
    forall path ensures path in plan.containers <==> OwnedAncestor(plan, path) {
      TargetAncestors(path);
      assert plan.moves[0].target == Target();
    }
  }

  lemma TargetIs()
    ensures Target() == ArchiveRoot(ID) + "/" + CONFIG_PATH && CONFIG_PATH in ARCHIVE_SOURCES
  {
    hide HISTORY_ROOT, ID, CONFIG_PATH, ArchiveRoot;
    assert ARCHIVE_SOURCES[1] == CONFIG_PATH;
  }

  lemma GuardsApart()
    ensures forall g :: g in Protected() ==> !Protects(g, PlannedMove(CONFIG_PATH, Target(), "1"))
  {
    ManagedFine();
    ProtectedFine();
    NothingOverlaps();
    hide Fold, SafePath, PlainPath, Overlap, Target, Protected, CONFIG_PATH;
    assert forall g :: g in Protected() ==> Fine(g);
  }

  lemma SmallMoves()
    ensures MovesSound(SmallPlan()) && InventoryMatched(SmallPlan())
  {
    var plan := SmallPlan();
    TargetIs();
    GuardsApart();
    hide Fold, Target, Protected, Protects, CONFIG_PATH, ARCHIVE_SOURCES, ArchiveRoot, ID;
    assert SmallFile() in plan.inventory;
    assert MoveSound(plan, plan.moves[0]);
    assert plan.moves[0].source == plan.inventory[0].path;
  }

  lemma SmallSizes()
    ensures SizesSound(SmallPlan().inventory + SmallPlan().preserved)
  {
    hide Target, Protected, CONFIG_PATH, ArchiveRoot, ID, Containers;
    assert SmallPlan().inventory + SmallPlan().preserved == [SmallFile()];
    assert [SmallFile()][..0] == [];
  }

  lemma SmallSound()
    ensures PlanSound(SmallPlan()) && Valid(SmallOperation())
  {
    SmallPaths();
    SmallContainers();
    SmallMoves();
    SmallSizes();
    PlanIs();
    RequiredProtected();
    hide PathsSound, ContainersSound, MovesSound, InventoryMatched, SizesSound, ImmutablePlan, Target, Protected, ArchiveRoot, ID, CONFIG_PATH, HISTORY_ROOT;
  }

  lemma RequiredProtected()
    ensures forall path :: path in REQUIRED_PROTECTED_PATHS ==> path in Protected()
  {
    assert REQUIRED_PROTECTED_PATHS[0] == Protected()[0] && REQUIRED_PROTECTED_PATHS[1] == Protected()[1];
  }

  // ---------------------------------------------------------------- the repository

  function SmallWorld(): World {
    World(map[CONFIG_PATH := FileRecord("1", SmallConfig())], map["." := "2", "proj" := "3"], Some(SmallOperation()), None, Free, Down)
  }

  function SmallBinding(): FenceBinding {
    FenceBinding(SmallOperation().binding, [FencedProject(SmallProject(), "3")])
  }

  lemma SmallReadable()
    ensures OperationConfig(SmallWorld().files, SmallOperation()) == SmallConfig().config
    ensures MaintenanceBinding(SmallWorld(), SmallOperation()) == Some(SmallBinding())
  {
    hide Target, Protected, ImmutablePlan, ArchiveRoot, ID, CONFIG_PATH, HISTORY_ROOT;
    var projects := SmallConfig().config.value.projects;
    assert FencedProjects(SmallWorld().dirs, projects) == [FencedProject(SmallProject(), "3")];
  }

  lemma SmallCurrent()
    ensures CurrentOperation(SmallWorld(), SmallOperation())
  {
    SmallReadable();
    hide Valid, ImmutablePlan, OperationConfig, MaintenanceBinding, Protected, Target, ArchiveRoot, ID, CONFIG_PATH, HISTORY_ROOT;
    var w, op := SmallWorld(), SmallOperation();
    forall f | f in op.inventory + op.preserved ensures Holds(w.files, f.path, f) {
      assert f == SmallFile();
      assert |SmallConfig().raw| == 1;
    }
  }

  lemma SmallPlaces()
    ensures forall m :: m in SmallOperation().moves ==> m.target !in SmallWorld().files
    ensures forall c :: c in SmallOperation().containers ==> c.path !in SmallWorld().dirs
  {
    TargetChars();
    Sizes();
    assert CONFIG_PATH[0] == 'a';
    hide ImmutablePlan, Protected, Target, SmallConfig, ArchiveRoot, ID, CONFIG_PATH, HISTORY_ROOT, OperationRoot;
    assert forall m :: m in SmallOperation().moves ==> m.target == Target();
    assert forall c :: c in SmallOperation().containers ==> |c.path| > 4;
  }

  lemma SmallCovers()
    ensures Covers(SmallWorld().files, SmallOperation())
  {
    NotPreservable();
    hide Target, Protected, ImmutablePlan, SmallConfig, ArchiveRoot, ID, CONFIG_PATH, HISTORY_ROOT, PRESERVABLE_SOURCES, ARCHIVE_SOURCES;
    var op := SmallOperation();
    assert forall path :: Find(op.inventory, path).Some? <==> path == CONFIG_PATH by {
      assert op.inventory == [SmallFile()] && op.inventory[1..] == [];
    }
    assert forall path :: !Preserved(op, path);
  }

  lemma NotPreservable()
    ensures CONFIG_PATH !in PRESERVABLE_SOURCES
  {
  }

  lemma SmallPublished()
    ensures Published(SmallWorld())
  {
    SmallSound();
    SmallReadable();
    SmallCurrent();
    SmallPlaces();
    SmallCovers();
    IdName();
    hide Valid, Covers, IsUuid, ImmutablePlan, MaintenanceBinding, CurrentOperation, Protected, Target, ArchiveRoot, ID, CONFIG_PATH, HISTORY_ROOT, OperationRoot;
  }

  // ---------------------------------------------------------------- its run

  lemma HistoryParent()
    ensures Dirname(HISTORY_ROOT) == ".agent"
  {
    LongNames();
    NoSlash(HISTORY);
    HistoryIs();
    hide PlainPart, LastSlash, HISTORY, HISTORY_ROOT;
    LastSlashAfter(".agent", HISTORY);
  }

  lemma LastSlashAfter(a: string, b: string)
    requires '/' !in b
    ensures LastSlash(a + "/" + b) == |a| && (a + "/" + b)[..|a|] == a
  {
    var s := a + "/" + b;
    assert s[|a|] == '/';
    assert forall i :: |a| < i < |s| ==> s[i] == b[i - |a| - 1];
  }

  function SmallHeld(): World {
    SmallWorld().(session := Up(None), fence := Held(SmallBinding()))
  }

  lemma SmallBegins()
    ensures Step(SmallWorld(), Acquire, SmallHeld())
  {
    SmallReadable();
    SmallCurrent();
    hide Valid, ImmutablePlan, OperationConfig, CurrentOperation, MaintenanceBinding, Protected, Target, ArchiveRoot, ID, CONFIG_PATH, HISTORY_ROOT, OperationRoot;
  }

  lemma CrashStep(w: World)
    requires w.pending.Some?
    ensures Step(w, Crash, w.(session := Down))
  {
  }

  lemma FirstIssued()
    ensures var op := SmallOperation().(phase := Archiving);
            var w := SmallHeld().(pending := Some(op));
            && Enabled(w, op, IssueContainer(HISTORY_ROOT))
            && Next(w, op, IssueContainer(HISTORY_ROOT)).pending.Some?
            && (var op' := Next(w, op, IssueContainer(HISTORY_ROOT)).pending.value; |op'.containers| == 3 && op'.containers[0].state == Issued)
  {
    HistoryParent();
    Sizes();
    hide ImmutablePlan, Protected, Target, MaintenanceBinding, OperationConfig, CurrentOperation, SmallConfig, HISTORY, ArchiveRoot, ID, CONFIG_PATH,
      HISTORY_ROOT, OperationRoot, Dirname;
    var op := SmallOperation().(phase := Archiving);
    assert op.containers[0].path == HISTORY_ROOT && |op.containers[1].path| == 72 && |op.containers[2].path| == 80;
  }

  /** The first archive directory is issued, and the process that was going to make it is stopped. */
  lemma StuckIsReached() returns (trace: seq<World>, labels: seq<Label>)
    ensures OperationRun(trace, labels) && Stuck(trace[|labels|])
  {
    SmallPublished();
    SmallBegins();
    FirstIssued();
    hide Published, ImmutablePlan, Protected, Target, MaintenanceBinding, OperationConfig, CurrentOperation, ArchiveRoot, ID, CONFIG_PATH, HISTORY_ROOT, OperationRoot;
    var w0, w1 := SmallWorld(), SmallHeld();
    var op2 := SmallOperation().(phase := Archiving);
    var w2 := w1.(pending := Some(op2));
    assert Step(w1, BeginArchiving, w2);
    var w3 := Next(w2, op2, IssueContainer(HISTORY_ROOT));
    hide Enabled, Next;
    var w4 := w3.(session := Down);
    assert Step(w3, Crash, w4) by { CrashStep(w3); }
    assert StuckAt(w4, 0);
    trace, labels := [w0, w1, w2, w3, w4], [Acquire, BeginArchiving, IssueContainer(HISTORY_ROOT), Crash];
  }
}
