/** A project of one directory and one file, and the three crashes after which its relocation cannot be
    resumed. */
module RelocationExamples {
  import opened Listings
  import opened Outcomes
  import opened Paths
  import opened RelocationInventory
  import opened RelocationPlan
  import opened RelocationMachine
  import opened RelocationRuns

  // ---------------------------------------------------------------- the project

  function SmallPlan(): ItemPlan {
    ItemPlan("a", "b", ["a", "a/d"], [["d", "f"], []], [PlannedFile("a/f", "b/f", "1", 1, Sha256("x"))])
  }

  predicate ChildIs(path: string, parent: string, leaf: string) {
    LastSlash(path) == |parent| && Dirname(path) == parent && Leaf(path) == leaf && Fold(path) == path
  }

  lemma SmallPaths()
    ensures ChildIs("a/f", "a", "f") && ChildIs("a/d", "a", "d")
    ensures LastSlash("a") == -1 && Fold("a") == "a" && Fold("f") == "f" && Fold("d") == "d"
  {
    LastSlashIs("a/f", 1);
    LastSlashIs("a/d", 1);
    assert Fold("a/f")[0] == 'a' && Fold("a/f")[1] == '/' && Fold("a/f")[2] == 'f';
    assert Fold("a/d")[0] == 'a' && Fold("a/d")[1] == '/' && Fold("a/d")[2] == 'd';
    assert Fold("a")[0] == 'a' && Fold("f")[0] == 'f' && Fold("d")[0] == 'd';
  }

  lemma SmallNames()
    ensures EntryName("f") && EntryName("d")
  {
    SmallPaths();
    assert Stem("f") == "f" by { assert "f"[1..] == ""; }
    assert Stem("d") == "d" by { assert "d"[1..] == ""; }
  }

  lemma SmallListings()
    ensures DirectoryListed(SmallPlan(), 0) && DirectoryListed(SmallPlan(), 1)
  {
    var plan := SmallPlan();
    SmallPaths();
    SmallAll();
    hide Fold, LastSlash, Dirname, Leaf;
    forall n ensures n in plan.entries[0] <==> ChildNamed(AllPaths(plan), "a", n) {
      assert "a/f" in AllPaths(plan) && "a/d" in AllPaths(plan);
    }
    forall n ensures !ChildNamed(AllPaths(plan), "a/d", n) {
    }
  }

  lemma SmallAll()
    ensures AllPaths(SmallPlan()) == ["a", "a/d", "a/f"]
  {
    assert Sources(SmallPlan()) == ["a/f"];
  }

  lemma SmallEntries()
    ensures EntriesShaped(["d", "f"]) && EntriesShaped([])
  {
    hide EntryName, Fold;
    SmallPaths();
    SmallNames();
  }

  lemma SmallIsFrozen()
    ensures FrozenItem(SmallPlan())
  {
    var plan := SmallPlan();
    SmallPaths();
    SmallNames();
    SmallAll();
    SmallListings();
    SmallEntries();
    hide Fold, EntryName, LastSlash, Dirname, Leaf, DirectoryListed, EntriesShaped, AllPaths;
    assert plan.files[..0] == [];
  }

  lemma SmallTargets()
    ensures DirectoriesBelow(SmallPlan()) && TargetPaths(SmallPlan()) == ["b/d"]
  {
    var plan := SmallPlan();
    assert Rebase(plan, "a") == "b" && Rebase(plan, "a/d") == "b/d";
    assert plan.directories[1..] == ["a/d"] && ["a/d"][1..] == [];
    assert Rebased(plan, ["a/d"]) == ["b/d"];
    assert Rebased(plan, plan.directories) == ["b/d"];
    assert ["b/d"][1..] == [];
    assert Sort(["b/d"]) == Insert("b/d", Sort([]));
  }

  // ---------------------------------------------------------------- the operation

  function SmallRecord(made: seq<Made>, pending: Option<string>, state: EffectState, policyState: EffectState): Record {
    Record([Item(SmallPlan(), made, pending, [state])], Change("p", "q"), policyState, Change("c", "d"), None, Intent)
  }

  /** moved: the file is at its destination. */
  function SmallDisk(dirs: map<string, Identity>, moved: bool): Disk {
    Disk(dirs, map[if moved then "b/f" else "a/f" := FileRecord("1", "x")], "p", "c", None)
  }

  function Start0(): World {
    World(Some(SmallRecord([], None, NotStarted, NotStarted)), None, SmallDisk(map[], false), Down)
  }

  /** there: the directory is made. */
  function State(made: seq<Made>, pending: Option<string>, state: EffectState, policyState: EffectState, there: bool, moved: bool, act: Act): World {
    World(Some(SmallRecord(made, pending, state, policyState)), None, SmallDisk(if there then map["b/d" := "9"] else map[], moved), Up(act))
  }

  const DIRECTORY: seq<Made> := [Made("b/d", "9")]

  lemma SmallShape(made: seq<Made>, pending: Option<string>, state: EffectState, policyState: EffectState)
    ensures WellFormed(SmallRecord(made, pending, state, policyState))
    ensures TargetPaths(SmallPlan()) == ["b/d"]
    ensures made == DIRECTORY ==> RelocationMachine.Recorded(SmallRecord(made, pending, state, policyState).items[0], "b/d")
  {
    SmallTargets();
    hide TargetPaths, Sort, Rebased, DirectoriesBelow;
    var item := SmallRecord(made, pending, state, policyState).items[0];
    if made == DIRECTORY {
      assert item.made[0].path == "b/d";
    }
  }

  lemma SmallObserved(made: seq<Made>, pending: Option<string>, state: EffectState, there: bool, moved: bool)
    requires (made == [] && (pending.None? || (pending == Some("b/d") && there))) || (made == DIRECTORY && pending.None? && there)
    requires state == NotStarted <==> !moved
    ensures var w := State(made, pending, state, NotStarted, there, moved, Idle); Observed(w.disk, w.journal.value)
  {
    SmallShape(made, pending, state, NotStarted);
    hide TargetPaths, DirectoriesBelow;
  }

  /** There are operations to speak of: this is one. */
  lemma OperationExists()
    ensures Published(Start0())
  {
    var plan, record := SmallPlan(), Start0().journal.value;
    SmallIsFrozen();
    SmallTargets();
    SmallObserved([], None, NotStarted, false, false);
    assert SmallDisk(map[], false) == State([], None, NotStarted, NotStarted, false, false, Idle).disk;
    assert Plans(record) == [plan];
    assert !Overlap("a", "b");
    hide FrozenItem, Observed, TargetPaths, Overlap, DirectoriesBelow;
    assert RootsApart(Plans(record));
  }

  // ---------------------------------------------------------------- its run, state by state

  function Ready(): World { State([], None, NotStarted, NotStarted, false, false, Idle) }
  function Pending(): World { State([], Some("b/d"), NotStarted, NotStarted, false, false, Making(0, "b/d")) }
  function DirectoryMade(): World { State([], Some("b/d"), NotStarted, NotStarted, true, false, Idle) }
  function DirectoryRecorded(): World { State(DIRECTORY, None, NotStarted, NotStarted, true, false, Idle) }
  function FileIssued(): World { State(DIRECTORY, None, Issued, NotStarted, true, false, Moving(0, 0)) }
  function FileMoved(): World { State(DIRECTORY, None, Issued, NotStarted, true, true, Idle) }
  function FileCompleted(): World { State(DIRECTORY, None, Completed, NotStarted, true, true, Idle) }
  function PolicyIssued(): World { State(DIRECTORY, None, Completed, Issued, true, true, Replacing) }

  lemma OneElement<T>(a: T, b: T)
    ensures [a][0 := b] == [b]
  {
  }

  function ItemOf(w: World): Item
    requires w.journal.Some? && |w.journal.value.items| == 1
  {
    w.journal.value.items[0]
  }

  lemma DirectorySteps()
    ensures Step(Start0(), Start, Ready()) && Step(Ready(), PendDirectory(0, 0), Pending())
    ensures Step(Pending(), MakeDirectory(0, "9"), DirectoryMade())
  {
    OneElement(ItemOf(Ready()), ItemOf(Pending()));
    SmallObserved([], None, NotStarted, false, false);
    SmallShape([], None, NotStarted, NotStarted);
    hide TargetPaths, DirectoriesBelow, Observed, SmallPlan;
  }

  lemma RecordStep()
    ensures Step(DirectoryMade(), RecordDirectory(0), DirectoryRecorded())
  {
    OneElement(ItemOf(DirectoryMade()), ItemOf(DirectoryRecorded()));
    assert [] + DIRECTORY == DIRECTORY;
    SmallObserved([], Some("b/d"), NotStarted, true, false);
    SmallShape([], Some("b/d"), NotStarted, NotStarted);
    hide TargetPaths, DirectoriesBelow, Observed, SmallPlan;
  }

  lemma FileSteps()
    ensures Step(DirectoryRecorded(), IssueFile(0, 0), FileIssued())
    ensures Step(FileIssued(), MoveFile(0, 0), FileMoved())
  {
    OneElement(ItemOf(DirectoryRecorded()), ItemOf(FileIssued()));
    OneElement(NotStarted, Issued);
    assert DirectoryRecorded().disk.files - {"a/f"} == map[];
    SmallObserved(DIRECTORY, None, NotStarted, true, false);
    SmallShape(DIRECTORY, None, NotStarted, NotStarted);
    hide TargetPaths, DirectoriesBelow, Observed;
  }

  lemma CompleteSteps()
    ensures Step(FileMoved(), CompleteFile(0, 0), FileCompleted())
  {
    OneElement(ItemOf(FileMoved()), ItemOf(FileCompleted()));
    OneElement(Issued, Completed);
    SmallObserved(DIRECTORY, None, Issued, true, true);
    SmallShape(DIRECTORY, None, Issued, NotStarted);
    hide TargetPaths, DirectoriesBelow, Observed, SmallPlan;
  }

  lemma PolicySteps()
    ensures Step(FileCompleted(), IssuePolicy, PolicyIssued())
  {
    SmallObserved(DIRECTORY, None, Completed, true, true);
    SmallShape(DIRECTORY, None, Completed, NotStarted);
    hide TargetPaths, DirectoriesBelow, Observed, SmallPlan;
  }

  lemma CrashStep(w: World)
    requires w.journal.Some?
    ensures Step(w, Crash, w.(session := Down))
  {
  }

  /** A directory is pending and the process stops before making it. */
  lemma DirectoryLostIsReached() returns (trace: seq<World>, labels: seq<Label>)
    ensures OperationRun(trace, labels) && trace[|labels|].journal.Some? && DirectoryLost(trace[|labels|], trace[|labels|].journal.value)
  {
    hide Published, Step;
    OperationExists();
    DirectorySteps();
    var last := Pending().(session := Down);
    CrashStep(Pending());
    trace, labels := [Start0(), Ready(), Pending(), last], [Start, PendDirectory(0, 0), Crash];
    assert DirectoryPending(last.journal.value, 0);
  }

  /** The file is issued and the process stops before moving it. */
  lemma FileLostIsReached() returns (trace: seq<World>, labels: seq<Label>)
    ensures OperationRun(trace, labels) && trace[|labels|].journal.Some? && FileLost(trace[|labels|], trace[|labels|].journal.value)
  {
    hide Published, Step;
    OperationExists();
    DirectorySteps();
    RecordStep();
    FileSteps();
    var last := FileIssued().(session := Down);
    CrashStep(FileIssued());
    trace := [Start0(), Ready(), Pending(), DirectoryMade(), DirectoryRecorded(), FileIssued(), last];
    labels := [Start, PendDirectory(0, 0), MakeDirectory(0, "9"), RecordDirectory(0), IssueFile(0, 0), Crash];
    assert RelocationRuns.FileIssued(last.journal.value, 0, 0);
  }

  /** The policy is issued and the process stops before replacing it. */
  lemma PolicyLostIsReached() returns (trace: seq<World>, labels: seq<Label>)
    ensures OperationRun(trace, labels) && trace[|labels|].journal.Some? && PolicyLost(trace[|labels|], trace[|labels|].journal.value)
  {
    hide Published, Step;
    OperationExists();
    DirectorySteps();
    RecordStep();
    FileSteps();
    CompleteSteps();
    PolicySteps();
    var last := PolicyIssued().(session := Down);
    CrashStep(PolicyIssued());
    trace := [Start0(), Ready(), Pending(), DirectoryMade(), DirectoryRecorded(), FileIssued(), FileMoved(), FileCompleted(), PolicyIssued(), last];
    labels := [Start, PendDirectory(0, 0), MakeDirectory(0, "9"), RecordDirectory(0), IssueFile(0, 0), MoveFile(0, 0), CompleteFile(0, 0),
               IssuePolicy, Crash];
  }
}
