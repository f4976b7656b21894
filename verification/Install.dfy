/** Executing a local release: packing, taking over the native candidate, and the native installation, which
    is begun at most once. */
module Install {
  import opened Outcomes

  type Content = string

  /** SHA-256, taken to be injective. */
  datatype Digest = Sha256(preimage: Content)

  datatype Status = Prepared | Packing | Packed | Qualified | AwaitingAssurance | Installing | Successful | Failed
  datatype Locations = Locations(root: string, command: string)

  /** The file list recorded for a package archive, and its channel. */
  datatype Pack = Pack(files: seq<string>, native: bool)

  /** What a package archive holds, file by file in its order. */
  datatype Archive = Archive(bytes: Content, entries: seq<(string, Content)>)

  datatype Journal = Journal(status: Status, started: bool, pack: Option<Pack>, digest: Option<Digest>, source: Option<string>,
                             locations: Option<Locations>)

  /** The executable among the files of a native package. */
  datatype Asset = Asset(relative: string, sha256: Digest)

  /** What one execution finds: the qualified source, the archive on disk, whether a pack receipt is there,
      the repository's package files, the staged candidate and its executable, where to install, the prior
      release's own executable if that can be told, and whether the installed program answers as it should. */
  datatype Surroundings = Surroundings(source: Option<string>, archive: Archive, packReceipt: bool, package: map<string, Content>,
                                       candidate: Pack, asset: Asset, locations: Locations, prior: Option<Option<Content>>, answers: bool)

  // ---------------------------------------------------------------- the installed tree

  predicate SameFiles(tree: map<string, Content>, files: seq<string>) {
    (forall p :: p in tree ==> p in files) && forall p :: p in files ==> p in tree
  }

  /** verifyInstalledTree: exactly the archive's files, each with the package's bytes. */
  predicate TreeVerified(tree: map<string, Content>, files: seq<string>, package: map<string, Content>) {
    SameFiles(tree, files) && forall p :: p in files ==> p in package && p in tree && tree[p] == package[p]
  }

  function Unpacked(entries: seq<(string, Content)>): map<string, Content> {
    if entries == [] then map[]
    else Unpacked(entries[..|entries| - 1])[entries[|entries| - 1].0 := entries[|entries| - 1].1]
  }

  // ---------------------------------------------------------------- the release as a machine

  /** How far the process that journaled the start is; Away when there is no such process. */
  datatype Stage = Away | Begun | Extracting | Extracted | Published

  datatype World = World(journal: Journal, recorded: Option<Journal>, tree: Option<map<string, Content>>, command: Option<Content>, stage: Stage)

  datatype Label =
    | SavePack(files: seq<string>, digest: Digest)
    | SaveStatus(status: Status, source: Option<string>)
    | Retarget(pack: Pack, digest: Digest, qualified: string)
    | Begin(locations: Locations)
    | MakeTree
    | WriteFile(path: string, content: Content)
    | VerifyTree
    | PublishCommand(content: Content)
    | SaveSuccess
    | Record
    | Leave

  /** The tree is the packed archive's, file for file, and the command is there. */
  predicate Whole(w: World) {
    w.journal.pack.Some? && w.tree.Some? && SameFiles(w.tree.value, w.journal.pack.value.files) && w.command.Some?
  }

  predicate Enabled(w: World, l: Label) {
    match l
    case SavePack(files, digest) => w.stage.Away? && w.journal.pack.None?
    case SaveStatus(status, source) => w.stage.Away? && status != Installing && status != Successful
    case Retarget(pack, digest, qualified) =>
      && w.stage.Away? && w.journal.status == AwaitingAssurance && !w.journal.started
      && w.journal.pack.Some? && !w.journal.pack.value.native && pack.native
    case Begin(locations) =>
      w.stage.Away? && w.journal.status == Qualified && !w.journal.started && w.journal.pack.Some? && w.journal.pack.value.native
    case MakeTree => w.stage.Begun? && w.tree.None?
    case WriteFile(path, content) => w.stage.Extracting? && w.tree.Some? && w.journal.pack.Some? && path in w.journal.pack.value.files
    case VerifyTree => w.stage.Extracting? && w.tree.Some? && w.journal.pack.Some? && SameFiles(w.tree.value, w.journal.pack.value.files)
    case PublishCommand(content) => w.stage.Extracted?
    case SaveSuccess => w.journal.started && (w.stage.Away? || w.stage.Published?) && Whole(w)
    case Record => w.stage.Away? && w.journal.status == Successful
    case Leave => true
  }

  function Next(w: World, l: Label): World
    requires Enabled(w, l)
  {
    match l
    case SavePack(files, digest) => w.(journal := w.journal.(status := Packed, pack := Some(Pack(files, false)), digest := Some(digest)))
    case SaveStatus(status, source) => w.(journal := w.journal.(status := status, source := source))
    case Retarget(pack, digest, qualified) => w.(journal := w.journal.(pack := Some(pack), digest := Some(digest), source := Some(qualified)))
    case Begin(locations) => w.(journal := w.journal.(status := Installing, started := true, locations := Some(locations)), stage := Begun)
    case MakeTree => w.(tree := Some(map[]), stage := Extracting)
    case WriteFile(path, content) => w.(tree := Some(w.tree.value[path := content]))
    case VerifyTree => w.(stage := Extracted)
    case PublishCommand(content) => w.(command := Some(content), stage := Published)
    case SaveSuccess => w.(journal := w.journal.(status := Successful), stage := Away)
    case Record => w.(recorded := Some(w.journal))
    case Leave => w.(stage := Away)
  }

  predicate Step(w: World, l: Label, w': World) {
    Enabled(w, l) && w' == Next(w, l)
  }

  /** A prepared release; what stands where it is going to be installed may be anything. */
  predicate Fresh(w: World) {
    w.journal == Journal(Prepared, false, None, None, None, None) && w.recorded.None? && w.stage.Away?
  }

  ghost predicate IsRun(trace: seq<World>, labels: seq<Label>) {
    && |trace| == |labels| + 1 && Fresh(trace[0])
    && forall i :: 0 <= i < |labels| ==> Step(trace[i], labels[i], trace[i + 1])
  }

  // ---------------------------------------------------------------- what every write keeps

  ghost predicate Inv(w: World) {
    && w.journal.pack.Some? == w.journal.digest.Some?
    && (w.journal.started ==> w.journal.pack.Some? && w.journal.pack.value.native && w.journal.locations.Some?)
    && (!w.stage.Away? ==> w.journal.started && w.journal.status == Installing && w.recorded.None?)
    && (w.stage.Extracting? ==> w.tree.Some?)
    && (w.stage.Extracted? ==> w.tree.Some? && SameFiles(w.tree.value, w.journal.pack.value.files))
    && (w.stage.Published? ==> Whole(w))
    && (w.journal.status == Successful ==> w.journal.started && Whole(w))
    && (w.recorded.Some? ==>
          && w.journal.started && Whole(w) && w.recorded.value.status == Successful
          && w.recorded.value.pack == w.journal.pack && w.recorded.value.digest == w.journal.digest)
  }

  lemma StepKeepsInv(w: World, l: Label, w': World)
    requires Inv(w) && Step(w, l, w')
    ensures Inv(w')
  {
  }

  lemma {:induction false} RunKeepsInv(trace: seq<World>, labels: seq<Label>, i: nat)
    requires IsRun(trace, labels) && i < |trace|
    ensures Inv(trace[i])
    decreases i
  {
    hide Step;
    if i > 0 {
      hide Inv;
      RunKeepsInv(trace, labels, i - 1);
      StepKeepsInv(trace[i - 1], labels[i - 1], trace[i]);
    }
  }

  lemma RunGrows(trace: seq<World>, labels: seq<Label>, l: Label, w: World)
    requires IsRun(trace, labels) && Step(trace[|labels|], l, w)
    ensures IsRun(trace + [w], labels + [l])
  {
    hide Step;
    var longer, steps := trace + [w], labels + [l];
    forall i | 0 <= i < |steps| ensures Step(longer[i], steps[i], longer[i + 1]) {
      if i < |labels| {
        assert Step(trace[i], labels[i], trace[i + 1]);
      }
    }
  }

  // ---------------------------------------------------------------- over all executions of an operation

  function Starts(labels: seq<Label>): nat {
    if labels == [] then 0 else Starts(labels[..|labels| - 1]) + if labels[|labels| - 1].Begin? then 1 else 0
  }

  function Extractions(labels: seq<Label>): nat {
    if labels == [] then 0 else Extractions(labels[..|labels| - 1]) + if labels[|labels| - 1].MakeTree? then 1 else 0
  }

  function Publications(labels: seq<Label>): nat {
    if labels == [] then 0 else Publications(labels[..|labels| - 1]) + if labels[|labels| - 1].PublishCommand? then 1 else 0
  }

  /** Over any sequence of executions and crashes the start is journaled at most once, and extraction and
      publication of the native tree are begun at most once each, by the process that journaled it. */
  lemma {:induction false} BegunAtMostOnce(trace: seq<World>, labels: seq<Label>)
    requires IsRun(trace, labels)
    ensures var w := trace[|labels|];
            && Starts(labels) == (if w.journal.started then 1 else 0)
            && Extractions(labels) + (if w.stage.Begun? then 1 else 0) <= Starts(labels)
            && Publications(labels) + (if w.stage.Begun? || w.stage.Extracting? || w.stage.Extracted? then 1 else 0) <= Starts(labels)
    decreases |labels|
  {
    var n := |labels|;
    if n > 0 {
      BegunAtMostOnce(trace[..n], labels[..n - 1]);
      assert Step(trace[n - 1], labels[n - 1], trace[n]);
      CountStep(trace[n - 1], labels[n - 1], trace[n], labels[..n - 1]);
      assert labels == labels[..n - 1] + [labels[n - 1]];
      RunKeepsInv(trace, labels, n - 1);
    }
  }

  lemma CountStep(w: World, l: Label, w': World, before: seq<Label>)
    ensures Starts(before + [l]) == Starts(before) + if l.Begin? then 1 else 0
    ensures Extractions(before + [l]) == Extractions(before) + if l.MakeTree? then 1 else 0
    ensures Publications(before + [l]) == Publications(before) + if l.PublishCommand? then 1 else 0
  {
    assert (before + [l])[..|before|] == before;
  }

  /** A started journal keeps the archive and the places it was started with; before that the archive is
      exchanged once at most, for the native one. */
  predicate ArchiveKept(a: Journal, b: Journal) {
    && (a.started ==> b.started && b.pack == a.pack && b.digest == a.digest && b.locations == a.locations)
    && (a.pack.Some? ==> b.pack.Some? && ((b.pack == a.pack && b.digest == a.digest) || (!a.pack.value.native && b.pack.value.native)))
  }

  lemma ArchiveStep(w: World, l: Label, w': World)
    requires Inv(w) && Step(w, l, w')
    ensures ArchiveKept(w.journal, w'.journal)
  {
  }

  lemma ArchiveStays(trace: seq<World>, labels: seq<Label>, i: nat, j: nat)
    requires IsRun(trace, labels) && i <= j < |trace|
    ensures var a, b := trace[i].journal, trace[j].journal;
            && (a.started ==> b.started && b.pack == a.pack && b.digest == a.digest && b.locations == a.locations)
            && (a.pack.Some? && a.pack.value.native ==> b.pack == a.pack && b.digest == a.digest)
            && (a.pack.Some? ==> b.pack.Some? && (b.pack.value.native || (b.pack == a.pack && b.digest == a.digest)))
  {
    ArchiveIsKept(trace, labels, i, j);
  }

  lemma {:induction false} ArchiveIsKept(trace: seq<World>, labels: seq<Label>, i: nat, j: nat)
    requires IsRun(trace, labels) && i <= j < |trace|
    ensures ArchiveKept(trace[i].journal, trace[j].journal)
    decreases j
  {
    hide Step, Inv;
    if i < j {
      ArchiveIsKept(trace, labels, i, j - 1);
      RunKeepsInv(trace, labels, j - 1);
      ArchiveStep(trace[j - 1], labels[j - 1], trace[j]);
    }
  }

  /** Success is recorded only of a tree that has the packed archive's files, all of them and no others, and
      of a published command. */
  lemma RecordedIsInstalled(trace: seq<World>, labels: seq<Label>, i: nat)
    requires IsRun(trace, labels) && i < |trace| && (trace[i].recorded.Some? || trace[i].journal.status == Successful)
    ensures trace[i].journal.started && trace[i].journal.pack.Some? && trace[i].tree.Some? && trace[i].command.Some?
    ensures forall p :: p in trace[i].tree.value <==> p in trace[i].journal.pack.value.files
    ensures trace[i].recorded.Some? ==> trace[i].recorded.value.pack == trace[i].journal.pack && trace[i].recorded.value.digest == trace[i].journal.digest
  {
    RunKeepsInv(trace, labels, i);
  }

  /** The process that journaled the start is gone. */
  predicate Left(w: World) {
    w.journal.started && w.stage.Away?
  }

  lemma LeftStep(w: World, l: Label, w': World)
    requires Inv(w) && Left(w) && Step(w, l, w')
    ensures Left(w') && w'.tree == w.tree && w'.command == w.command && w'.journal.pack == w.journal.pack
  {
  }

  /** Once that process is gone nobody touches the tree or the command again: what it left short of whole
      is never installed. */
  lemma {:induction false} LeftForGood(trace: seq<World>, labels: seq<Label>, i: nat, j: nat)
    requires IsRun(trace, labels) && i <= j < |trace| && Left(trace[i])
    ensures Left(trace[j]) && trace[j].tree == trace[i].tree && trace[j].command == trace[i].command
    ensures trace[j].journal.pack == trace[i].journal.pack
    ensures !Whole(trace[i]) ==> trace[j].recorded.None? && trace[j].journal.status != Successful
    decreases j
  {
    hide Step;
    RunKeepsInv(trace, labels, j);
    if i < j {
      LeftForGood(trace, labels, i, j - 1);
      RunKeepsInv(trace, labels, j - 1);
      LeftStep(trace[j - 1], labels[j - 1], trace[j]);
    }
  }

  // ---------------------------------------------------------------- one installation, and one cut short

  lemma OneMore(trace: seq<World>, labels: seq<Label>, l: Label) returns (trace': seq<World>, labels': seq<Label>)
    requires IsRun(trace, labels) && Enabled(trace[|labels|], l)
    ensures IsRun(trace', labels') && labels' == labels + [l] && trace'[|labels'|] == Next(trace[|labels|], l)
    ensures Extractions(labels') == Extractions(labels) + if l.MakeTree? then 1 else 0
    ensures Publications(labels') == Publications(labels) + if l.PublishCommand? then 1 else 0
  {
    hide Enabled, Next, Extractions, Publications;
    trace', labels' := trace + [Next(trace[|labels|], l)], labels + [l];
    RunGrows(trace, labels, l, Next(trace[|labels|], l));
    CountStep(trace[|labels|], l, Next(trace[|labels|], l), labels);
  }

  function PreparedRelease(): World {
    World(Journal(Prepared, false, None, None, None, None), None, None, None, Away)
  }

  /** Packed for npm, taken over by the native candidate, started. */
  function StartedLabels(): seq<Label> {
    [SavePack(["f"], Sha256("npm")), SaveStatus(AwaitingAssurance, Some("s")), Retarget(Pack(["f"], true), Sha256("native"), "s"),
     SaveStatus(Qualified, Some("s")), Begin(Locations("r", "c"))]
  }

  function StartedRelease(): World {
    World(Journal(Installing, true, Some(Pack(["f"], true)), Some(Sha256("native")), Some("s"), Some(Locations("r", "c"))), None, None, None, Begun)
  }

  /** There are operations that get an installation begun. */
  lemma StartIsReached() returns (trace: seq<World>)
    ensures IsRun(trace, StartedLabels()) && trace[5] == StartedRelease()
  {
    var w0 := PreparedRelease();
    var w1 := Next(w0, StartedLabels()[0]);
    var w2 := Next(w1, StartedLabels()[1]);
    var w3 := Next(w2, StartedLabels()[2]);
    var w4 := Next(w3, StartedLabels()[3]);
    trace := [w0, w1, w2, w3, w4, StartedRelease()];
  }

  /** From there one process gets it recorded. */
  lemma SuccessIsReached() returns (trace: seq<World>, labels: seq<Label>)
    ensures IsRun(trace, labels) && trace[|labels|].recorded.Some? && Extractions(labels) == Publications(labels) == 1
  {
    hide IsRun;
    trace := StartIsReached();
    labels := StartedLabels();
    BegunAtMostOnce(trace, labels);
    trace, labels := OneMore(trace, labels, MakeTree);
    trace, labels := OneMore(trace, labels, WriteFile("f", "x"));
    trace, labels := OneMore(trace, labels, VerifyTree);
    trace, labels := OneMore(trace, labels, PublishCommand("x"));
    trace, labels := OneMore(trace, labels, SaveSuccess);
    trace, labels := OneMore(trace, labels, Record);
  }

  /** Or stops right there, and then nobody ever does. */
  lemma InterruptionIsReached() returns (trace: seq<World>, labels: seq<Label>)
    ensures IsRun(trace, labels) && Left(trace[|labels|]) && !Whole(trace[|labels|])
  {
    hide IsRun;
    trace := StartIsReached();
    trace, labels := OneMore(trace, StartedLabels(), Leave);
  }

  // ---------------------------------------------------------------- the program

  /** Whether an execution that is not stopped gets the release installed, from what it finds. */
  predicate Installs(w: World, s: Surroundings) {
    && Qualifies(w.journal, s) && w.journal.pack.Some? && w.journal.pack.value.native
    && s.candidate == w.journal.pack.value && s.answers
    && if w.journal.started then Installed(w, s) else Installable(w, s)
  }

  /** The source is qualified and the same, and so is the archive. */
  predicate Qualifies(j: Journal, s: Surroundings) {
    s.source.Some? && (j.source.Some? ==> j.source == s.source) && (j.pack.Some? ==> j.digest == Some(Sha256(s.archive.bytes)))
  }

  /** What is there is what an earlier process would have left, had it got through. */
  predicate Installed(w: World, s: Surroundings) {
    && w.journal.locations == Some(s.locations) && w.journal.pack.Some?
    && w.tree.Some? && TreeVerified(w.tree.value, w.journal.pack.value.files, s.package)
    && w.command.Some? && Sha256(w.command.value) == s.asset.sha256
  }

  /** Nothing is there but the prior command, and the archive is what it should be. */
  predicate Installable(w: World, s: Surroundings) {
    && s.prior == Some(w.command) && w.tree.None? && w.journal.pack.Some?
    && (forall e :: e in s.archive.entries ==> e.0 in w.journal.pack.value.files)
    && (var tree := Unpacked(s.archive.entries);
        && TreeVerified(tree, w.journal.pack.value.files, s.package)
        && s.asset.relative in tree && Sha256(tree[s.asset.relative]) == s.asset.sha256)
  }

  /** Whether a pack-only execution that is not stopped gets through: a qualified source, which may only
      have changed before the start and, where nothing is packed yet, with a pack receipt there; and where
      something is packed, the npm package on disk. */
  predicate Packs(j: Journal, s: Surroundings) {
    && s.source.Some?
    && (j.source.Some? && j.source != s.source ==> !j.started && (j.pack.None? ==> s.packReceipt))
    && (j.pack.Some? ==> !j.pack.value.native && j.digest == Some(Sha256(s.archive.bytes)))
  }

  /** The journal a pack-only execution leaves. */
  predicate PackedAs(before: Journal, after: Journal, s: Surroundings) {
    && after.status == AwaitingAssurance && after.source == s.source && after.digest == Some(Sha256(s.archive.bytes))
    && after.pack.Some? && !after.pack.value.native
    && (before.pack.Some? ==> after.pack == before.pack)
    && (before.pack.None? ==>
          && |after.pack.value.files| == |s.archive.entries|
          && forall k :: 0 <= k < |s.archive.entries| ==> after.pack.value.files[k] == s.archive.entries[k].0)
    && after.started == before.started && after.locations == before.locations
  }

  /** Packing again, with nothing changed, gets through as well and leaves the same journal. */
  lemma PackingRepeats(before: Journal, after: Journal, s: Surroundings)
    requires PackedAs(before, after, s) && s.source.Some?
    ensures Packs(after, s) && forall again :: PackedAs(after, again, s) ==> again == after
  {
  }

  class Release {
    var journal: Journal
    var recorded: Option<Journal>
    var tree: Option<map<string, Content>>
    var command: Option<Content>
    var stage: Stage
    ghost var history: seq<World>
    ghost var labels: seq<Label>

    function State(): World
      reads this
    {
      World(journal, recorded, tree, command, stage)
    }

    ghost predicate Running()
      reads this
    {
      IsRun(history, labels) && |history| == |labels| + 1 && history[|labels|] == State()
    }

    constructor (tree: Option<map<string, Content>>, command: Option<Content>)
      ensures Running() && State() == PreparedRelease().(tree := tree, command := command) && labels == []
    {
      this.journal, this.recorded, this.tree, this.command, this.stage := PreparedRelease().journal, None, tree, command, Away;
      this.history, this.labels := [PreparedRelease().(tree := tree, command := command)], [];
    }

    ghost method Log(before: World, l: Label)
      requires IsRun(history, labels) && |history| == |labels| + 1 && history[|labels|] == before && Step(before, l, State())
      modifies this`history, this`labels
      ensures Running() && history == old(history) + [State()] && labels == old(labels) + [l]
    {
      hide Step;
      RunGrows(history, labels, l, State());
      history, labels := history + [State()], labels + [l];
    }

    lemma Here()
      requires Running()
      ensures Inv(State())
    {
      RunKeepsInv(history, labels, |labels|);
    }

    method Stops(uninterrupted: bool) returns (stop: bool)
      ensures uninterrupted ==> !stop
    {
      stop := *;
      stop := stop && !uninterrupted;
    }

    /** update: the journal with a new status, saved in one step. */
    method Update(status: Status, source: Option<string>, uninterrupted: bool) returns (r: Outcome<()>)
      requires Running() && stage.Away? && status != Installing && status != Successful
      modifies this`journal, this`history, this`labels
      ensures Running() && old(history) <= history && !r.Refused? && (r.Crashed? ==> !uninterrupted && State() == old(State()))
      ensures r.Done? ==> State() == old(State()).(journal := old(journal).(status := status, source := source))
      ensures labels == old(labels) + if r.Done? then [SaveStatus(status, source)] else []
    {
      hide IsRun;
      ghost var before := State();
      var stop := Stops(uninterrupted);
      if stop { return Crashed; }
      journal := journal.(status := status, source := source);
      Log(before, SaveStatus(status, source));
      return Done(());
    }

    method Go()
      requires Running()
      modifies this`stage, this`history, this`labels
      ensures Running() && old(history) <= history && State() == old(State()).(stage := Away)
    {
      hide IsRun;
      ghost var before := State();
      stage := Away;
      Log(before, Leave);
    }

    /** applyReleaseRetarget: the native candidate takes the place of the npm package in the journal. */
    method TakeOver(candidate: Pack, digest: Digest, source: string, uninterrupted: bool) returns (r: Outcome<()>)
      requires Running() && stage.Away?
      modifies this`journal, this`history, this`labels
      ensures Running() && old(history) <= history && (r.Crashed? ==> !uninterrupted) && (!r.Done? ==> State() == old(State()))
      ensures !r.Crashed? ==> (r.Done? <==> old(journal).status == AwaitingAssurance && !old(journal).started && old(journal).pack.Some?
                                            && !old(journal).pack.value.native && candidate.native)
      ensures r.Done? ==> State() == old(State()).(journal := old(journal).(pack := Some(candidate), digest := Some(digest), source := Some(source)))
    {
      hide IsRun;
      if journal.status != AwaitingAssurance || journal.started || journal.pack.None? || journal.pack.value.native || !candidate.native {
        return Refused;
      }
      ghost var before := State();
      var stop := Stops(uninterrupted);
      if stop { return Crashed; }
      journal := journal.(pack := Some(candidate), digest := Some(digest), source := Some(source));
      Log(before, Retarget(candidate, digest, source));
      return Done(());
    }

    /** One file out of the archive, which may hold no others than are listed. */
    method ExtractFile(pack: Pack, entry: (string, Content), uninterrupted: bool) returns (r: Outcome<()>)
      requires Running() && stage.Extracting? && tree.Some? && journal.pack == Some(pack)
      modifies this`tree, this`history, this`labels
      ensures Running() && old(history) <= history && (r.Crashed? ==> !uninterrupted) && (r.Refused? <==> entry.0 !in pack.files)
      ensures r.Done? ==> State() == old(State()).(tree := Some(old(tree).value[entry.0 := entry.1]))
      ensures !r.Done? ==> State() == old(State())
    {
      hide IsRun;
      if entry.0 !in pack.files { return Refused; }
      var stop := Stops(uninterrupted);
      if stop { return Crashed; }
      ghost var before := State();
      tree := Some(tree.value[entry.0 := entry.1]);
      Log(before, WriteFile(entry.0, entry.1));
      return Done(());
    }

    /** extractNativeTree: into a directory that must not be there yet, nothing but the listed files, then verified. */
    method Extract(pack: Pack, s: Surroundings, uninterrupted: bool) returns (r: Outcome<()>)
      requires Running() && stage.Begun? && journal.pack == Some(pack)
      modifies this`tree, this`stage, this`history, this`labels
      ensures Running() && old(history) <= history && (r.Crashed? ==> !uninterrupted)
      ensures r.Done? ==> old(tree).None? && stage.Extracted? && tree == Some(Unpacked(s.archive.entries))
      ensures r.Done? ==> TreeVerified(Unpacked(s.archive.entries), pack.files, s.package) && forall e :: e in s.archive.entries ==> e.0 in pack.files
      ensures r.Refused? ==> old(tree).Some? || !TreeVerified(Unpacked(s.archive.entries), pack.files, s.package)
                             || exists e :: e in s.archive.entries && e.0 !in pack.files
      ensures old(tree).Some? ==> r.Refused? && State() == old(State())
    {
      hide IsRun, TreeVerified;
      if tree.Some? { return Refused; }
      var stop := Stops(uninterrupted);
      if stop { return Crashed; }
      ghost var before := State();
      tree, stage := Some(map[]), Extracting;
      Log(before, MakeTree);
      for k := 0 to |s.archive.entries|
        invariant Running() && old(history) <= history && stage.Extracting? && journal == old(journal)
        invariant tree == Some(Unpacked(s.archive.entries[..k]))
        invariant forall j :: 0 <= j < k ==> s.archive.entries[j].0 in pack.files
      {
        assert s.archive.entries[..k + 1][..k] == s.archive.entries[..k];
        var extracted := ExtractFile(pack, s.archive.entries[k], uninterrupted);
        if !extracted.Done? {
          assert extracted.Refused? ==> s.archive.entries[k] in s.archive.entries;
          return extracted;
        }
      }
      assert s.archive.entries[..|s.archive.entries|] == s.archive.entries;
      if !TreeVerified(tree.value, pack.files, s.package) { return Refused; }
      assert SameFiles(tree.value, pack.files) by { VerifiedIsSame(tree.value, pack.files, s.package); }
      before := State();
      stage := Extracted;
      Log(before, VerifyTree);
      return Done(());
    }

    lemma VerifiedIsSame(tree: map<string, Content>, files: seq<string>, package: map<string, Content>)
      requires TreeVerified(tree, files, package)
      ensures SameFiles(tree, files)
    {
    }

    /** publishNativeExecutable: over the prior release's own executable, or where there is none. */
    method PublishExecutable(s: Surroundings, uninterrupted: bool) returns (r: Outcome<()>)
      requires Running() && stage.Extracted? && tree.Some? && s.prior.Some?
      modifies this`command, this`stage, this`history, this`labels
      ensures Running() && old(history) <= history && (r.Crashed? ==> !uninterrupted) && (!r.Done? ==> State() == old(State()))
      ensures !r.Crashed? ==> (r.Done? <==> s.asset.relative in tree.value && Sha256(tree.value[s.asset.relative]) == s.asset.sha256
                                            && Some(old(command)) == s.prior)
      ensures r.Done? ==> State() == old(State()).(command := Some(tree.value[s.asset.relative]), stage := Published)
    {
      hide IsRun;
      if s.asset.relative !in tree.value || Sha256(tree.value[s.asset.relative]) != s.asset.sha256 || Some(command) != s.prior {
        return Refused;
      }
      var stop := Stops(uninterrupted);
      if stop { return Crashed; }
      ghost var before := State();
      command, stage := Some(tree.value[s.asset.relative]), Published;
      Log(before, PublishCommand(tree.value[s.asset.relative]));
      return Done(());
    }

    method Start(locations: Locations, uninterrupted: bool) returns (r: Outcome<()>)
      requires Running() && stage.Away? && journal.status == Qualified && !journal.started && journal.pack.Some? && journal.pack.value.native
      modifies this`journal, this`stage, this`history, this`labels
      ensures Running() && old(history) <= history && !r.Refused? && (r.Crashed? ==> !uninterrupted && State() == old(State()))
      ensures r.Done? ==> State() == old(State()).(journal := old(journal).(status := Installing, started := true, locations := Some(locations)), stage := Begun)
    {
      hide IsRun;
      ghost var before := State();
      var stop := Stops(uninterrupted);
      if stop { return Crashed; }
      journal, stage := journal.(status := Installing, started := true, locations := Some(locations)), Begun;
      Log(before, Begin(locations));
      return Done(());
    }

    /** installNativeRelease. Once begun it is only ever checked, never begun again. */
    method InstallNative(pack: Pack, s: Surroundings, uninterrupted: bool) returns (r: Outcome<()>)
      requires Running() && stage.Away? && journal.pack == Some(pack) && pack.native && journal.status == Qualified
      modifies this
      ensures Running() && old(history) <= history && recorded == old(recorded) && (r.Crashed? ==> !uninterrupted)
      ensures journal.pack == old(journal).pack && journal.digest == old(journal).digest && journal.status != Successful
      ensures old(journal).started ==> State() == old(State())
      ensures r.Done? ==> (stage.Away? || stage.Published?) && Installed(State(), s) && journal.started
      ensures !r.Crashed? ==>
                (r.Done? <==> s.candidate == pack && s.answers && if old(journal).started then Installed(old(State()), s) else Installable(old(State()), s))
    {
      hide IsRun, TreeVerified;
      if s.candidate != pack { return Refused; }
      if journal.started {
        if journal.locations != Some(s.locations) { return Refused; }
        if tree.None? || !TreeVerified(tree.value, pack.files, s.package) { return Refused; }
        if command.None? || Sha256(command.value) != s.asset.sha256 { return Refused; }
      } else {
        if s.prior.None? { return Refused; }
        var _ :- Start(s.locations, uninterrupted);
        var _ :- Extract(pack, s, uninterrupted);
        var _ :- PublishExecutable(s, uninterrupted);
      }
      if !s.answers { return Refused; }
      return Done(());
    }

    /** Packing for npm, unless that is done. */
    method PackOnce(s: Surroundings, changed: bool, packOnly: bool, uninterrupted: bool) returns (r: Outcome<()>)
      requires Running() && stage.Away? && s.source.Some? && changed == (journal.source.Some? && journal.source != s.source)
      modifies this`journal, this`history, this`labels
      ensures Running() && old(history) <= history && (r.Crashed? ==> !uninterrupted)
      ensures State() == old(State()).(journal := journal) && journal.started == old(journal).started
      ensures old(journal).pack.Some? ==> journal == old(journal) && (r.Done? <==> journal.digest == Some(Sha256(s.archive.bytes)))
      ensures r.Done? ==> journal.pack.Some? && journal.locations == old(journal).locations
      ensures r.Done? && old(journal).pack.None? ==>
                && journal.digest == Some(Sha256(s.archive.bytes)) && !journal.pack.value.native
                && |journal.pack.value.files| == |s.archive.entries|
                && forall k :: 0 <= k < |s.archive.entries| ==> journal.pack.value.files[k] == s.archive.entries[k].0
      ensures old(journal).pack.None? && !r.Crashed? ==> (r.Done? <==> packOnly && (changed ==> s.packReceipt))
      ensures r.Done? && old(journal).pack.None? ==>
                labels == old(labels) + (if s.packReceipt then [] else [SaveStatus(Packing, s.source)])
                                      + [SavePack(journal.pack.value.files, journal.digest.value)]
    {
      hide IsRun;
      if journal.pack.Some? {
        if journal.digest != Some(Sha256(s.archive.bytes)) { return Refused; }
        return Done(());
      }
      if !packOnly { return Refused; }
      if !s.packReceipt {
        if changed { return Refused; }
        var _ :- Update(Packing, s.source, uninterrupted);
      }
      ghost var before := State();
      var stop := Stops(uninterrupted);
      if stop { return Crashed; }
      var files := seq(|s.archive.entries|, k requires 0 <= k < |s.archive.entries| => s.archive.entries[k].0);
      journal := journal.(status := Packed, pack := Some(Pack(files, false)), digest := Some(Sha256(s.archive.bytes)));
      Log(before, SavePack(files, Sha256(s.archive.bytes)));
      return Done(());
    }

    /** The journal says successful, then the record of the successful release is replaced. */
    method Succeed(s: Surroundings, uninterrupted: bool) returns (r: Outcome<()>)
      requires Running() && journal.started && (stage.Away? || stage.Published?) && Installed(State(), s)
      modifies this
      ensures Running() && old(history) <= history && !r.Refused? && (r.Crashed? ==> !uninterrupted)
      ensures journal == old(journal).(status := journal.status)
      ensures r.Done? ==> State() == old(State()).(journal := old(journal).(status := Successful), recorded := Some(journal), stage := Away)
    {
      hide IsRun;
      var stop := Stops(uninterrupted);
      if stop { return Crashed; }
      ghost var before := State();
      journal, stage := journal.(status := Successful), Away;
      Log(before, SaveSuccess);
      stop := Stops(uninterrupted);
      if stop { return Crashed; }
      before := State();
      recorded := Some(journal);
      Log(before, Record);
      return Done(());
    }

    /** The part of executeRelease whose failures are journaled. */
    method Attempt(s: Surroundings, packOnly: bool, uninterrupted: bool) returns (r: Outcome<()>)
      requires Running() && stage.Away? && (!packOnly ==> journal.pack.Some? && journal.pack.value.native)
      modifies this
      ensures Running() && old(history) <= history && (r.Crashed? ==> !uninterrupted)
      ensures r.Refused? || packOnly ==> recorded == old(recorded)
      ensures packOnly ==> State() == old(State()).(journal := journal)
      ensures packOnly && r.Done? ==> PackedAs(old(journal), journal, s)
      ensures packOnly && !r.Crashed? ==> (r.Done? <==> Packs(old(journal), s))
      ensures !packOnly ==> journal.pack == old(journal).pack
      ensures !packOnly && r.Done? ==> stage.Away? && journal.status == Successful && recorded == Some(journal) && Installed(State(), s)
      ensures !packOnly && !r.Crashed? ==> (r.Done? <==> Installs(old(State()), s))
    {
      hide IsRun, Installed, Installable;
      if s.source.None? { return Refused; }
      var changed := journal.source.Some? && journal.source != s.source;
      if changed && (!packOnly || journal.started) { return Refused; }
      var _ :- PackOnce(s, changed, packOnly, uninterrupted);
      var _ :- Update(Qualified, s.source, uninterrupted);
      if packOnly {
        if journal.pack.value.native { return Refused; }
        var _ :- Update(AwaitingAssurance, journal.source, uninterrupted);
        return Done(());
      }
      SameInstallation(old(State()), State(), s);
      var _ :- InstallNative(journal.pack.value, s, uninterrupted);
      ghost var before := State();
      var _ :- Succeed(s, uninterrupted);
      SameInstallation(before, State(), s);
      return Done(());
    }

    lemma SameInstallation(a: World, b: World, s: Surroundings)
      requires a.tree == b.tree && a.command == b.command && a.journal.pack == b.journal.pack && a.journal.locations == b.journal.locations
      ensures Installed(a, s) <==> Installed(b, s)
      ensures Installable(a, s) <==> Installable(b, s)
    {
    }

    /** executeRelease: a failed attempt is journaled as failed, which takes nothing back. Whoever is not
        stopped gets the release installed exactly when Installs says so. */
    method Execute(s: Surroundings, packOnly: bool, uninterrupted: bool) returns (r: Outcome<()>)
      requires Running() && stage.Away?
      modifies this
      ensures Running() && stage.Away? && old(history) <= history && (r.Crashed? ==> !uninterrupted)
      ensures r.Refused? || packOnly ==> recorded == old(recorded)
      ensures !packOnly && r.Done? ==> journal.status == Successful && recorded == Some(journal) && journal.pack == old(journal).pack
      ensures !packOnly && r.Done? ==>
                && tree.Some? && journal.pack.Some?
                && (forall p :: p in tree.value <==> p in journal.pack.value.files)
                && (forall p :: p in tree.value ==> p in s.package && tree.value[p] == s.package[p])
                && command.Some? && Sha256(command.value) == s.asset.sha256
      ensures !packOnly && uninterrupted ==> (r.Done? <==> Installs(old(State()), s))
      ensures packOnly ==> State() == old(State()).(journal := journal)
      ensures packOnly && r.Done? ==>
                && journal.status == AwaitingAssurance && journal.source == s.source && journal.digest == Some(Sha256(s.archive.bytes))
                && journal.pack.Some? && !journal.pack.value.native
                && (old(journal).pack.Some? ==> journal.pack == old(journal).pack)
                && (old(journal).pack.None? ==>
                      && |journal.pack.value.files| == |s.archive.entries|
                      && forall k :: 0 <= k < |s.archive.entries| ==> journal.pack.value.files[k] == s.archive.entries[k].0)
                && journal.started == old(journal).started && journal.locations == old(journal).locations
      ensures packOnly && uninterrupted ==> (r.Done? <==> Packs(old(journal), s))
      ensures r.Refused? && uninterrupted ==>
                if !packOnly && (old(journal).pack.None? || !old(journal).pack.value.native) then State() == old(State())
                else journal.status == Failed
    {
      hide IsRun, Installable;
      if !packOnly && (journal.pack.None? || !journal.pack.value.native) { return Refused; }
      r := Attempt(s, packOnly, uninterrupted);
      Go();
      if r.Refused? {
        var _ :- Update(Failed, journal.source, uninterrupted);
      }
    }
  }
}
