/** Consumer configuration with relocation as a transition system: a journal whose effects are never
    issued twice, the disk it is about, and the process, which a crash takes away. */
module RelocationMachine {
  import opened Outcomes
  import opened RelocationPlan
  import opened RelocationInventory

  datatype EffectState = NotStarted | Issued | Completed
  datatype Progress = Intent | ConfigApplied | ReceiptApplied | Complete

  datatype Made = Made(path: string, identity: Identity)

  /** One item of the journal: its frozen plan, the directories recorded, the one pending, and how far
      each file is. */
  datatype Item = Item(plan: ItemPlan, made: seq<Made>, pending: Option<string>, states: seq<EffectState>)

  datatype Change = Change(before: Content, target: Content)

  /** policy is there exactly when there is a relocation, that is, when there are items. */
  datatype Record = Record(items: seq<Item>, policy: Change, policyState: EffectState, config: Change, receipt: Option<Change>,
                           progress: Progress)

  datatype FileRecord = FileRecord(identity: Identity, content: Content)
  datatype Disk = Disk(dirs: map<string, Identity>, files: map<string, FileRecord>, policy: Content, config: Content, receipt: Option<Content>)

  /** What the process has issued and not yet done. */
  datatype Act = Idle | Making(i: nat, path: string) | Moving(i: nat, j: nat) | Replacing
  datatype Session = Down | Up(act: Act)

  datatype World = World(journal: Option<Record>, archive: Option<Record>, disk: Disk, session: Session)

  datatype Label =
    | Start
    | PendDirectory(i: nat, d: nat)
    | MakeDirectory(i: nat, identity: Identity)
    | RecordDirectory(i: nat)
    | IssueFile(i: nat, j: nat)
    | MoveFile(i: nat, j: nat)
    | CompleteFile(i: nat, j: nat)
    | IssuePolicy
    | ReplacePolicy
    | CompletePolicy
    | ReplaceConfig
    | ApplyConfig
    | ReplaceReceipt
    | ApplyReceipt
    | Finish
    | Archive
    | Crash

  // ---------------------------------------------------------------- reading the journal

  predicate Shaped(item: Item) {
    DirectoriesBelow(item.plan) && |item.states| == |item.plan.files|
  }

  predicate WellFormed(record: Record) {
    forall i :: 0 <= i < |record.items| ==> Shaped(record.items[i])
  }

  predicate Recorded(item: Item, path: string) {
    exists k :: 0 <= k < |item.made| && item.made[k].path == path
  }

  predicate DirectoriesDone(item: Item)
    requires Shaped(item)
  {
    item.pending.None? && forall k :: 0 <= k < |TargetPaths(item.plan)| ==> Recorded(item, TargetPaths(item.plan)[k])
  }

  predicate FilesDone(item: Item) {
    forall j :: 0 <= j < |item.states| ==> item.states[j] == Completed
  }

  predicate ItemDone(item: Item)
    requires Shaped(item)
  {
    DirectoriesDone(item) && FilesDone(item)
  }

  predicate DoneBefore(record: Record, n: nat)
    requires WellFormed(record)
  {
    n <= |record.items| && forall i :: 0 <= i < n ==> ItemDone(record.items[i])
  }

  predicate AllDone(record: Record)
    requires WellFormed(record)
  {
    DoneBefore(record, |record.items|)
  }

  predicate RelocationDone(record: Record)
    requires WellFormed(record)
  {
    record.items != [] ==> AllDone(record) && record.policyState == Completed
  }

  // ---------------------------------------------------------------- observing the disk

  predicate FileIs(files: map<string, FileRecord>, path: string, f: PlannedFile) {
    path in files && files[path].identity == f.identity && Sha256(files[path].content) == f.sha256
  }

  /** An issued file must be found at its destination: at its source its outcome is unknown. */
  predicate FileObserved(files: map<string, FileRecord>, f: PlannedFile, state: EffectState) {
    if state == NotStarted then FileIs(files, f.source, f) && f.destination !in files
    else FileIs(files, f.destination, f) && f.source !in files
  }

  /** observeFrozenProjectMove */
  predicate ItemObserved(disk: Disk, item: Item)
    requires Shaped(item)
  {
    && (item.pending.Some? ==> item.pending.value in disk.dirs)
    && (forall m :: m in item.made ==> m.path in disk.dirs && disk.dirs[m.path] == m.identity)
    && (forall j :: 0 <= j < |item.states| ==> FileObserved(disk.files, item.plan.files[j], item.states[j]))
  }

  predicate PolicyObserved(disk: Disk, record: Record) {
    && disk.policy in {record.policy.before, record.policy.target}
    && (record.policyState == NotStarted ==> disk.policy == record.policy.before)
    && (record.policyState == Completed || record.progress != Intent ==> disk.policy == record.policy.target)
    && (disk.config == record.config.target && record.config.before != record.config.target ==> disk.policy == record.policy.target)
  }

  predicate ConfigObserved(disk: Disk, record: Record) {
    disk.config == record.config.target || (disk.config == record.config.before && record.progress == Intent)
  }

  predicate ReceiptObserved(disk: Disk, record: Record) {
    && disk.receipt.Some? == record.receipt.Some?
    && (record.receipt.Some? ==>
          && disk.receipt.value in {record.receipt.value.before, record.receipt.value.target}
          && (record.progress == Intent ==> disk.receipt.value == record.receipt.value.before)
          && (record.progress in {ReceiptApplied, Complete} ==> disk.receipt.value == record.receipt.value.target)
          && (disk.receipt.value == record.receipt.value.target && record.receipt.value.before != record.receipt.value.target ==>
                disk.config == record.config.target))
  }

  predicate NoFileUnstarted(record: Record) {
    forall i, j :: 0 <= i < |record.items| && 0 <= j < |record.items[i].states| ==> record.items[i].states[j] != NotStarted
  }

  /** revalidate: what is on disk is what this journal may leave there. */
  predicate Observed(disk: Disk, record: Record) {
    && WellFormed(record)
    && ConfigObserved(disk, record) && ReceiptObserved(disk, record)
    && (forall i :: 0 <= i < |record.items| ==> ItemObserved(disk, record.items[i]))
    && (record.items != [] ==> PolicyObserved(disk, record))
    && (record.items != [] && (record.progress != Intent || disk.config == record.config.target) ==> NoFileUnstarted(record))
  }

  // ---------------------------------------------------------------- one step

  predicate Owned(w: World, record: Record) {
    w.session == Up(Idle) && Observed(w.disk, record)
  }

  predicate ReceiptIs(disk: Disk, record: Record, target: bool) {
    record.receipt.Some? ==> disk.receipt == Some(if target then record.receipt.value.target else record.receipt.value.before)
  }

  predicate Enabled(w: World, record: Record, l: Label) {
    match l
    case Start => w.session.Down?
    case PendDirectory(i, d) =>
      && Owned(w, record) && i < |record.items| && DoneBefore(record, i)
      && (var item := record.items[i]; var paths := TargetPaths(item.plan);
          && d < |paths| && item.pending.None? && !Recorded(item, paths[d])
          && forall e :: 0 <= e < d ==> Recorded(item, paths[e]))
    case MakeDirectory(i, identity) => w.session.Up? && w.session.act.Making? && w.session.act.i == i
    case RecordDirectory(i) =>
      && Owned(w, record) && i < |record.items| && DoneBefore(record, i)
      && record.items[i].pending.Some? && record.items[i].pending.value in w.disk.dirs
    case IssueFile(i, j) =>
      && Owned(w, record) && i < |record.items| && DoneBefore(record, i) && DirectoriesDone(record.items[i])
      && (var item := record.items[i];
          && j < |item.states| && item.states[j] == NotStarted
          && forall e :: 0 <= e < j ==> item.states[e] == Completed)
    case MoveFile(i, j) =>
      && w.session == Up(Moving(i, j)) && i < |record.items| && j < |record.items[i].plan.files|
      && (var f := record.items[i].plan.files[j];
          f.source in w.disk.files && Sha256(w.disk.files[f.source].content) == f.sha256 && f.destination !in w.disk.files)
    case CompleteFile(i, j) =>
      && Owned(w, record) && i < |record.items| && DoneBefore(record, i) && DirectoriesDone(record.items[i])
      && (var item := record.items[i];
          && j < |item.states| && item.states[j] == Issued
          && forall e :: 0 <= e < j ==> item.states[e] == Completed)
    case IssuePolicy =>
      && Owned(w, record) && record.items != [] && AllDone(record)
      && record.policyState == NotStarted && record.policy.before != record.policy.target
    case ReplacePolicy => w.session == Up(Replacing) && w.disk.policy == record.policy.before
    case CompletePolicy =>
      && Owned(w, record) && record.items != [] && AllDone(record)
      && record.policyState != Completed && w.disk.policy == record.policy.target
    case ReplaceConfig =>
      && Owned(w, record) && RelocationDone(record) && record.progress == Intent
      && w.disk.config == record.config.before && w.disk.config != record.config.target
    case ApplyConfig =>
      && Owned(w, record) && RelocationDone(record) && record.progress == Intent && w.disk.config == record.config.target
    case ReplaceReceipt =>
      && Owned(w, record) && record.progress == ConfigApplied && record.receipt.Some?
      && ReceiptIs(w.disk, record, false) && !ReceiptIs(w.disk, record, true)
    case ApplyReceipt =>
      && Owned(w, record) && record.progress == ConfigApplied && w.disk.config == record.config.target && ReceiptIs(w.disk, record, true)
    case Finish =>
      && Owned(w, record) && record.progress == ReceiptApplied && w.disk.config == record.config.target && ReceiptIs(w.disk, record, true)
    case Archive => Owned(w, record) && record.progress == Complete && w.archive.None?
    case Crash => true
  }

  function WithItem(record: Record, i: nat, item: Item): Record
    requires i < |record.items|
  {
    record.(items := record.items[i := item])
  }

  function Pended(item: Item, path: string): Item { item.(pending := Some(path)) }

  function WithMade(item: Item, identity: Identity): Item
    requires item.pending.Some?
  {
    item.(made := item.made + [Made(item.pending.value, identity)], pending := None)
  }

  function FileSet(item: Item, j: nat, state: EffectState): Item
    requires j < |item.states|
  {
    item.(states := item.states[j := state])
  }

  function Journaled(w: World, record: Record, act: Act): World {
    w.(journal := Some(record), session := Up(act))
  }

  function Moved(disk: Disk, f: PlannedFile): Disk
    requires f.source in disk.files
  {
    disk.(files := (disk.files - {f.source})[f.destination := disk.files[f.source]])
  }

  function Next(w: World, record: Record, l: Label): World
    requires Enabled(w, record, l)
  {
    match l
    case Start => w.(session := Up(Idle))
    case PendDirectory(i, d) =>
      var path := TargetPaths(record.items[i].plan)[d];
      Journaled(w, WithItem(record, i, Pended(record.items[i], path)), Making(i, path))
    case MakeDirectory(i, identity) =>
      var path := w.session.act.path;
      w.(session := Up(Idle), disk := if path in w.disk.dirs then w.disk else w.disk.(dirs := w.disk.dirs[path := identity]))
    case RecordDirectory(i) =>
      Journaled(w, WithItem(record, i, WithMade(record.items[i], w.disk.dirs[record.items[i].pending.value])), Idle)
    case IssueFile(i, j) => Journaled(w, WithItem(record, i, FileSet(record.items[i], j, Issued)), Moving(i, j))
    case MoveFile(i, j) => w.(session := Up(Idle), disk := Moved(w.disk, record.items[i].plan.files[j]))
    case CompleteFile(i, j) => Journaled(w, WithItem(record, i, FileSet(record.items[i], j, Completed)), Idle)
    case IssuePolicy => Journaled(w, record.(policyState := Issued), Replacing)
    case ReplacePolicy => w.(session := Up(Idle), disk := w.disk.(policy := record.policy.target))
    case CompletePolicy => Journaled(w, record.(policyState := Completed), Idle)
    case ReplaceConfig => w.(disk := w.disk.(config := record.config.target))
    case ApplyConfig => Journaled(w, record.(progress := ConfigApplied), Idle)
    case ReplaceReceipt => w.(disk := w.disk.(receipt := Some(record.receipt.value.target)))
    case ApplyReceipt => Journaled(w, record.(progress := ReceiptApplied), Idle)
    case Finish => Journaled(w, record.(progress := Complete), Idle)
    case Archive => w.(journal := None, archive := Some(record), session := Down)
    case Crash => w.(session := Down)
  }

  predicate Step(w: World, l: Label, w': World) {
    w.journal.Some? && Enabled(w, w.journal.value, l) && w' == Next(w, w.journal.value, l)
  }

  ghost predicate IsRun(trace: seq<World>, labels: seq<Label>) {
    && |trace| == |labels| + 1
    && forall i :: 0 <= i < |labels| ==> Step(trace[i], labels[i], trace[i + 1])
  }

  // ---------------------------------------------------------------- where a run starts

  predicate Untouched(item: Item) {
    item.made == [] && item.pending.None? && forall j :: 0 <= j < |item.states| ==> item.states[j] == NotStarted
  }

  function Plans(record: Record): seq<ItemPlan> {
    seq(|record.items|, i requires 0 <= i < |record.items| => record.items[i].plan)
  }

  /** Right after the intent is published: nothing begun, every file at its source, no target there. */
  ghost predicate Published(w: World) {
    && w.journal.Some? && w.archive.None? && w.session.Down?
    && (var record := w.journal.value;
        && WellFormed(record) && FrozenPlans(Plans(record)) && record.progress == Intent && record.policyState == NotStarted
        && (forall i :: 0 <= i < |record.items| ==> Untouched(record.items[i]))
        && Observed(w.disk, record)
        && (record.items != [] ==> w.disk.config == record.config.before != record.config.target)
        && (forall i, k :: 0 <= i < |record.items| && 0 <= k < |TargetPaths(record.items[i].plan)| ==>
              TargetPaths(record.items[i].plan)[k] !in w.disk.dirs))
  }
}
