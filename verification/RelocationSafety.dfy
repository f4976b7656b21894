/** What every run of a relocation keeps: effects form a prefix of the plan, and the journal never says
    more than the disk shows. */
module RelocationSafety {
  import opened Outcomes
  import opened RelocationPlan
  import opened RelocationInventory
  import opened RelocationMachine

  // ---------------------------------------------------------------- the order of effects

  predicate NoFileBegun(item: Item) {
    forall j :: 0 <= j < |item.states| ==> item.states[j] == NotStarted
  }

  predicate MadeInOrder(item: Item)
    requires DirectoriesBelow(item.plan)
  {
    |item.made| <= |TargetPaths(item.plan)| && forall k :: 0 <= k < |item.made| ==> item.made[k].path == TargetPaths(item.plan)[k]
  }

  /** Directories in order, at most the next one pending; files in order once all directories are
      recorded, at most one of them issued. */
  predicate ItemOrder(item: Item) {
    && Shaped(item) && MadeInOrder(item)
    && (item.pending.Some? ==> |item.made| < |TargetPaths(item.plan)| && item.pending.value == TargetPaths(item.plan)[|item.made|])
    && (item.pending.Some? || |item.made| < |TargetPaths(item.plan)| ==> NoFileBegun(item))
    && (forall a, b :: 0 <= a < b < |item.states| && item.states[b] != NotStarted ==> item.states[a] == Completed)
  }

  /** Everything of the item is recorded. */
  predicate Whole(item: Item) {
    ItemOrder(item) && |item.made| == |TargetPaths(item.plan)| && FilesDone(item)
  }

  ghost predicate InOrder(items: seq<Item>) {
    && (forall i :: 0 <= i < |items| ==> ItemOrder(items[i]))
    && (forall i, j :: 0 <= i < j < |items| ==> Untouched(items[j]) || Whole(items[i]))
  }

  ghost predicate AllWhole(items: seq<Item>) {
    forall i :: 0 <= i < |items| ==> Whole(items[i])
  }

  ghost predicate Prefix(record: Record) {
    && InOrder(record.items)
    && (record.policyState != NotStarted ==> record.items != [] && AllWhole(record.items))
    && (record.progress != Intent ==> Settled(record))
  }

  /** The relocation part of the operation, if there is one, is behind it. */
  ghost predicate Settled(record: Record) {
    record.items != [] ==> AllWhole(record.items) && record.policyState == Completed
  }

  // ---------------------------------------------------------------- the journal and the disk

  predicate FileWhere(files: map<string, FileRecord>, f: PlannedFile, state: EffectState) {
    match state
    case NotStarted => FileIs(files, f.source, f) && f.destination !in files
    case Issued => (FileIs(files, f.source, f) && f.destination !in files) || (f.source !in files && FileIs(files, f.destination, f))
    case Completed => f.source !in files && FileIs(files, f.destination, f)
  }

  predicate ItemFiles(files: map<string, FileRecord>, item: Item)
    requires |item.states| == |item.plan.files|
  {
    forall j :: 0 <= j < |item.states| ==> FileWhere(files, item.plan.files[j], item.states[j])
  }

  /** Recorded directories are there; those not even pending are not. */
  predicate ItemDirs(dirs: map<string, Identity>, item: Item)
    requires DirectoriesBelow(item.plan)
  {
    && (forall k :: 0 <= k < |item.made| ==> item.made[k].path in dirs && dirs[item.made[k].path] == item.made[k].identity)
    && (forall k :: |item.made| <= k < |TargetPaths(item.plan)| && (item.pending.None? || k > |item.made|) ==>
          TargetPaths(item.plan)[k] !in dirs)
  }

  ghost predicate FilesInv(files: map<string, FileRecord>, items: seq<Item>) {
    forall i :: 0 <= i < |items| ==> Shaped(items[i]) && ItemFiles(files, items[i])
  }

  ghost predicate DirsInv(dirs: map<string, Identity>, items: seq<Item>) {
    forall i :: 0 <= i < |items| ==> Shaped(items[i]) && ItemDirs(dirs, items[i])
  }

  predicate PolicyInv(policy: Content, record: Record) {
    record.items != [] ==>
      match record.policyState
      case NotStarted => policy == record.policy.before
      case Issued => policy == record.policy.before || policy == record.policy.target
      case Completed => policy == record.policy.target
  }

  ghost predicate ConfigInv(config: Content, record: Record) {
    && (config == record.config.before || config == record.config.target)
    && (record.progress != Intent ==> config == record.config.target)
    && (record.items != [] ==> record.config.before != record.config.target)
    && (config == record.config.target && record.config.before != record.config.target ==> Settled(record))
  }

  predicate ReceiptInv(receipt: Option<Content>, config: Content, record: Record) {
    && receipt.Some? == record.receipt.Some?
    && (record.receipt.Some? ==>
          && (receipt.value == record.receipt.value.before || receipt.value == record.receipt.value.target)
          && (record.progress == Intent ==> receipt.value == record.receipt.value.before)
          && (record.progress == ReceiptApplied || record.progress == Complete ==> receipt.value == record.receipt.value.target))
  }

  /** An act is the process's own: what the journal calls issued and the disk does not show yet. */
  predicate SessionInv(disk: Disk, session: Session, record: Record) {
    session.Up? ==>
      match session.act
      case Idle => true
      case Making(i, path) => i < |record.items| && record.items[i].pending == Some(path) && path !in disk.dirs
      case Moving(i, j) =>
        && i < |record.items| && j < |record.items[i].states| && j < |record.items[i].plan.files|
        && record.items[i].states[j] == Issued && record.items[i].plan.files[j].source in disk.files
      case Replacing => record.policyState == Issued && disk.policy == record.policy.before && record.policy.before != record.policy.target
  }

  // ---------------------------------------------------------------- against the start

  ghost predicate IsEndpoint(items: seq<Item>, path: string) {
    exists i, j :: 0 <= i < |items| && 0 <= j < |items[i].plan.files|
      && (items[i].plan.files[j].source == path || items[i].plan.files[j].destination == path)
  }

  ghost predicate FrameInv(before: map<string, FileRecord>, files: map<string, FileRecord>, items: seq<Item>) {
    forall p :: !IsEndpoint(items, p) ==> (p in files <==> p in before) && (p in files ==> files[p] == before[p])
  }

  ghost predicate IsTarget(items: seq<Item>, path: string) {
    exists i :: 0 <= i < |items| && DirectoriesBelow(items[i].plan) && path in TargetPaths(items[i].plan)
  }

  /** No directory appears but those the plan names. */
  ghost predicate DirFrameInv(before: map<string, Identity>, dirs: map<string, Identity>, items: seq<Item>) {
    forall p :: !IsTarget(items, p) ==> (p in dirs <==> p in before) && (p in dirs ==> dirs[p] == before[p])
  }

  /** The frozen part of the journal. */
  ghost predicate SameOperation(a: Record, b: Record) {
    Plans(a) == Plans(b) && a.policy == b.policy && a.config == b.config && a.receipt == b.receipt
  }

  predicate PathsDiffer(a: seq<string>, b: seq<string>, same: bool) {
    forall k, l :: 0 <= k < |a| && 0 <= l < |b| && (!same || k != l) ==> a[k] != b[l]
  }

  predicate FilesDisjoint(a: seq<PlannedFile>, b: seq<PlannedFile>, same: bool) {
    forall k, l :: 0 <= k < |a| && 0 <= l < |b| ==>
      && a[k].source != b[l].destination && b[l].source != a[k].destination
      && (!same || k != l ==> a[k].source != b[l].source && a[k].destination != b[l].destination)
  }

  /** Directories and files of different entries are at different paths. */
  ghost predicate Apart(plans: seq<ItemPlan>) {
    && (forall i :: 0 <= i < |plans| ==> SoundItem(plans[i]))
    && (forall i, j :: 0 <= i < |plans| && 0 <= j < |plans| ==>
          && PathsDiffer(TargetPaths(plans[i]), TargetPaths(plans[j]), i == j)
          && FilesDisjoint(plans[i].files, plans[j].files, i == j))
  }

  lemma SoundIsApart(plans: seq<ItemPlan>)
    requires SoundPlan(plans)
    ensures Apart(plans)
  {
    hide RootsApart;
    forall i, j | 0 <= i < |plans| && 0 <= j < |plans|
      ensures PathsDiffer(TargetPaths(plans[i]), TargetPaths(plans[j]), i == j)
      ensures FilesDisjoint(plans[i].files, plans[j].files, i == j)
    {
      TwoItemsApart(plans, i, j);
    }
  }

  lemma TwoItemsApart(plans: seq<ItemPlan>, i: nat, j: nat)
    requires SoundPlan(plans) && i < |plans| && j < |plans|
    ensures PathsDiffer(TargetPaths(plans[i]), TargetPaths(plans[j]), i == j)
    ensures FilesDisjoint(plans[i].files, plans[j].files, i == j)
  {
    hide SoundPlan;
    assert DirectoriesBelow(plans[i]) && DirectoriesBelow(plans[j]) by { ItemsAreSound(plans, i, j); }
    forall k, l | 0 <= k < |TargetPaths(plans[i])| && 0 <= l < |TargetPaths(plans[j])| && (i != j || k != l)
      ensures TargetPaths(plans[i])[k] != TargetPaths(plans[j])[l]
    {
      TargetsDiffer(plans, i, k, j, l);
    }
    forall k, l | 0 <= k < |plans[i].files| && 0 <= l < |plans[j].files|
      ensures plans[i].files[k].source != plans[j].files[l].destination && plans[j].files[l].source != plans[i].files[k].destination
      ensures i != j || k != l ==> plans[i].files[k].source != plans[j].files[l].source
                                   && plans[i].files[k].destination != plans[j].files[l].destination
    {
      FilesDiffer(plans, i, k, j, l);
      FilesDiffer(plans, j, l, i, k);
    }
  }

  lemma ItemsAreSound(plans: seq<ItemPlan>, i: nat, j: nat)
    requires SoundPlan(plans) && i < |plans| && j < |plans|
    ensures SoundItem(plans[i]) && SoundItem(plans[j])
  {
  }

  lemma FrozenPlansAreSound(plans: seq<ItemPlan>)
    requires FrozenPlans(plans)
    ensures SoundPlan(plans)
  {
    hide FrozenItem, SoundItem, RootsApart;
    forall i | 0 <= i < |plans| ensures SoundItem(plans[i]) {
      FrozenIsSound(plans[i]);
    }
  }

  ghost predicate InvOf(start: World, w: World, record: Record) {
    && start.journal.Some? && SameOperation(start.journal.value, record)
    && Prefix(record)
    && FilesInv(w.disk.files, record.items) && DirsInv(w.disk.dirs, record.items)
    && PolicyInv(w.disk.policy, record) && ConfigInv(w.disk.config, record) && ReceiptInv(w.disk.receipt, w.disk.config, record)
    && FrameInv(start.disk.files, w.disk.files, record.items) && DirFrameInv(start.disk.dirs, w.disk.dirs, record.items)
    && SessionInv(w.disk, w.session, record)
  }

  ghost predicate Inv(start: World, w: World) {
    && (w.journal.Some? ==> InvOf(start, w, w.journal.value) && w.archive.None?)
    && (w.journal.None? ==> w.session.Down? && w.archive.Some? && InvOf(start, w, w.archive.value) && w.archive.value.progress == Complete)
  }

  // ---------------------------------------------------------------- one item changes

  lemma RecordedInOrder(item: Item, n: nat)
    requires Shaped(item) && MadeInOrder(item) && n <= |TargetPaths(item.plan)|
    requires forall e :: 0 <= e < n ==> Recorded(item, TargetPaths(item.plan)[e])
    requires PathsDiffer(TargetPaths(item.plan), TargetPaths(item.plan), true)
    ensures n <= |item.made|
  {
    if n > 0 {
      var path := TargetPaths(item.plan)[n - 1];
      assert Recorded(item, path);
      var k :| 0 <= k < |item.made| && item.made[k].path == path;
      assert k == n - 1;
    }
  }

  lemma DoneIsWhole(item: Item)
    requires ItemOrder(item) && ItemDone(item)
    requires PathsDiffer(TargetPaths(item.plan), TargetPaths(item.plan), true)
    ensures Whole(item)
  {
    RecordedInOrder(item, |TargetPaths(item.plan)|);
  }

  lemma WholeIsDone(item: Item)
    requires Whole(item)
    ensures ItemDone(item) && !item.pending.Some?
  {
    forall k | 0 <= k < |TargetPaths(item.plan)| ensures Recorded(item, TargetPaths(item.plan)[k]) {
      assert item.made[k].path == TargetPaths(item.plan)[k];
    }
  }

  /** Replacing the one item that is under way keeps the order. */
  lemma OrderKept(items: seq<Item>, i: nat, item: Item)
    requires InOrder(items) && i < |items| && ItemOrder(item)
    requires forall k :: 0 <= k < i ==> Whole(items[k])
    requires !Whole(items[i])
    ensures InOrder(items[i := item])
  {
    hide ItemOrder, Whole, Untouched;
    var items' := items[i := item];
    forall a, b | 0 <= a < b < |items'| ensures Untouched(items'[b]) || Whole(items'[a]) {
      if a == i {
        assert Untouched(items[b]);
      }
    }
  }

  /** At most one item is under way. */
  lemma OneUnderWay(items: seq<Item>, a: nat, b: nat)
    requires InOrder(items) && a < |items| && b < |items|
    requires !Untouched(items[a]) && !Whole(items[a]) && !Untouched(items[b]) && !Whole(items[b])
    ensures a == b
  {
  }

  lemma PlansAt(record: Record, i: nat)
    requires i < |record.items|
    ensures i < |Plans(record)| && Plans(record)[i] == record.items[i].plan
  {
  }

  lemma SamePlans(record: Record, i: nat, item: Item)
    requires i < |record.items| && item.plan == record.items[i].plan
    ensures Plans(WithItem(record, i, item)) == Plans(record)
    ensures forall p :: IsEndpoint(WithItem(record, i, item).items, p) <==> IsEndpoint(record.items, p)
    ensures forall p :: IsTarget(WithItem(record, i, item).items, p) <==> IsTarget(record.items, p)
  {
    var items' := WithItem(record, i, item).items;
    assert forall k :: 0 <= k < |record.items| ==> items'[k].plan == record.items[k].plan;
  }

  /** While an item is under way nothing after the items has begun. */
  lemma NothingAfterItems(record: Record, config: Content, i: nat)
    requires Prefix(record) && ConfigInv(config, record) && i < |record.items| && !Whole(record.items[i])
    ensures record.policyState == NotStarted && record.progress == Intent && config == record.config.before != record.config.target
  {
  }

  /** A journal write that moves one item on. */
  lemma ItemStep(start: World, w: World, record: Record, i: nat, item: Item, act: Act)
    requires InvOf(start, w, record)
    requires i < |record.items| && !Whole(record.items[i]) && forall k :: 0 <= k < i ==> Whole(record.items[k])
    requires ItemOrder(item) && item.plan == record.items[i].plan
    requires ItemFiles(w.disk.files, item) && ItemDirs(w.disk.dirs, item)
    requires SessionInv(w.disk, Up(act), WithItem(record, i, item))
    ensures InvOf(start, Journaled(w, WithItem(record, i, item), act), WithItem(record, i, item))
  {
    hide ItemOrder, Whole, ItemFiles, ItemDirs, SessionInv, PolicyInv, ReceiptInv, Untouched, IsEndpoint, IsTarget, InOrder;
    var record' := WithItem(record, i, item);
    NothingAfterItems(record, w.disk.config, i);
    OrderKept(record.items, i, item);
    SamePlans(record, i, item);
    ItemsShaped(record'.items);
    assert PolicyInv(w.disk.policy, record') by { PolicyUntouched(w.disk.policy, record, record'); }
    assert ReceiptInv(w.disk.receipt, w.disk.config, record') by { ReceiptUntouched(w.disk, record, record'); }
  }

  lemma ItemsShaped(items: seq<Item>)
    requires InOrder(items)
    ensures forall i :: 0 <= i < |items| ==> Shaped(items[i])
  {
  }

  lemma PolicyUntouched(policy: Content, record: Record, record': Record)
    requires PolicyInv(policy, record) && record'.policy == record.policy && record'.policyState == record.policyState
    requires |record'.items| == |record.items|
    ensures PolicyInv(policy, record')
  {
  }

  lemma ReceiptUntouched(disk: Disk, record: Record, record': Record)
    requires ReceiptInv(disk.receipt, disk.config, record) && record'.receipt == record.receipt && record'.progress == record.progress
    ensures ReceiptInv(disk.receipt, disk.config, record')
  {
  }

  ghost predicate Base(start: World) {
    start.journal.Some? && Apart(Plans(start.journal.value))
  }

  lemma ItemsApart(start: World, record: Record, i: nat, j: nat)
    requires Base(start) && SameOperation(start.journal.value, record) && i < |record.items| && j < |record.items|
    ensures SoundItem(record.items[i].plan) && SoundItem(record.items[j].plan)
    ensures PathsDiffer(TargetPaths(record.items[i].plan), TargetPaths(record.items[j].plan), i == j)
    ensures FilesDisjoint(record.items[i].plan.files, record.items[j].plan.files, i == j)
  {
    PlansAt(record, i);
    PlansAt(record, j);
  }

  lemma WholeBefore(start: World, w: World, record: Record, n: nat)
    requires Base(start) && InvOf(start, w, record) && WellFormed(record) && DoneBefore(record, n)
    ensures forall k :: 0 <= k < n ==> Whole(record.items[k])
  {
    hide FilesInv, DirsInv, PolicyInv, ConfigInv, ReceiptInv, FrameInv, DirFrameInv, SessionInv, ItemDone, ItemOrder, Whole;
    forall k | 0 <= k < n ensures Whole(record.items[k]) {
      ItemsApart(start, record, k, k);
      DoneIsWhole(record.items[k]);
    }
  }

  // ---------------------------------------------------------------- directories

  lemma PendStep(start: World, w: World, record: Record, i: nat, d: nat)
    requires Base(start) && InvOf(start, w, record) && Enabled(w, record, PendDirectory(i, d))
    ensures InvOf(start, Next(w, record, PendDirectory(i, d)), Next(w, record, PendDirectory(i, d)).journal.value)
  {
    hide FilesInv, PolicyInv, ConfigInv, ReceiptInv, FrameInv, DirFrameInv, Observed, Untouched, ItemFiles;
    var item := record.items[i];
    WholeBefore(start, w, record, i);
    ItemsApart(start, record, i, i);
    ItemHere(w, record, i);
    NextDirectory(item, d);
    SameFiles(w.disk.files, item, Pended(item, TargetPaths(item.plan)[d]));
    ItemStep(start, w, record, i, Pended(item, TargetPaths(item.plan)[d]), Making(i, TargetPaths(item.plan)[d]));
  }

  lemma NextDirectory(item: Item, d: nat)
    requires ItemOrder(item) && PathsDiffer(TargetPaths(item.plan), TargetPaths(item.plan), true)
    requires d < |TargetPaths(item.plan)| && !Recorded(item, TargetPaths(item.plan)[d])
    requires forall e :: 0 <= e < d ==> Recorded(item, TargetPaths(item.plan)[e])
    ensures d == |item.made|
  {
    RecordedInOrder(item, d);
    assert forall k :: 0 <= k < |item.made| ==> Recorded(item, TargetPaths(item.plan)[k]) by {
      assert forall k :: 0 <= k < |item.made| ==> item.made[k].path == TargetPaths(item.plan)[k];
    }
  }

  lemma OrderHere(record: Record, i: nat)
    requires Prefix(record) && i < |record.items|
    ensures ItemOrder(record.items[i])
  {
  }

  lemma ItemHere(w: World, record: Record, i: nat)
    requires Prefix(record) && FilesInv(w.disk.files, record.items) && DirsInv(w.disk.dirs, record.items) && i < |record.items|
    ensures ItemOrder(record.items[i]) && ItemFiles(w.disk.files, record.items[i]) && ItemDirs(w.disk.dirs, record.items[i])
  {
  }

  lemma DirsAfterMake(start: World, record: Record, dirs: map<string, Identity>, i: nat, path: string, identity: Identity)
    requires Base(start) && SameOperation(start.journal.value, record) && Prefix(record) && DirsInv(dirs, record.items)
    requires i < |record.items| && record.items[i].pending == Some(path) && path !in dirs
    ensures DirsInv(dirs[path := identity], record.items)
  {
    hide ItemDirs, Settled, Untouched, FilesDone;
    forall k | 0 <= k < |record.items| ensures Shaped(record.items[k]) && ItemDirs(dirs[path := identity], record.items[k]) {
      ItemsApart(start, record, i, k);
      ItemAfterMake(record.items[i], record.items[k], i == k, dirs, path, identity);
    }
  }

  lemma ItemAfterMake(maker: Item, item: Item, same: bool, dirs: map<string, Identity>, path: string, identity: Identity)
    requires ItemOrder(maker) && ItemOrder(item) && (same ==> maker == item) && ItemDirs(dirs, item)
    requires PathsDiffer(TargetPaths(maker.plan), TargetPaths(item.plan), same)
    requires maker.pending == Some(path) && path !in dirs
    ensures ItemDirs(dirs[path := identity], item)
  {
    var m := |maker.made|;
    assert TargetPaths(maker.plan)[m] == path;
  }

  lemma DirFrameAfterMake(before: map<string, Identity>, dirs: map<string, Identity>, items: seq<Item>, i: nat, path: string, identity: Identity)
    requires DirFrameInv(before, dirs, items) && i < |items| && ItemOrder(items[i]) && items[i].pending == Some(path)
    ensures DirFrameInv(before, dirs[path := identity], items)
  {
    assert IsTarget(items, path);
  }

  lemma MakeStep(start: World, w: World, record: Record, i: nat, identity: Identity)
    requires Base(start) && InvOf(start, w, record) && Enabled(w, record, MakeDirectory(i, identity))
    ensures InvOf(start, Next(w, record, MakeDirectory(i, identity)), record)
  {
    hide Prefix, FilesInv, DirsInv, PolicyInv, ConfigInv, ReceiptInv, FrameInv, DirFrameInv, Apart;
    DirsAfterMake(start, record, w.disk.dirs, i, w.session.act.path, identity);
    OrderHere(record, i);
    DirFrameAfterMake(start.disk.dirs, w.disk.dirs, record.items, i, w.session.act.path, identity);
  }

  lemma RecordStep(start: World, w: World, record: Record, i: nat)
    requires Base(start) && InvOf(start, w, record) && Enabled(w, record, RecordDirectory(i))
    ensures InvOf(start, Next(w, record, RecordDirectory(i)), Next(w, record, RecordDirectory(i)).journal.value)
  {
    hide FilesInv, PolicyInv, ConfigInv, ReceiptInv, FrameInv, DirFrameInv, Observed, Untouched, ItemFiles;
    var item := record.items[i];
    WholeBefore(start, w, record, i);
    ItemHere(w, record, i);
    var item' := WithMade(item, w.disk.dirs[item.pending.value]);
    assert ItemFiles(w.disk.files, item') by { SameFiles(w.disk.files, item, item'); }
    assert !Whole(item);
    ItemStep(start, w, record, i, item', Idle);
  }

  lemma SameFiles(files: map<string, FileRecord>, item: Item, item': Item)
    requires |item.states| == |item.plan.files| && ItemFiles(files, item) && item'.plan == item.plan && item'.states == item.states
    ensures ItemFiles(files, item')
  {
  }

  // ---------------------------------------------------------------- files

  lemma FileStateStep(start: World, w: World, record: Record, i: nat, j: nat, state: EffectState, act: Act)
    requires Base(start) && InvOf(start, w, record) && w.session == Up(Idle)
    requires i < |record.items| && WellFormed(record) && DoneBefore(record, i) && DirectoriesDone(record.items[i])
    requires j < |record.items[i].states| && record.items[i].states[j] != Completed && state != NotStarted
    requires forall e :: 0 <= e < j ==> record.items[i].states[e] == Completed
    requires FileWhere(w.disk.files, record.items[i].plan.files[j], state)
    requires act == (if state == Issued then Moving(i, j) else Idle)
    requires state == Issued ==> record.items[i].plan.files[j].source in w.disk.files
    ensures InvOf(start, Journaled(w, WithItem(record, i, FileSet(record.items[i], j, state)), act), WithItem(record, i, FileSet(record.items[i], j, state)))
  {
    hide FilesInv, PolicyInv, ConfigInv, ReceiptInv, FrameInv, DirFrameInv, Untouched, DirsInv;
    var item := record.items[i];
    WholeBefore(start, w, record, i);
    ItemsApart(start, record, i, i);
    ItemHere(w, record, i);
    RecordedInOrder(item, |TargetPaths(item.plan)|);
    var item' := FileSet(item, j, state);
    FileSetOrder(item, j, state);
    assert ItemFiles(w.disk.files, item');
    assert ItemDirs(w.disk.dirs, item');
    ItemStep(start, w, record, i, item', act);
  }

  lemma FileSetOrder(item: Item, j: nat, state: EffectState)
    requires ItemOrder(item) && item.pending.None? && |item.made| == |TargetPaths(item.plan)| && j < |item.states|
    requires item.states[j] != Completed && state != NotStarted && forall e :: 0 <= e < j ==> item.states[e] == Completed
    ensures ItemOrder(FileSet(item, j, state)) && !Whole(item)
  {
    assert forall b :: j < b < |item.states| ==> item.states[b] == NotStarted;
  }

  lemma IssueFileStep(start: World, w: World, record: Record, i: nat, j: nat)
    requires Base(start) && InvOf(start, w, record) && Enabled(w, record, IssueFile(i, j))
    ensures InvOf(start, Next(w, record, IssueFile(i, j)), Next(w, record, IssueFile(i, j)).journal.value)
  {
    hide PolicyInv, ConfigInv, ReceiptInv, FrameInv, DirFrameInv, Untouched, ItemDirs, DirsInv;
    ItemHere2(w, record, i);
    FileStateStep(start, w, record, i, j, Issued, Moving(i, j));
  }

  lemma ItemHere2(w: World, record: Record, i: nat)
    requires FilesInv(w.disk.files, record.items) && i < |record.items|
    ensures Shaped(record.items[i]) && ItemFiles(w.disk.files, record.items[i])
  {
  }

  lemma CompleteFileStep(start: World, w: World, record: Record, i: nat, j: nat)
    requires Base(start) && InvOf(start, w, record) && Enabled(w, record, CompleteFile(i, j))
    ensures InvOf(start, Next(w, record, CompleteFile(i, j)), Next(w, record, CompleteFile(i, j)).journal.value)
  {
    hide PolicyInv, ConfigInv, ReceiptInv, FrameInv, DirFrameInv, Untouched, ItemDirs, DirsInv;
    ObservedFile(w.disk, record, i, j);
    FileStateStep(start, w, record, i, j, Completed, Idle);
  }

  lemma ObservedFile(disk: Disk, record: Record, i: nat, j: nat)
    requires Observed(disk, record) && i < |record.items| && j < |record.items[i].states|
    ensures j < |record.items[i].plan.files| && FileObserved(disk.files, record.items[i].plan.files[j], record.items[i].states[j])
  {
    assert ItemObserved(disk, record.items[i]);
  }

  lemma FilesAfterMove(start: World, record: Record, disk: Disk, i: nat, j: nat)
    requires Base(start) && SameOperation(start.journal.value, record) && FilesInv(disk.files, record.items)
    requires i < |record.items| && j < |record.items[i].states| && j < |record.items[i].plan.files| && record.items[i].states[j] == Issued
    requires record.items[i].plan.files[j].source in disk.files
    ensures FilesInv(Moved(disk, record.items[i].plan.files[j]).files, record.items)
  {
    hide ItemFiles;
    var f := record.items[i].plan.files[j];
    forall k | 0 <= k < |record.items| ensures ItemFiles(Moved(disk, f).files, record.items[k]) {
      ItemsApart(start, record, i, k);
      ItemAfterMove(record.items[i], record.items[k], i == k, disk, j);
    }
  }

  lemma ItemAfterMove(mover: Item, item: Item, same: bool, disk: Disk, j: nat)
    requires |mover.states| == |mover.plan.files| && |item.states| == |item.plan.files| && (same ==> mover == item)
    requires ItemFiles(disk.files, mover) && ItemFiles(disk.files, item) && FilesDisjoint(mover.plan.files, item.plan.files, same)
    requires j < |mover.states| && mover.states[j] == Issued && mover.plan.files[j].source in disk.files
    ensures ItemFiles(Moved(disk, mover.plan.files[j]).files, item)
  {
    var f := mover.plan.files[j];
    assert FileWhere(disk.files, f, Issued);
    forall l | 0 <= l < |item.states| ensures FileWhere(Moved(disk, f).files, item.plan.files[l], item.states[l]) {
      assert FileWhere(disk.files, item.plan.files[l], item.states[l]);
    }
  }

  lemma FrameAfterMove(before: map<string, FileRecord>, disk: Disk, items: seq<Item>, i: nat, j: nat)
    requires FrameInv(before, disk.files, items) && i < |items| && j < |items[i].plan.files| && items[i].plan.files[j].source in disk.files
    ensures FrameInv(before, Moved(disk, items[i].plan.files[j]).files, items)
  {
    var f := items[i].plan.files[j];
    assert IsEndpoint(items, f.source) && IsEndpoint(items, f.destination);
  }

  lemma MoveStep(start: World, w: World, record: Record, i: nat, j: nat)
    requires Base(start) && InvOf(start, w, record) && Enabled(w, record, MoveFile(i, j))
    ensures InvOf(start, Next(w, record, MoveFile(i, j)), record)
  {
    hide Prefix, FilesInv, DirsInv, PolicyInv, ConfigInv, ReceiptInv, FrameInv, DirFrameInv, Apart;
    FilesAfterMove(start, record, w.disk, i, j);
    FrameAfterMove(start.disk.files, w.disk, record.items, i, j);
  }

  // ---------------------------------------------------------------- policy, configuration, receipt

  /** Steps that leave the items and what is on disk for them alone. */
  lemma TailStep(start: World, w: World, record: Record, w': World, record': Record)
    requires InvOf(start, w, record)
    requires w' == w.(journal := w'.journal, session := w'.session,
                      disk := w.disk.(policy := w'.disk.policy, config := w'.disk.config, receipt := w'.disk.receipt))
    requires record' == record.(policyState := record'.policyState, progress := record'.progress)
    requires record'.policyState != NotStarted ==> record'.items != [] && AllWhole(record'.items)
    requires record'.progress != Intent ==> Settled(record')
    requires PolicyInv(w'.disk.policy, record') && ConfigInv(w'.disk.config, record') && ReceiptInv(w'.disk.receipt, w'.disk.config, record')
    requires SessionInv(w'.disk, w'.session, record')
    ensures InvOf(start, w', record')
  {
    hide InOrder, FilesInv, DirsInv, PolicyInv, ConfigInv, ReceiptInv, SessionInv, FrameInv, DirFrameInv, AllWhole;
    assert Plans(record') == Plans(record);
  }

  lemma SettledWhenDone(start: World, w: World, record: Record)
    requires Base(start) && InvOf(start, w, record) && WellFormed(record) && RelocationDone(record)
    ensures Settled(record)
  {
    hide InvOf;
    if record.items != [] {
      WholeBefore(start, w, record, |record.items|);
    }
  }

  lemma PolicyStep(start: World, w: World, record: Record, l: Label)
    requires Base(start) && InvOf(start, w, record) && w.journal == Some(record) && Enabled(w, record, l) && l in {IssuePolicy, ReplacePolicy, CompletePolicy}
    ensures InvOf(start, Next(w, record, l), Next(w, record, l).journal.value)
  {
    hide InOrder, FilesInv, DirsInv, FrameInv, DirFrameInv, ItemDone, Whole, ItemObserved;
    if l != ReplacePolicy {
      assert WellFormed(record) && DoneBefore(record, |record.items|);
      WholeBefore(start, w, record, |record.items|);
    }
    TailStep(start, w, record, Next(w, record, l), Next(w, record, l).journal.value);
  }

  lemma OutputStep(start: World, w: World, record: Record, l: Label)
    requires Base(start) && InvOf(start, w, record) && w.journal == Some(record) && Enabled(w, record, l) && l in {ReplaceConfig, ApplyConfig, ReplaceReceipt, ApplyReceipt, Finish}
    ensures InvOf(start, Next(w, record, l), Next(w, record, l).journal.value)
  {
    hide InOrder, FilesInv, DirsInv, FrameInv, DirFrameInv, AllWhole, AllDone, ItemObserved;
    if l == ReplaceConfig || l == ApplyConfig {
      SettledWhenDone(start, w, record);
    }
    TailStep(start, w, record, Next(w, record, l), Next(w, record, l).journal.value);
  }

  lemma SessionStep(start: World, w: World, record: Record, l: Label)
    requires InvOf(start, w, record) && w.journal == Some(record) && Enabled(w, record, l) && l in {Start, Crash}
    ensures InvOf(start, Next(w, record, l), record)
  {
    hide Prefix, FilesInv, DirsInv, FrameInv, DirFrameInv, PolicyInv, ConfigInv, ReceiptInv;
  }

  lemma StepKeepsInv(start: World, w: World, l: Label, w': World)
    requires Base(start) && Inv(start, w) && Step(w, l, w')
    ensures Inv(start, w')
  {
    hide InvOf, Enabled, Observed, Base;
    var record := w.journal.value;
    match l {
      case Start => SessionStep(start, w, record, l);
      case PendDirectory(i, d) => PendStep(start, w, record, i, d);
      case MakeDirectory(i, identity) => MakeStep(start, w, record, i, identity);
      case RecordDirectory(i) => RecordStep(start, w, record, i);
      case IssueFile(i, j) => IssueFileStep(start, w, record, i, j);
      case MoveFile(i, j) => MoveStep(start, w, record, i, j);
      case CompleteFile(i, j) => CompleteFileStep(start, w, record, i, j);
      case IssuePolicy => PolicyStep(start, w, record, l);
      case ReplacePolicy => PolicyStep(start, w, record, l);
      case CompletePolicy => PolicyStep(start, w, record, l);
      case ReplaceConfig => OutputStep(start, w, record, l);
      case ApplyConfig => OutputStep(start, w, record, l);
      case ReplaceReceipt => OutputStep(start, w, record, l);
      case ApplyReceipt => OutputStep(start, w, record, l);
      case Finish => OutputStep(start, w, record, l);
      case Archive => ArchiveStep(start, w, record);
      case Crash => SessionStep(start, w, record, l);
    }
  }

  lemma ArchiveStep(start: World, w: World, record: Record)
    requires InvOf(start, w, record) && Enabled(w, record, Archive) && w.journal == Some(record)
    ensures InvOf(start, Next(w, record, Archive), record) && record.progress == Complete
  {
    hide Prefix, FilesInv, DirsInv, FrameInv, DirFrameInv, PolicyInv, ConfigInv, ReceiptInv, Observed;
  }

  // ---------------------------------------------------------------- from the start

  lemma PublishedInv(start: World)
    requires Published(start)
    ensures Base(start) && Inv(start, start)
  {
    var record := start.journal.value;
    FrozenPlansAreSound(Plans(record));
    SoundIsApart(Plans(record));
    PublishedOrder(record);
    PublishedDisk(start.disk, record);
    hide Apart, SoundPlan, FrozenPlans, InOrder, FilesInv, DirsInv;
  }

  lemma PublishedOrder(record: Record)
    requires WellFormed(record) && forall i :: 0 <= i < |record.items| ==> Untouched(record.items[i])
    ensures InOrder(record.items)
  {
  }

  lemma PublishedDisk(disk: Disk, record: Record)
    requires WellFormed(record) && Observed(disk, record) && forall i :: 0 <= i < |record.items| ==> Untouched(record.items[i])
    requires forall i, k :: 0 <= i < |record.items| && 0 <= k < |TargetPaths(record.items[i].plan)| ==> TargetPaths(record.items[i].plan)[k] !in disk.dirs
    ensures FilesInv(disk.files, record.items) && DirsInv(disk.dirs, record.items)
  {
    forall i | 0 <= i < |record.items| ensures ItemFiles(disk.files, record.items[i]) && ItemDirs(disk.dirs, record.items[i]) {
      assert ItemObserved(disk, record.items[i]);
      forall j | 0 <= j < |record.items[i].states| ensures FileWhere(disk.files, record.items[i].plan.files[j], record.items[i].states[j]) {
        assert FileObserved(disk.files, record.items[i].plan.files[j], record.items[i].states[j]);
      }
    }
  }
}
