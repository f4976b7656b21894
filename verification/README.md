# Crash-safe journals, publication and validators of the agent tooling

This project models the parts of the agent packages and release tooling whose correctness rests on
order, crashes and concurrency. What it proves of validators and loops holds of every input, and of
protocols of every run, crash and interleaving of the model; where a promise of the code is not kept,
the condition under which it is kept is proved, and a run that breaks it is given.

* **Clean initialization** (`Clean*.dfy`). A repository's managed files are archived and a new
  runtime is written, under a write-ahead journal that is only ever replaced by compare-and-swap and
  under the Host's maintenance fence. `CleanJournal` is the record and its validator, `CleanMachine`
  the transition system (files, directories, journal, fence, process; a crash is a step and so is a
  resume), `CleanSafety` its invariant, `CleanRuns` the promises over whole runs, `CleanChecks` what
  its checks ask for field by field, and `CleanDriver` the program itself: a class whose methods
  change the repository, may be cut short before any write, and log every write as a step of the
  machine. `CleanExamples` runs an operation to the one point nobody can get it out of.
* **Configuration with relocation** (`Relocation*.dfy`). A second journal with the opposite recovery
  rule: an issued effect is never issued again. `RelocationPlan` and `RelocationInventory` are the
  frozen inventory and its checks, then machine, safety, runs, what its checks ask for field by
  field (`RelocationChecks`), the validator of journal images (`RelocationFrozen`) and the driver;
  `RelocationExamples` runs a small project into each of the crashes that cannot be resumed.
* **GitHub publication** (`Publication*.dfy`). Any number of publishers, each a program of single API
  calls, over one remote. `PublicationSafety` is about all interleavings and crashes,
  `PublicationAlone` about one publisher at a time, `PublicationDriver` is the program, proved to make
  exactly the calls of the model in its order, and `PublicationPage` says when a publication ends and
  what the page of one hundred releases can hide from it.
* **Release bookkeeping.** `DispatchJoin` (which provider run belongs to which dispatch intent),
  `Formation` (the pointer to what a release is formed from), `Install` (the native candidate that takes
  the place of the npm package, and its installation, which is begun at most once).
* **Validators with a simple meaning.** `SnapshotReplay`, `InventoryForest`, `Paths`, and what the functions
  on paths compute in elementary terms (`PathTerms`).
* **Loops with an invariant of their own.** `SdkDist`, `BoundedReader`, `RangedDownload`.

Crashes, refusals and results are the three cases of `Outcomes.Outcome`. A digest is a datatype around
what it was computed from, and so is a binding: SHA-256 and canonical JSON are taken to be injective.
Times are integers in milliseconds.

Things the proofs turned up:

* A crash between issuing an archive directory and recording it cannot be resumed, ever
  (`CleanRuns.StuckForever`, reached in `CleanExamples.StuckIsReached`); it is the only such point, since
  a resume that is not itself stopped gets through from every other one
  (`CleanDriver.Repository.Resume`). A file move in the same position is always taken up, what the
  archive leaves is always fresh enough for the initializer (`CleanRuns.InitializerFindsItFresh`), and
  whatever is finished can be retired (`CleanRuns.AlwaysRetirable`).
* The relocation journal has exactly three such points: a directory pending and not made, a file issued
  and still at its source, the policy issued and still the old one (`RelocationRuns.StuckForever`,
  `RelocationDriver.Repository.Resume`, all three reached in `RelocationExamples`).
* The guard against a run joined to two intents can be reached exactly when the windows of two intents
  that could share a run meet in one instant more than six seconds after the observation, and the later
  is not the last (`DispatchJoin.GuardReachableIff`).
* Publication reads one page of one hundred releases. A publication leaves one published release of its
  version exactly when the releases of the version that the page did not show were drafts
  (`PublicationPage.OneLiveAfterIff`); a release published in full is published a second time once a page
  full of others has come after it (`PublicationPage.PageHidesRelease`).
* A crash while a formation result is being written leaves any part of its bytes, and refuses that
  formation for good (`Formation.TornForGood`).
* An installation whose process is gone before tree and command are whole never becomes successful
  (`Install.LeftForGood`, reached in `Install.InterruptionIsReached`).

## Model

| member | source | states |
|---|---|---|
| Paths.UniquePaths | packages/agent/bin/consumer-clean-initialization-v2.ts:123-140 | The hash-and-climb check accepts exactly the lists of safe paths that are distinct up to letter case and, where asked, of which none is above another |
| Paths.ConsistentPathCase | packages/agent/bin/consumer-clean-initialization-v2.ts:142-154 | The spelling map accepts exactly when any two path prefixes that agree up to letter case are identical |
| Paths.AncestorComesFirst | packages/agent/bin/consumer-clean-initialization-v2.ts:156-158 | In an ordered list a path always stands after every path that contains it |
| PathTerms.SafePathIff | packages/agent/bin/consumer-clean-initialization-v2.ts:97-115 | A path is safe exactly when it has 1 to 4096 characters, no backslash, colon or control character, and no stretch between separators that is empty, one dot or two; a single dot alone where it is allowed |
| PathTerms.SplitParts | packages/agent/bin/consumer-clean-initialization-v2.ts:112-113 | Splitting a path gives exactly its stretches between separators |
| PathTerms.LexLessIff | packages/agent/bin/consumer-clean-initialization-v2.ts:156-158 | One string comes before another exactly when the first code unit they differ in is smaller, or it is a proper prefix |
| CleanJournal.CheckPlan | packages/agent/bin/consumer-clean-initialization-v2.ts:193-285 | The check of the part that never changes accepts exactly the sound plans: mappings of some projects, no two of one; safe, distinct, non-nested, consistently spelled and ordered paths; moves of managed files into the archive clear of every protected path; an inventory that matches the moves; containers that are exactly the directories the targets need |
| CleanJournal.ProtectsIff | packages/agent/bin/consumer-clean-initialization-v2.ts:241-247 | A guard protects a move exactly when it is the root, or equal to, above or below source or target, up to letter case |
| CleanChecks.SpelledIff | packages/agent/bin/consumer-clean-initialization-v2.ts:216-224 | The spelling check takes in the archive root and every source, target, captured, preserved, protected and container path, and no other |
| CleanChecks.ArchivePlaces | packages/agent/bin/consumer-clean-initialization-v2.ts:198-240 | In every accepted plan a file goes to .agent/clean-initialization-history/(operation)/payload/(its path) |
| CleanJournal.OwnedAncestors | packages/agent/bin/consumer-clean-initialization-v2.ts:258-266 | Splitting a target collects exactly its proper ancestors other than .agent |
| CleanJournal.CheckContainers | packages/agent/bin/consumer-clean-initialization-v2.ts:258-271 | Comparing sizes and looking members up accepts exactly the lists that are the set of needed directories |
| CleanJournal.Validate | packages/agent/bin/consumer-clean-initialization-v2.ts:193-318 | An image decodes exactly when it is valid: a sound plan, states and phase that agree, and the binding of its own plan |
| CleanChecks.ProgressByPhase | packages/agent/bin/consumer-clean-initialization-v2.ts:286-318 | The states an image admits, phase by phase: nothing begun in intent, everything completed from archive_complete on, a receipt of the captured identities from the initialization on, and no earlier |
| CleanJournal.TargetDirectoryIsOwned | packages/agent/bin/consumer-clean-initialization-v2.ts:258-271 | Every archived file has its directory among the containers |
| CleanJournal.ParentComesFirst | packages/agent/bin/consumer-clean-initialization-operation.ts:805-817 | The directory above a container is .agent or a container that stands earlier, so walking the list never meets a missing parent |
| CleanJournal.SoundPlanIsDistinct | packages/agent/bin/consumer-clean-initialization-v2.ts:201-215 | Sources and targets of an accepted plan are all different paths |
| CleanSafety.BindingIsConstant | packages/agent/bin/consumer-clean-initialization-operation.ts:212-356 | In every reachable state the configuration an operation reads is the captured one, wherever the file is by then and whatever was written over it, and the fence binding computed from it is the one acquired at the start |
| CleanChecks.CurrentOperationIff | packages/agent/bin/consumer-clean-initialization-operation.ts:244-293 | Right after publication an operation is current exactly when the root has its identity, the configuration there names the repository, every mapping and no protected path the plan leaves out, and every captured file is there with identity, size and bytes |
| CleanChecks.CoversIff | packages/agent/bin/consumer-clean-initialization-capture.ts:206-213 | What is captured: every file that may be preserved and is there is preserved, and every other managed file that is there is archived |
| CleanSafety.StepKeepsInv | packages/agent/bin/consumer-clean-initialization-operation.ts:753-981 | Every write of any process, every crash and every resume keeps the invariant that ties journal, files, directories and fence together |
| CleanRuns.EveryImageIsValid | packages/agent/bin/consumer-clean-initialization-operation.ts:753-775 | Every image ever on disk passes the whole validation and carries the reviewed plan |
| CleanRuns.SwapRaisesRank | packages/agent/bin/consumer-clean-initialization-operation.ts:753-775 | Each compare-and-swap moves the journal forward by exactly one and nothing else moves it |
| CleanRuns.SwapBound | packages/agent/bin/consumer-clean-initialization-operation.ts:753-1086 | A run over any number of crashes makes at most 2·moves + 2·containers + 4 swaps, and the operation is complete exactly when it has made that many |
| CleanRuns.InventoryIdentity | packages/agent/bin/consumer-clean-initialization-operation.ts:865-893 | The inventory entry found for a move carries the identity the move names |
| CleanRuns.Custodian | packages/agent/bin/consumer-clean-initialization-operation.ts:865-981 | Until archiving is over every managed file exists with its captured identity and bytes at exactly one of source and target, the one its journal state admits; afterwards it stays in the archive |
| CleanRuns.MovedAtMostOnce | packages/agent/bin/consumer-clean-initialization-operation.ts:895-981 | Over all crashes and resumes a file is natively moved at most once |
| CleanRuns.OtherFilesUntouched | packages/agent/bin/consumer-clean-initialization-operation.ts:895-1086 | No file outside the plan is ever changed or removed, and until the initializer runs only archive copies appear |
| CleanRuns.ProtectedIsLeftAlone | packages/agent/bin/consumer-clean-initialization-v2.ts:241-247 | Over every run no file at, above or below a protected path, up to letter case, is moved or changed, and nothing is archived to such a place |
| CleanRuns.EffectsAreFenced | packages/agent/bin/consumer-clean-initialization-operation.ts:1088-1167 | Nothing is written but under the held fence with the captured binding, and the fence is released only in phase complete |
| CleanRuns.FenceNamesEveryProject | packages/agent/bin/consumer-clean-initialization-operation.ts:295-356 | Whenever a process is up it holds the fence, which names every project of the captured configuration, in its order and no other, each with the identity its root had at the start |
| CleanRuns.ResumeAlwaysAttaches | packages/agent/bin/consumer-clean-initialization-operation.ts:321-426 | In every reachable state without a process the recomputed binding is the captured one, so a resume attaches to the fence unless the operation has released it |
| CleanRuns.StuckForever | packages/agent/bin/consumer-clean-initialization-operation.ts:819-863 | Once a crash leaves a container issued, every later state has the same journal, files and directories: it is refused for good |
| CleanRuns.ParentExistsBeforeChild | packages/agent/bin/consumer-clean-initialization-operation.ts:805-863 | Before anything is issued for an archive directory the directory above it is completed and exists |
| CleanRuns.AlwaysRetirable | packages/agent/bin/consumer-clean-initialization-operation.ts:1376-1455 | Every complete, released operation can be retired |
| CleanRuns.ConfigIsMoved | packages/agent/bin/consumer-clean-initialization-capture.ts:205-222 | Every captured plan archives something: the configuration is there and cannot be preserved |
| CleanRuns.InitializerFindsItFresh | packages/agent/bin/init-core.ts:1454-1459 | In every reachable state with the archive complete, each of the initializer's outputs is preserved or not there, and the receipt is not there: the check for fresh outputs never refuses what the archive leaves |
| CleanChecks.FreshOutputsIff | packages/agent/bin/init-core.ts:1454-1459 | That check passes exactly when the receipt is not there and none of the four outputs is but as a preserved file |
| CleanChecks.RightOutputsIff | packages/agent/bin/consumer-clean-initialization-operation.ts:983-998 | A receipt is acceptable exactly when it names the receipt file and every output that is not preserved, once each, and nothing else |
| CleanExamples.SmallPublished | packages/agent/bin/consumer-clean-initialization-operation.ts:591-641 | A repository of one project with its configuration, under a UUID, meets everything a run starts from: the whole validation of the plan, and the capture's closure |
| CleanExamples.StuckIsReached | packages/agent/bin/consumer-clean-initialization-operation.ts:819-863 | Acquire, begin, issue the first archive directory, stop: a run that ends stuck |
| CleanDriver.Repository.CompareAndSwapPending | packages/agent/bin/consumer-clean-initialization-operation.ts:753-775 | The journal is replaced by the candidate exactly when it still is the owned image; otherwise nothing changes |
| CleanDriver.Repository.CreateContainer | packages/agent/bin/consumer-clean-initialization-operation.ts:819-863 | A container that was not started ends completed with the identity of its directory, at most that directory is made and everything else in the journal is as it was, or the process was stopped |
| CleanDriver.Repository.CreateArchiveContainers | packages/agent/bin/consumer-clean-initialization-operation.ts:819-863 | Every container ends completed, unless one was issued on entry: then nothing is written |
| CleanDriver.Repository.ArchiveFile | packages/agent/bin/consumer-clean-initialization-operation.ts:895-981 | Whatever an earlier process left of a move, it ends completed and no other does |
| CleanDriver.Repository.ArchiveManagedFiles | packages/agent/bin/consumer-clean-initialization-operation.ts:895-981 | From any phase up to there the archive ends complete, refused only for a container left issued |
| CleanDriver.Repository.FinishInitialization | packages/agent/bin/consumer-clean-initialization-operation.ts:1027-1086 | An issued initialization ends complete, with every output of its receipt there, byte for byte |
| CleanDriver.Repository.Attach | packages/agent/bin/consumer-clean-initialization-operation.ts:380-479 | The process ends holding the fence, which names every project of the configuration captured at the start, each with the identity its root had then; refused only when that fence was released |
| CleanDriver.Repository.RunHeldEffects | packages/agent/bin/consumer-clean-initialization-operation.ts:1200-1244 | One process takes the operation to complete and releases the fence, refused only for a container left issued or a receipt of other identities or other outputs than are to be written |
| CleanDriver.Repository.Resume | packages/agent/bin/consumer-clean-initialization-operation.ts:1348-1374 | From every point earlier processes stopped at, a resume that is not stopped itself finishes, except exactly when a container was left issued (or the receipt is of other identities or outputs); then every output of the recorded receipt, which is the one given unless one was recorded before, is there byte for byte; a finished operation is only looked at |
| CleanDriver.Repository.Retire | packages/agent/bin/consumer-clean-initialization-operation.ts:1376-1455 | The journal of a finished operation, as it is, moves into the archive's history and nothing else changes, always when the process is not stopped; a refusal changes nothing |
| RelocationPlan.ParentFirst | packages/agent/bin/consumer-configuration-operation.ts:648-662 | In the order of depth and name a target directory's parent is the new root or made earlier |
| RelocationChecks.TargetPathsAre | packages/agent/bin/consumer-configuration-operation.ts:648-654 | The directories to make are exactly those below the old root with the new root in its place, those with fewer separators first and among as many in the order of their names |
| RelocationPlan.TargetsDiffer | packages/agent/bin/consumer-configuration-operation.ts:648-662 | No directory is to be made twice, in one item or in two |
| RelocationPlan.CheckRoots | packages/agent/bin/consumer-project-relocation.ts:120-132 | The pairwise check accepts exactly when no root, old or new, is at or above another up to letter case |
| RelocationPlan.CheckedRootsApart | packages/agent/bin/consumer-project-relocation.ts:120-132 | What it accepts lies apart as the relocation needs: no old root overlaps a new one, no two items overlap |
| RelocationPlan.FilesDiffer | packages/agent/bin/consumer-project-relocation.ts:120-132 | With roots apart, all sources and destinations of a relocation are different paths |
| RelocationInventory.CheckDirectories | packages/agent/bin/consumer-configuration-operation.ts:258-274 | Accepts exactly directories at or below the old root, distinct up to letter case, each with an ordered list of portable names |
| RelocationChecks.EntryNameIff | packages/agent/bin/consumer-configuration-operation.ts:244-250 | A name is portable exactly when it is letters, digits, dots, underscores and hyphens, does not end in a dot, is no reserved name and has no device name before its first dot |
| RelocationChecks.DeviceNameIff | packages/agent/bin/consumer-configuration-operation.ts:250 | The device names: con, prn, aux, nul and com or lpt with a digit from 1 to 9 |
| RelocationInventory.CheckFiles | packages/agent/bin/consumer-configuration-operation.ts:301-312 | Accepts exactly files below the old root with the rebased destination, distinct up to letter case among directories and files, of at most 32 MiB together |
| RelocationInventory.CheckTree | packages/agent/bin/consumer-configuration-operation.ts:313-323 | Accepts exactly when every path hangs in a listed directory under a portable name and every directory lists exactly what hangs in it |
| RelocationInventory.FrozenIsSound | packages/agent/bin/consumer-configuration-operation.ts:251-324 | What is accepted has all the driver relies on: a closed tree of different paths below the old root |
| RelocationFrozen.CheckTargets | packages/agent/bin/consumer-configuration-operation.ts:275-300 | Accepts exactly recorded and pending directories that stand for one of the old project's, new up to letter case, with a recorded parent |
| RelocationFrozen.TargetKnownIff | packages/agent/bin/consumer-configuration-operation.ts:275-300 | A target directory stands for one of the old project exactly when it is that directory with the new root for the old one |
| RelocationFrozen.Validate | packages/agent/bin/consumer-configuration-operation.ts:190-332 | A journal image passes exactly when every item's inventory and progress do, at most one directory is pending and the policy does not precede the files |
| RelocationFrozen.PrefixIsAccepted | packages/agent/bin/consumer-configuration-operation.ts:594-603 | Effects that form a prefix of an accepted plan always make an image that passes |
| RelocationFrozen.EveryImageIsAccepted | packages/agent/bin/consumer-configuration-operation.ts:594-603 | In every state any run reaches the journal passes, so the driver never refuses its own image |
| RelocationSafety.StepKeepsInv | packages/agent/bin/consumer-configuration-operation.ts:532-760 | Every write, crash and resume keeps the invariant that ties journal and disk together |
| RelocationChecks.ItemDoneIff | packages/agent/bin/consumer-configuration-operation.ts:477-493 | An item is done exactly when nothing is pending, every directory below the old root is recorded under the new one and every file is completed |
| RelocationChecks.ObservedIff | packages/agent/bin/consumer-configuration-operation.ts:540-579 | What revalidation accepts on disk, output by output and file by file, for every state the journal may be in |
| RelocationRuns.EffectsFormAPrefix | packages/agent/bin/consumer-configuration-operation.ts:594-682 | In every reachable journal earlier items are whole, directories are recorded in order and before the item's first file is issued, and nothing later is begun |
| RelocationRuns.OneEffectOpen | packages/agent/bin/consumer-configuration-operation.ts:630-721 | At most one directory is pending or one file issued, never both, and neither once the policy is begun |
| RelocationRuns.ParentRecorded | packages/agent/bin/consumer-configuration-operation.ts:287-300 | The parent of a pending directory is the new root or recorded |
| RelocationRuns.NothingIssuedTwice | packages/agent/bin/consumer-configuration-operation.ts:664-714 | Over all crashes and resumes each native file move, and the replacement of the policy, is called at most once |
| RelocationRuns.ProgressFollowsDisk | packages/agent/bin/consumer-configuration-operation.ts:540-593 | Past intent the configuration is the target, past config_applied the receipt is, and the policy is once it is completed; the configuration is never ahead of the relocation |
| RelocationRuns.ArchivedMeansRelocated | packages/agent/bin/consumer-configuration-operation.ts:473-530 | An archived operation left every captured file with identity and bytes at its destination alone, every directory made, all outputs at their targets and nothing else changed |
| RelocationRuns.SuccessfulRunsEndAlike | packages/agent/bin/consumer-configuration-operation.ts:532-760 | All runs that succeed from one start, with and without crashes, end in the same files, directories and outputs |
| RelocationRuns.StuckForever | packages/agent/bin/consumer-project-relocation.ts:239-317 | After a crash in one of the three windows no later process writes anything |
| RelocationExamples.OperationExists | packages/agent/bin/consumer-configuration-operation.ts:351-416 | A project of one directory and one file, moved from one root to another, meets everything an operation starts from |
| RelocationExamples.DirectoryLostIsReached | packages/agent/bin/consumer-configuration-operation.ts:655-657 | Its run that stops between recording the directory as pending and making it |
| RelocationExamples.FileLostIsReached | packages/agent/bin/consumer-configuration-operation.ts:668-675 | Its run that stops between issuing the file and moving it |
| RelocationExamples.PolicyLostIsReached | packages/agent/bin/consumer-configuration-operation.ts:706-714 | Its run that stops between issuing the policy and replacing it |
| RelocationDriver.Repository.ReplaceJournal | packages/agent/bin/consumer-configuration-operation.ts:580-603 | The journal is replaced exactly by the candidate, after the disk was observed and the image validated; refused only when the disk is not as the journal may leave it, never by the validation |
| RelocationDriver.Repository.RelocateFile | packages/agent/bin/consumer-configuration-operation.ts:664-681 | A file ends completed and nothing else changes in the journal; one not started is moved and nothing else on disk changes, and one already issued is not moved again: then the disk stays as it is |
| RelocationDriver.Repository.MakeDirectories | packages/agent/bin/consumer-configuration-operation.ts:638-662 | All directories of the item end recorded, whatever was recorded or pending before |
| RelocationDriver.Repository.RelocateItem | packages/agent/bin/consumer-configuration-operation.ts:630-682 | One more item is done, directories before files |
| RelocationDriver.Repository.SettlePolicy | packages/agent/bin/consumer-configuration-operation.ts:683-721 | With all items done the policy ends completed |
| RelocationDriver.Repository.ApplyOutputs | packages/agent/bin/consumer-configuration-operation.ts:722-746 | From any progress the journal ends complete, with configuration and receipt at their targets and nothing else on disk changed |
| RelocationDriver.Repository.FinishOperation | packages/agent/bin/consumer-configuration-operation.ts:532-760 | The operation ends archived and nowhere pending, refused only when an effect was lost |
| RelocationDriver.Repository.Resume | packages/agent/bin/consumer-configuration-operation.ts:419-454 | From every point earlier processes stopped at, a resume that is not stopped itself leaves everything the published operation plans relocated and archived, except exactly when an effect was lost: then nothing is written; nor is anything for an archived operation |
| PublicationSafety.StepKeepsInv | tooling/agent/release-github-publication.ts:401-524 | Every API call of every publisher keeps true what every other publisher has seen and relies on |
| PublicationSafety.PublishedForGood | tooling/agent/release-github-publication.ts:452-514 | On every remote, whatever its size: when a release is taken out of draft its assets are exactly those of the claim in the tag, names and bytes, and nothing about it, the tag included, ever changes again |
| PublicationSafety.PublishedBytes | tooling/agent/release-github-publication.ts:257-267 | Whatever a run takes out of draft is, then and for good, the release of the claim field by field under the tag that carries the claim, with exactly one asset for each claimed, uploaded, of the claimed length and digest, and none besides |
| PublicationSafety.CompleteSpelledOut | tooling/agent/release-github-publication.ts:364-399 | Assets are complete exactly when every claimed one is there with the claimed length and digest, no name is there twice and none is unclaimed |
| PublicationSafety.OneClaimPublished | tooling/agent/release-github-publication.ts:401-516 | On every remote, a version is published under one claim only |
| PublicationSafety.OnePublication | tooling/agent/release-github-publication.ts:401-516 | As long as publishers of the version list pages that have all its releases, no two releases of it are taken out of draft, however they interleave and crash |
| PublicationSafety.ReceiptsAgree | tooling/agent/release-github-publication.ts:512-523 | All receipts of a version name the same claim, and a release that is out with exactly its assets; and the same release, as long as its publishers list pages that have all its releases |
| PublicationSafety.AtMostOneLive | tooling/agent/release-github-publication.ts:401-516 | As long as they do, at most one release of the version is out of draft if that was so at the start |
| PublicationSafety.InViewAtTheEnd | tooling/agent/release-github-publication.ts:239-243 | A page that has all releases of the version at the end of a run had them at every listing |
| PublicationPage.PageHidesRelease | tooling/agent/release-github-publication.ts:239-243 | A release published in full under its tag, and a page full of releases after it: publishing the same claim again runs to its receipt and leaves two releases of the version out of draft |
| PublicationAlone.LoneStep | tooling/agent/release-github-publication.ts:401-524 | With nobody else active each call leads from a remote that is ready to one that is, and from one that is not to one that is not; and neither makes nor mends a published release off the page |
| PublicationAlone.ReadyIff | tooling/agent/release-github-publication.ts:401-524 | A remote is ready exactly when the version is free or tagged with the claim, and of the newest hundred releases at most one is of the version, which is the claim field by field, with none but claimed assets, none twice, each with the claimed bytes, and out of draft only with none missing |
| PublicationAlone.FormedIff | tooling/agent/release-github-publication.ts:424-450 | A publisher starts with one to sixteen assets of different names and, for each, bytes of the claimed length and digest |
| PublicationAlone.LookedUpAgain | tooling/agent/release-github-publication.ts:477-512 | The three times a release is looked up again it is accepted exactly when it is on the page and the claim field by field: when created, as the only one of the version, and when published, as no draft |
| PublicationAlone.OneLiveIff | tooling/agent/release-github-publication.ts:477-496 | When a release is out and alone on the page it is the only one out of its version exactly when those off the page are drafts |
| PublicationAlone.RerunOnlyReads | tooling/agent/release-github-publication.ts:401-524 | With the release out a publisher asks for no change whatever it is about to do |
| PublicationAlone.CleanFitsPage | tooling/agent/release-github-publication.ts:364-399 | The assets a reconciliation accepts always fit one page of the asset list |
| PublicationDriver.Process.CheckTag | tooling/agent/release-github-publication.ts:214-231 | Whether the tag is there; any tag but this claim's is refused |
| PublicationDriver.Process.IndexByName | tooling/agent/release-github-publication.ts:364-399 | The map by name is built exactly from lists without unknown or doubled names and finds what a search of the list finds |
| PublicationDriver.Process.GoLive | tooling/agent/release-github-publication.ts:499-512 | The refreshed release is taken out of draft only after every asset was verified again, by the calls of the model up to its last reconciliation; whether it was found published is not touched |
| PublicationDriver.Process.ReconcileAssets | tooling/agent/release-github-publication.ts:364-399 | One listing, then every asset of the claim verified or uploaded and verified, as the model's calls; it ends where the model's reconciliation ends |
| PublicationDriver.Process.SettleTag | tooling/agent/release-github-publication.ts:452-476 | The tag of the claim is there afterwards, created only when there was none; no release is touched |
| PublicationDriver.Process.SettleRelease | tooling/agent/release-github-publication.ts:477-496 | The one release of the tag, created as a draft when there is none, and whether it was out when found |
| PublicationDriver.Process.Publish | tooling/agent/release-github-publication.ts:401-524 | From every remote an earlier stopped publisher left, the run gets the claim published exactly when the remote is ready for it, and then tag, release and assets are the claim field by field and byte by byte; stopping anywhere keeps it ready; it leaves one published release of the version exactly when those the page did not show at its start were drafts; on a published release it asks for no change and reports already-published |
| PublicationPage.CallsDecrease | tooling/agent/release-github-publication.ts:364-524 | Whatever others do, a publisher stops after at most 16 calls and nine for every asset |
| PublicationPage.FinishesIffReady | tooling/agent/release-github-publication.ts:401-524 | A publisher with nobody else about reaches its receipt exactly when the remote it starts on is ready |
| PublicationPage.OneLiveAfterIff | tooling/agent/release-github-publication.ts:239-243 | It then leaves one published release of its version exactly when, before it began, all of the version that the page did not show were drafts |
| DispatchJoin.Join | tooling/agent/release-local.ts:2349-2461 | Eligible exactly when the intents are one request's, without twins, every run has one possible intent by its wide window, every intent at most one run, and every run is taken once by its narrow window; then the assignments and the unmatched are exactly those; and blocked for a run taken twice whenever that is all that is wrong |
| DispatchJoin.Match | tooling/agent/release-local.ts:2411-2457 | The assignment loop over sorted intents, against the same specification |
| DispatchJoin.JoinIsBijection | tooling/agent/release-local.ts:2349-2461 | An eligible join assigns each run to exactly one intent and each intent at most once, and the intents left over are exactly those with no run in their window |
| DispatchJoin.OnlyMatching | tooling/agent/release-local.ts:2322-2347 | For a run created by a second after the observation an intent could account for it, even by the wide window, exactly when it was assigned to it |
| DispatchJoin.WindowsSpelledOut | tooling/agent/release-local.ts:2322-2347 | The windows in figures: from five seconds before an intent to the next intent or a second after the observation, and for the wide one to a second after the observation |
| DispatchJoin.TwinsSpelledOut | tooling/agent/release-local.ts:2399-2410 | The check for twins finds exactly two intents of different places that agree in everything a run is matched by and in time |
| DispatchJoin.AssignmentFields | tooling/agent/release-local.ts:2446-2452 | Every assignment has source, repository and workflow of the intent with its path and is of a run with its identity |
| DispatchJoin.AssignedWithinWindow | tooling/agent/release-local.ts:2430-2453 | An intent is assigned exactly the run whose fields match and whose time lies in its narrow window |
| DispatchJoin.OrderIrrelevant | tooling/agent/release-local.ts:2349-2461 | Neither the verdict nor the assignments nor the unmatched depend on the order of intents or runs |
| DispatchJoin.GuardUnreachable | tooling/agent/release-local.ts:2423-2445 | With no intent issued more than six seconds after the observation no run is taken twice |
| DispatchJoin.GuardReachable | tooling/agent/release-local.ts:2443-2444 | Three intents, the later ones issued after that, and one run that passes every other check and is taken twice |
| DispatchJoin.GuardReachableIff | tooling/agent/release-local.ts:2423-2445 | Some set of runs passes every other check and is taken twice exactly when two intents that can share a run have windows meeting in one instant more than six seconds after the observation, the later not being the last |
| Formation.Repository.WriteResult | tooling/agent/release-ci-evidence.ts:1550-1563 | A result ends with its bytes; a stop leaves it absent or with any part of them |
| Formation.Repository.CheckPointer | tooling/agent/release-ci-evidence.ts:1581-1596 | A formation may go on exactly when the current pointer is confirmed by its results and is this very one or of another operation and a lower version |
| Formation.Repository.Persist | tooling/agent/release-ci-evidence.ts:1545-1599 | Ends with the result in place and a pointer to what was formed, field by field; refused exactly for a result with other bytes or a pointer that may not move, and then the pointer stays |
| Formation.Repository.PersistPair | tooling/agent/release-ci-evidence.ts:1467-1543 | As one formation of two results, all checked before the first is written: both are there at the end, and so is a pointer to what was formed, field by field; a refusal changes nothing |
| Formation.RunConfirmed | tooling/agent/release-ci-evidence.ts:1467-1599 | Over any run, stops included, every result pointed to is there with the recorded digest |
| Formation.PointerIsMonotone | tooling/agent/release-ci-evidence.ts:1581-1609 | Over any run the pointer never changes for one operation, and whenever the operation changes its version rises by major, then minor, then patch |
| Formation.BelowIsLexicographic | tooling/agent/release-ci-evidence.ts:1600-1609 | A version is below another exactly when its major is, or its minor with the same major, or its patch with the same major and minor |
| Formation.TornForGood | tooling/agent/release-ci-evidence.ts:1550-1563 | A result short of its bytes stays so: no formation that holds it fits, or is ever pointed to, again |
| Formation.TornIsReached | tooling/agent/release-ci-evidence.ts:1550-1563 | A stop can leave any part of the bytes |
| Install.Release.Extract | tooling/agent/release-local.ts:3490-3523 | Done only on an empty place: then the tree is what the archive holds, which is exactly the listed files with the package's bytes; where a tree was before it is refused and left alone |
| Install.Release.InstallNative | tooling/agent/release-local.ts:3676-3845 | Not stopped, it is done exactly when what is there is installed (once begun) or can be (before); once begun it changes nothing |
| Install.Release.Execute | tooling/agent/release-local.ts:3846-3987 | Not stopped, it succeeds exactly when Installs (or, for packing alone, Packs) holds of what it found, and a refusal past the first guard leaves the status failed; success means that the tree has exactly the packed archive's files with the package's bytes, that the command is the qualified executable, and that both journal and record say so; packing alone leaves the source, the digest and the entries of the archive packed, and the status awaiting_assurance; a failure takes nothing back |
| Install.PackingRepeats | tooling/agent/release-local.ts:3900-3961 | Packing again what was packed gets through as well and leaves the same journal |
| Install.BegunAtMostOnce | tooling/agent/release-local.ts:3699-3733 | Over every sequence of executions, crashes and take-overs, write by write: the start is journaled at most once, and extraction and publication are begun at most once each, and only after it |
| Install.Release.TakeOver | packages/agent/bin/repair-release-retarget.ts:996-1072 | The native candidate takes the place of an unstarted npm package in the journal: archive, file list and source, and nothing else |
| Install.ArchiveStays | tooling/agent/release-local.ts:3900-3943 | The recorded archive is exchanged at most once, for the native one, and from the start on archive, file list and places never change |
| Install.RecordedIsInstalled | tooling/agent/release-local.ts:3962-3977 | Whenever success is recorded the tree has the packed archive's files, all of them and no others, the command is there, and the record names that archive |
| Install.LeftForGood | tooling/agent/release-local.ts:3706-3721 | Once the process that journaled the start is gone tree and command never change, and what it left short of whole is never recorded as successful |
| Install.SuccessIsReached | tooling/agent/release-local.ts:3846-3987 | A run from a prepared release through take-over, start, extraction and publication to its record |
| Install.InterruptionIsReached | tooling/agent/release-local.ts:3726-3732 | A run that stops right after the start is journaled |
| SnapshotReplay.FindFrontier | packages/agent/bin/capture-completed-readonly.ts:153-187 | Finds the frontier exactly when there is one suspended wave waiting for precisely the current requests |
| SnapshotReplay.GroupItems | packages/agent/bin/capture-completed-readonly.ts:189-215 | Accepts exactly journal steps that are distinct waves before the frontier, all completed, and groups their items by wave |
| SnapshotReplay.ReplayWaves | packages/agent/bin/capture-completed-readonly.ts:217-341 | The loop that carries the state accepts exactly when every wave replays from the state before it, and ends with the state before the frontier |
| SnapshotReplay.CheckFrontier | packages/agent/bin/capture-completed-readonly.ts:427-472 | Accepts exactly the frontier that starts from that state and asks for what the configuration makes of it |
| SnapshotReplay.Accept | packages/agent/bin/capture-completed-readonly.ts:474-538 | Accepts a snapshot if and only if it is a replay of the executable waves up to its frontier, and then its waves are exactly the executable ones at most the largest of them |
| SnapshotReplay.WavesOfReplay | packages/agent/bin/capture-completed-readonly.ts:413-425 | A replay has exactly the executable waves up to its largest, and asks nothing more of the executable waves |
| SnapshotReplay.OrderIsPrefixIff | packages/agent/bin/capture-completed-readonly.ts:413-425 | The waves in order are the executable ones up to the frontier exactly when the largest wave is executable and the waves there are just the executable ones at most it |
| SnapshotReplay.UpToCounts | packages/agent/bin/capture-completed-readonly.ts:418-424 | Every wave at most the frontier is taken as often as it is listed, and no other is |
| SnapshotReplay.UpToOfConcatenation | packages/agent/bin/capture-completed-readonly.ts:418-424 | They are taken in the order they are listed in |
| SnapshotReplay.StepsSpelledOut | packages/agent/bin/capture-completed-readonly.ts:189-215 | The steps are closed exactly when they are different waves before the frontier, completed, with closed items |
| SnapshotReplay.WaveSpelledOut | packages/agent/bin/capture-completed-readonly.ts:236-261 | Field by field, when a completed wave replays |
| SnapshotReplay.FrontierSpelledOut | packages/agent/bin/capture-completed-readonly.ts:427-472 | Field by field, when the frontier replays |
| SnapshotReplay.ObservationsSpelledOut | packages/agent/bin/capture-completed-readonly.ts:315-341 | Field by field, when the observations of a wave are closed |
| SnapshotReplay.RequestsSpelledOut | packages/agent/bin/capture-completed-readonly.ts:382-399 | Field by field, when the requests of a wave are closed |
| SnapshotReplay.ReplayIsAChain | packages/agent/bin/capture-completed-readonly.ts:236-261 | Each wave takes the output of the one before and the frontier holds all earlier observations in order |
| SnapshotReplay.ObservationsBiject | packages/agent/bin/capture-completed-readonly.ts:315-341 | Observations of a completed wave and its journal items correspond one to one, with the same issue and content |
| SnapshotReplay.RequestsBiject | packages/agent/bin/capture-completed-readonly.ts:382-399 | Every expected request is in the journal; the converse holds exactly when the configuration names no action of the wave twice |
| SnapshotReplay.StepsAreWaves | packages/agent/bin/capture-completed-readonly.ts:474-538 | The journal has no completed step but those of the waves before the frontier |
| InventoryForest.FindOwner | packages/agent/bin/consumer-clean-initialization.ts:245-252 | Climbing finds a move above the entry, and none exactly when no move is above it |
| InventoryForest.CheckInventory | packages/agent/bin/consumer-clean-initialization.ts:229-274 | The maps and child lists accept exactly the inventories in which every entry has an owner, a listed parent and, as a directory, exactly its children in order, of at most 512 MiB |
| InventoryForest.RootListedIff | packages/agent/bin/consumer-clean-initialization.ts:229-244 | A move is listed exactly when there is an entry of its path and of its kind |
| InventoryForest.InventoryIsForest | packages/agent/bin/consumer-clean-initialization.ts:229-274 | An accepted inventory is a disjoint union of trees: every entry is reached through listed children from the root of exactly one move, its owner |
| InventoryForest.ReachedIsListed | packages/agent/bin/consumer-clean-initialization.ts:262-274 | Nothing is reached through listed children that is not in the inventory |
| SdkDist.Project.Replace | tooling/agent/sdk-coverage-readiness.ts:111-148 | Succeeds with the candidate at dist and the prior directory at the backup, and always when nothing fails and nobody else is about; wherever it fails the flags say how far it got |
| SdkDist.Project.RollBack | tooling/agent/sdk-coverage-readiness.ts:149-171 | From every point of failure the prior directory ends at dist or at the backup, and back at dist when the roll-back succeeds and nobody else's directory is in the way; a directory at dist that is not the candidate is left there; it succeeds when nothing fails |
| SdkDist.Project.Publish | tooling/agent/sdk-coverage-readiness.ts:92-178 | The prior directory is never lost, and somebody else's, unless empty, is left where they put it; a normal end leaves exactly the candidate at dist, a clean roll-back exactly what was there; when nothing fails and nobody else is about it ends published, and when nothing fails in the roll-back what was there is back |
| BoundedReader.Append | tooling/agent/cloud-tooling-contracts.ts:178-192 | Accepts a part exactly when no line it finishes and no rest exceeds the limit, and then appends it |
| BoundedReader.Drain | tooling/agent/cloud-tooling-check.ts:36-55 | Takes out exactly the finished lines and keeps the rest |
| BoundedReader.Read | tooling/agent/cloud-tooling-check.ts:36-55 | However a stream is cut, reading refuses exactly when some line or the rest is too long, and otherwise delivers the lines of the whole stream |
| BoundedReader.ScanAppend | tooling/agent/cloud-tooling-check.ts:36-55 | Reading two texts one after the other is reading them joined |
| BoundedReader.LinesAndRest | tooling/agent/cloud-tooling-check.ts:36-55 | A text is the lines read from it, each with its newline, followed by the rest, and none of them has a newline in it |
| RangedDownload.Download | tooling/agent/release-ci-publisher.ts:130-169 | On the path of partial answers it ends exactly with the bodies of a complete sequence of accepted ranges, and refuses only when there is none, at the first answer that is not accepted; a single complete answer is taken exactly up to 256 MiB |
| RangedDownload.RangesTile | tooling/agent/release-ci-publisher.ts:110-169 | Accepted ranges tile the object from 0 to its total without gap or overlap, in exactly as many requests as it has 8 MiB parts, at most 32 |
| RangedDownload.CompleteSpelledOut | tooling/agent/release-ci-publisher.ts:110-169 | A sequence of answers is complete exactly when each is partial, of the stated range and total, with a body of that length, and the last ends the object |
| RangedDownload.SlicesMakeTheObject | tooling/agent/release-ci-publisher.ts:130-169 | If every accepted body is the stated slice of one object the download is that object |

## Left out

- Crash model: a process stops before or after a write, never inside an atomic one; replacing a file, moving one without replacing and creating one exclusively are atomic. The exception is a formation result, which a stop can leave with any part of its bytes.
- SHA-256 and canonical JSON are taken to be injective; nothing is said about their computation.
- Strings are sequences of code units and letter case is folded for ASCII letters only.
- JSON schemas, field shapes, regular expressions over identifiers and size limits of single strings: linear checks.
- Clean initialization: the Host's store is a fence that is free, held or released; parent-directory identities and the lexical form of the repository root are not modelled. Of the initializer, outputs means the files still to be written, its own output files apart from the preserved ones and the receipt; their content, its transient intent file and the re-reading of preserved files are not modelled.
- CleanJournal.CheckPlan: does not model the syntax of the repository root, of the repository name and of a project mapping.
- CleanJournal.Validate: does not model the schema or the repository-root syntax, and takes the parsed configuration of a file as part of its content.
- Relocation: devices and directory identities, the re-capture of plan and receipt, the text of the rebased documentation policy. Listings are observed through the presence of sources and destinations.
- RelocationInventory.CheckDirectories: does not model that every directory is on the root's device.
- RelocationInventory.CheckFiles: does not model that every file is on the root's device.
- RelocationFrozen.CheckTargets: does not model that every target directory is on the root's device.
- RelocationFrozen.Validate: does not model the retained bytes, the request and the text of the rebased policy, nor the root's identity.
- RelocationPlan.ParentFirst: orders names of one depth by code units where the source uses localeCompare; the order among siblings does not matter to any claim.
- Publication: API calls are atomic, creating a ref or an asset that exists fails, nobody deletes. Where a second release of one tag is taken out of draft (PageHidesRelease) the remote is taken to allow it. The field checks of claims and the separate read-only observer of a published release are linear.
- PublicationSafety.OnePublication: takes for granted that its publishers list pages with all releases of the version; with several publishers at work this is shown to be enough, and with one the exact condition is proved.
- DispatchJoin.Join: intents and runs are given with parsed fields; paths are compared by code units where the source uses localeCompare.
- SnapshotReplay.Accept: waves are keyed by number, so keys such as "wave-01" beside "wave-1" are not modelled; what the configuration makes of a wave is a parameter.
- Formation.PointerIsMonotone: takes one version per operation, which the pending release record fixes for its operation; receipt fields and the admission lock are not modelled.
- Install: package managers, PATH and shell handling; the place installed to is one place, and whether the installed program answers is a parameter. The journal of the take-over itself and its custody copies are not modelled: it is one write of the release journal.
- SdkDist: reading and staging the candidate; other processes may put a directory of their own at dist between any two renames; a rename onto it fails, or takes its place when it is empty, as systems differ.
- RangedDownload: headers other than Content-Range (section 14.4 of RFC 9110) and redirects.
- Version selection (candidateVersion, confirmedVersionBaseline), the disposition census, the shell-profile repair and the publication diagnostics: small claims about one pass each.
