/** What any interleaving of publishers keeps, crashes included: a release is published with exactly the
    assets of the one claim in the tag and never changes again; and it is the only one of its version as
    long as nobody lists a page that is missing one. */
module PublicationSafety {
  import opened Outcomes
  import opened PublicationModel

  datatype World = World(remote: Remote, publishers: seq<Publisher>)

  datatype Label =
    | Join(publisher: Publisher)
    | Go(who: nat)
    | Stop(who: nat)

  predicate Enabled(w: World, l: Label) {
    match l
    case Join(p) => Formed(p.claim, p.uploads) && p.pc == ReadTag
    case Go(i) => i < |w.publishers| && !Stopped(w.publishers[i].pc)
    case Stop(i) => i < |w.publishers| && !Stopped(w.publishers[i].pc)
  }

  function Next(w: World, l: Label): World
    requires Enabled(w, l)
  {
    match l
    case Join(p) => w.(publishers := w.publishers + [p])
    case Go(i) => var (r, p) := Advance(w.remote, w.publishers[i]); World(r, w.publishers[i := p])
    case Stop(i) => w.(publishers := w.publishers[i := At(w.publishers[i], Failed)])
  }

  predicate Step(w: World, l: Label, w': World) {
    Enabled(w, l) && w' == Next(w, l)
  }

  /** A history of publishers starting, calling and crashing, on a remote with any content. */
  ghost predicate IsRun(trace: seq<World>, labels: seq<Label>) {
    && |trace| == |labels| + 1 && trace[0].publishers == []
    && forall i :: 0 <= i < |labels| ==> Step(trace[i], labels[i], trace[i + 1])
  }

  // ---------------------------------------------------------------- what a publisher knows

  predicate Good(asset: Asset, expected: ClaimAsset) {
    asset.name == expected.file && asset.size == expected.bytes && asset.uploaded && UploadFits(asset.data, expected)
  }

  predicate Present(assets: seq<Asset>, expected: ClaimAsset) {
    exists k :: 0 <= k < |assets| && Good(assets[k], expected)
  }

  predicate Clean(assets: seq<Asset>, claim: Claim) {
    NamesOk(Infos(assets), claim)
  }

  predicate PresentUpTo(assets: seq<Asset>, claim: Claim, n: nat) {
    n <= |claim.assets| && forall i :: 0 <= i < n ==> Present(assets, claim.assets[i])
  }

  /** Exactly the claim's assets: nothing else, nothing twice, every one with the claimed bytes. */
  predicate Complete(assets: seq<Asset>, claim: Claim) {
    Clean(assets, claim) && PresentUpTo(assets, claim, |claim.assets|)
  }

  predicate Holds(r: Remote, claim: Claim, id: nat) {
    TagIs(r.refs, claim) && id < |r.releases| && ReleaseMatches(r.releases[id], claim)
  }

  predicate StageInv(release: Release, claim: Claim, stage: Stage) {
    && (!stage.Early? ==> Complete(release.assets, claim))
    && (stage.After? ==> !release.draft)
  }

  predicate Seen(assets: seq<Asset>, seen: seq<AssetInfo>) {
    |seen| <= |assets| && forall k :: 0 <= k < |seen| ==> seen[k] == Info(assets[k])
  }

  predicate InReconcile(r: Remote, claim: Claim, id: nat, stage: Stage, i: nat, seen: seq<AssetInfo>) {
    && Holds(r, claim, id) && StageInv(r.releases[id], claim, stage) && Clean(r.releases[id].assets, claim)
    && i < |claim.assets| && PresentUpTo(r.releases[id].assets, claim, i) && Seen(r.releases[id].assets, seen)
  }

  predicate Known(r: Remote, claim: Claim, pc: PC)
    decreases pc
  {
    match pc
    case ReadTag | RereadTag | PostTag | PostRef | Failed => true
    case RequireTag(next) => TagIs(r.refs, claim) && Known(r, claim, next)
    case ListReleases | PostRelease => TagIs(r.refs, claim)
    case ReadBack(id) => TagIs(r.refs, claim)
    case ListAssets(id, stage) => Holds(r, claim, id) && StageInv(r.releases[id], claim, stage)
    case Reconcile(id, stage, i, seen) => InReconcile(r, claim, id, stage, i, seen)
    case Relist(id, stage, i, seen) => InReconcile(r, claim, id, stage, i, seen)
    case VerifyUpload(id, stage, i, seen, k, info) =>
      && InReconcile(r, claim, id, stage, i, seen)
      && k < |r.releases[id].assets| && info == Info(r.releases[id].assets[k]) && info.name == claim.assets[i].file
    case Refresh(id) => Holds(r, claim, id) && Complete(r.releases[id].assets, claim)
    case Publish(id) => Holds(r, claim, id) && Complete(r.releases[id].assets, claim)
    case Confirm(id) => Holds(r, claim, id) && StageInv(r.releases[id], claim, After)
    case Finished(id) => Holds(r, claim, id) && StageInv(r.releases[id], claim, After)
  }

  ghost predicate Inv(w: World) {
    forall i :: 0 <= i < |w.publishers| ==>
      Formed(w.publishers[i].claim, w.publishers[i].uploads) && Known(w.remote, w.publishers[i].claim, w.publishers[i].pc)
  }

  // ---------------------------------------------------------------- how the remote may change

  /** At most one asset more, under a name that was free and that the tag's claim has. */
  ghost predicate AssetsGrow(refs: map<string, Ref>, version: string, assets: seq<Asset>, assets': seq<Asset>) {
    assets' == assets ||
    (|assets'| == |assets| + 1 && assets'[..|assets|] == assets && !NameTaken(assets, assets'[|assets|].name)
     && exists c :: TagIs(refs, c) && c.identity.version == version && Claimed(c, assets'[|assets|].name))
  }

  ghost predicate ReleaseGrows(refs: map<string, Ref>, a: Release, b: Release) {
    && b == a.(draft := b.draft, assets := b.assets) && (b.draft ==> a.draft)
    && AssetsGrow(refs, a.version, a.assets, b.assets)
  }

  ghost predicate Grows(r: Remote, r': Remote) {
    && (forall v :: v in r.refs ==> v in r'.refs && r'.refs[v] == r.refs[v])
    && |r.releases| <= |r'.releases|
    && forall id :: 0 <= id < |r.releases| ==> ReleaseGrows(r.refs, r.releases[id], r'.releases[id])
  }

  lemma OneClaim(refs: map<string, Ref>, c: Claim, d: Claim)
    requires TagIs(refs, c) && TagIs(refs, d) && c.identity.version == d.identity.version
    ensures c == d
  {
  }

  lemma CleanStays(refs: map<string, Ref>, claim: Claim, assets: seq<Asset>, assets': seq<Asset>)
    requires TagIs(refs, claim) && AssetsGrow(refs, claim.identity.version, assets, assets') && Clean(assets, claim)
    ensures Clean(assets', claim)
  {
    if assets' != assets {
      var n := |assets|;
      var c :| TagIs(refs, c) && c.identity.version == claim.identity.version && Claimed(c, assets'[n].name);
      OneClaim(refs, c, claim);
      var infos, infos' := Infos(assets), Infos(assets');
      forall k | 0 <= k < |infos'| ensures Claimed(claim, infos'[k].name) && (k < n ==> infos'[k] == infos[k]) {
        if k < n {
          assert assets'[k] == assets[k];
        }
      }
      forall i, j | 0 <= i < j < |infos'| ensures infos'[i].name != infos'[j].name {
        assert infos[i].name == assets[i].name;
      }
    }
  }

  lemma PresentStays(assets: seq<Asset>, assets': seq<Asset>, claim: Claim, n: nat)
    requires |assets| <= |assets'| && assets'[..|assets|] == assets && PresentUpTo(assets, claim, n)
    ensures PresentUpTo(assets', claim, n)
  {
    forall i | 0 <= i < n ensures Present(assets', claim.assets[i]) {
      assert Present(assets, claim.assets[i]);
      var k :| 0 <= k < |assets| && Good(assets[k], claim.assets[i]);
      assert assets'[k] == assets[k];
    }
  }

  lemma HoldsStays(r: Remote, r': Remote, claim: Claim, id: nat)
    requires Grows(r, r') && Holds(r, claim, id)
    ensures Holds(r', claim, id) && ReleaseGrows(r.refs, r.releases[id], r'.releases[id])
    ensures r.releases[id].version == claim.identity.version
  {
    assert ReleaseGrows(r.refs, r.releases[id], r'.releases[id]);
  }

  lemma StageStays(r: Remote, r': Remote, claim: Claim, id: nat, stage: Stage, i: nat)
    requires Grows(r, r') && Holds(r, claim, id) && StageInv(r.releases[id], claim, stage)
    ensures Holds(r', claim, id) && StageInv(r'.releases[id], claim, stage)
    ensures Clean(r.releases[id].assets, claim) ==> Clean(r'.releases[id].assets, claim)
    ensures PresentUpTo(r.releases[id].assets, claim, i) ==> PresentUpTo(r'.releases[id].assets, claim, i)
  {
    hide TagIs, ReleaseMatches, Clean;
    HoldsStays(r, r', claim, id);
    var assets, assets' := r.releases[id].assets, r'.releases[id].assets;
    if Clean(assets, claim) {
      CleanStays(r.refs, claim, assets, assets');
    }
    if PresentUpTo(assets, claim, i) {
      PresentStays(assets, assets', claim, i);
    }
    if !stage.Early? {
      PresentStays(assets, assets', claim, |claim.assets|);
    }
  }

  lemma ReconcileStays(r: Remote, r': Remote, claim: Claim, id: nat, stage: Stage, i: nat, seen: seq<AssetInfo>)
    requires Grows(r, r') && InReconcile(r, claim, id, stage, i, seen)
    ensures InReconcile(r', claim, id, stage, i, seen)
    ensures |r.releases[id].assets| <= |r'.releases[id].assets|
    ensures forall k :: 0 <= k < |r.releases[id].assets| ==> r'.releases[id].assets[k] == r.releases[id].assets[k]
  {
    hide TagIs, ReleaseMatches, Clean, StageInv, PresentUpTo;
    StageStays(r, r', claim, id, stage, i);
    HoldsStays(r, r', claim, id);
    var assets, assets' := r.releases[id].assets, r'.releases[id].assets;
    assert forall k :: 0 <= k < |assets| ==> assets'[k] == assets'[..|assets|][k];
  }

  /** What a publisher knows stays true whatever the others do. */
  lemma {:induction false} KnownStays(r: Remote, r': Remote, claim: Claim, pc: PC)
    requires Grows(r, r') && Known(r, claim, pc)
    ensures Known(r', claim, pc)
    decreases pc
  {
    hide Grows, Holds, StageInv, InReconcile, Complete;
    match pc {
      case RequireTag(next) =>
        TagStays(r, r', claim);
        KnownStays(r, r', claim, next);
      case ListReleases => TagStays(r, r', claim);
      case PostRelease => TagStays(r, r', claim);
      case ReadBack(id) => TagStays(r, r', claim);
      case ListAssets(id, stage) => StageStays(r, r', claim, id, stage, 0);
      case Reconcile(id, stage, i, seen) => ReconcileStays(r, r', claim, id, stage, i, seen);
      case Relist(id, stage, i, seen) => ReconcileStays(r, r', claim, id, stage, i, seen);
      case VerifyUpload(id, stage, i, seen, k, info) => ReconcileStays(r, r', claim, id, stage, i, seen);
      case Refresh(id) => CompleteStays(r, r', claim, id);
      case Publish(id) => CompleteStays(r, r', claim, id);
      case Confirm(id) => StageStays(r, r', claim, id, After, 0);
      case Finished(id) => StageStays(r, r', claim, id, After, 0);
      case _ =>
    }
  }

  lemma TagStays(r: Remote, r': Remote, claim: Claim)
    requires Grows(r, r') && TagIs(r.refs, claim)
    ensures TagIs(r'.refs, claim)
  {
  }

  lemma CompleteStays(r: Remote, r': Remote, claim: Claim, id: nat)
    requires Grows(r, r') && Holds(r, claim, id) && Complete(r.releases[id].assets, claim)
    ensures Holds(r', claim, id) && Complete(r'.releases[id].assets, claim)
  {
    StageStays(r, r', claim, id, Before, 0);
  }

  // ---------------------------------------------------------------- one call

  lemma Unchanged(r: Remote)
    ensures Grows(r, r)
  {
  }

  lemma RefAdded(r: Remote, version: string, ref: Ref)
    requires version !in r.refs
    ensures Grows(r, r.(refs := r.refs[version := ref]))
  {
    assert forall id :: 0 <= id < |r.releases| ==> ReleaseGrows(r.refs, r.releases[id], r.releases[id]);
  }

  lemma ReleaseAdded(r: Remote, release: Release)
    ensures Grows(r, r.(releases := r.releases + [release]))
  {
    assert forall id :: 0 <= id < |r.releases| ==> ReleaseGrows(r.refs, r.releases[id], (r.releases + [release])[id]);
  }

  lemma ReleaseChanged(r: Remote, id: nat, release: Release)
    requires id < |r.releases| && ReleaseGrows(r.refs, r.releases[id], release)
    ensures Grows(r, r.(releases := r.releases[id := release]))
  {
    hide ReleaseGrows;
    forall k | 0 <= k < |r.releases| ensures ReleaseGrows(r.refs, r.releases[k], r.releases[id := release][k]) {
      if k != id {
        NothingAdded(r.refs, r.releases[k]);
      }
    }
  }

  lemma NothingAdded(refs: map<string, Ref>, release: Release)
    ensures ReleaseGrows(refs, release, release)
  {
  }

  lemma UploadGrows(r: Remote, claim: Claim, id: nat, i: nat, asset: Asset)
    requires Holds(r, claim, id) && i < |claim.assets| && asset.name == claim.assets[i].file
    requires !NameTaken(r.releases[id].assets, asset.name)
    ensures Grows(r, WithAsset(r, id, asset))
  {
    var assets := r.releases[id].assets;
    assert (assets + [asset])[..|assets|] == assets;
    assert Claimed(claim, asset.name);
    ReleaseChanged(r, id, r.releases[id].(assets := assets + [asset]));
  }

  lemma ReconcileGrows(r: Remote, p: Publisher, pc: PC)
    requires Known(r, p.claim, pc) && pc.Reconcile? && p.pc == pc
    ensures Grows(r, Advance(r, p).0)
  {
    Unchanged(r);
    var c := ReconcileOne(r, p, pc.id, pc.stage, pc.i, pc.seen);
    if c.1.Relist? {
      UploadGrows(r, p.claim, pc.id, pc.i, c.0.releases[pc.id].assets[|r.releases[pc.id].assets|]);
    }
  }

  lemma AdvanceGrows(r: Remote, p: Publisher)
    requires Known(r, p.claim, p.pc)
    ensures Grows(r, Advance(r, p).0)
  {
    hide Grows, ReleaseGrows, ReconcileOne;
    Unchanged(r);
    match p.pc {
      case PostRef =>
        if p.claim.identity.version !in r.refs {
          RefAdded(r, p.claim.identity.version, Annotated(ClaimTag(p.claim)));
        }
      case PostRelease => ReleaseAdded(r, Draft(p.claim));
      case Reconcile(_, _, _, _) => ReconcileGrows(r, p, p.pc);
      case Publish(id) => UndraftGrows(r, id);
      case _ =>
    }
  }

  lemma UndraftGrows(r: Remote, id: nat)
    ensures Grows(r, Undraft(r, id).0)
  {
    Unchanged(r);
    if id < |r.releases| {
      ReleaseChanged(r, id, r.releases[id].(draft := false));
    }
  }

  // ---------------------------------------------------------------- what a call teaches the publisher

  /** The continuation of a reconciliation that has i assets behind it. */
  lemma NextIsKnown(r: Remote, claim: Claim, id: nat, stage: Stage, i: nat, seen: seq<AssetInfo>)
    requires Holds(r, claim, id) && StageInv(r.releases[id], claim, stage) && Clean(r.releases[id].assets, claim)
    requires PresentUpTo(r.releases[id].assets, claim, i) && Seen(r.releases[id].assets, seen)
    ensures Known(r, claim, NextAsset(claim, id, stage, i, seen))
  {
    hide TagIs, ReleaseMatches, Clean;
    var pc := NextAsset(claim, id, stage, i, seen);
    if i < |claim.assets| {
      assert InReconcile(r, claim, id, stage, i, seen);
    } else {
      match stage {
        case Early(_) => assert Known(r, claim, Refresh(id));
        case Before =>
        case After => assert Known(r, claim, Finished(id));
      }
    }
  }

  lemma ListIsKnown(r: Remote, p: Publisher, id: nat, stage: Stage)
    requires Holds(r, p.claim, id) && StageInv(r.releases[id], p.claim, stage)
    ensures Known(r, p.claim, ListReleaseAssets(r, p, id, stage))
  {
    hide Holds, StageInv;
    if ListReleaseAssets(r, p, id, stage) != Failed {
      NextIsKnown(r, p.claim, id, stage, 0, Infos(r.releases[id].assets));
    }
  }

  lemma OneMorePresent(assets: seq<Asset>, claim: Claim, i: nat, k: nat)
    requires PresentUpTo(assets, claim, i) && i < |claim.assets| && k < |assets| && Good(assets[k], claim.assets[i])
    ensures PresentUpTo(assets, claim, i + 1)
  {
    assert Present(assets, claim.assets[i]);
  }

  lemma ExistingIsKnown(r: Remote, claim: Claim, id: nat, stage: Stage, i: nat, seen: seq<AssetInfo>, k: nat)
    requires InReconcile(r, claim, id, stage, i, seen) && k < |seen| && seen[k].name == claim.assets[i].file
    requires Verified(r.releases[id].assets, k, seen[k], claim.assets[i])
    ensures Known(r, claim, NextAsset(claim, id, stage, i + 1, seen))
  {
    hide TagIs, ReleaseMatches, Clean, StageInv;
    OneMorePresent(r.releases[id].assets, claim, i, k);
    NextIsKnown(r, claim, id, stage, i + 1, seen);
  }

  lemma ReconcileIsKnown(r: Remote, p: Publisher)
    requires p.pc.Reconcile? && Known(r, p.claim, p.pc)
    ensures Known(Advance(r, p).0, p.claim, Advance(r, p).1.pc)
  {
    hide Grows, InReconcile;
    var Reconcile(id, stage, i, seen) := p.pc;
    var c := ReconcileOne(r, p, id, stage, i, seen);
    ReconcileGrows(r, p, p.pc);
    if c.1.Relist? {
      ReconcileStays(r, c.0, p.claim, id, stage, i, seen);
    } else if c.1 != Failed {
      var k := FindName(seen, p.claim.assets[i].file).value;
      ExistingIsKnown(r, p.claim, id, stage, i, seen, k);
    }
  }

  lemma UploadIsKnown(r: Remote, p: Publisher)
    requires p.pc.VerifyUpload? && Known(r, p.claim, p.pc)
    ensures Known(r, p.claim, VerifyUploaded(r, p, p.pc))
  {
    hide TagIs, ReleaseMatches, Clean, StageInv;
    var VerifyUpload(id, stage, i, seen, k, info) := p.pc;
    if VerifyUploaded(r, p, p.pc) != Failed {
      OneMorePresent(r.releases[id].assets, p.claim, i, k);
      NextIsKnown(r, p.claim, id, stage, i + 1, seen);
    }
  }

  lemma FindIsKnown(r: Remote, p: Publisher)
    requires TagIs(r.refs, p.claim)
    ensures Known(r, p.claim, FindRelease(r, p).pc)
  {
    hide ReleaseMatches, TagIs, Complete;
  }

  lemma ReadBackIsKnown(r: Remote, p: Publisher, id: nat)
    requires TagIs(r.refs, p.claim)
    ensures Known(r, p.claim, ReadBackRelease(r, p, id))
  {
    hide ReleaseMatches, TagIs, Complete;
  }

  lemma RelistIsKnown(r: Remote, p: Publisher)
    requires p.pc.Relist? && Known(r, p.claim, p.pc)
    ensures Known(r, p.claim, RelistAssets(r, p, p.pc.id, p.pc.stage, p.pc.i, p.pc.seen))
  {
    hide InReconcile;
  }

  lemma PublishIsKnown(r: Remote, p: Publisher)
    requires p.pc.Publish? && Known(r, p.claim, p.pc)
    ensures Known(Advance(r, p).0, p.claim, Advance(r, p).1.pc)
  {
    hide Grows, Complete;
    UndraftGrows(r, p.pc.id);
    CompleteStays(r, Undraft(r, p.pc.id).0, p.claim, p.pc.id);
  }

  lemma RefIsKnown(r: Remote, p: Publisher)
    requires p.pc.PostRef?
    ensures Known(Advance(r, p).0, p.claim, Advance(r, p).1.pc)
  {
    var c := CreateRef(r, p);
    if c.1 != Failed {
      assert Known(c.0, p.claim, ListReleases);
    }
  }

  /** What a call returns is enough for what its publisher goes on to rely on. */
  lemma AdvanceKeepsOwn(r: Remote, p: Publisher)
    requires Known(r, p.claim, p.pc)
    ensures Advance(r, p).1.claim == p.claim && Advance(r, p).1.uploads == p.uploads
    ensures Known(Advance(r, p).0, p.claim, Advance(r, p).1.pc)
  {
    hide Grows, ReconcileOne, InReconcile, Holds, RelistAssets, VerifyUploaded, ReadBackRelease, FindRelease, ListReleaseAssets, CreateRef, Undraft;
    match p.pc {
      case PostRef => RefIsKnown(r, p);
      case RequireTag(next) =>
      case ListReleases => FindIsKnown(r, p); FindKeeps(r, p);
      case PostRelease =>
      case ReadBack(id) => ReadBackIsKnown(r, p, id);
      case ListAssets(id, stage) => ListIsKnown(r, p, id, stage);
      case Reconcile(_, _, _, _) => ReconcileIsKnown(r, p);
      case Relist(_, _, _, _) => RelistIsKnown(r, p);
      case VerifyUpload(_, _, _, _, _, _) => UploadIsKnown(r, p);
      case Refresh(id) => RefreshIsKnown(r, p, id);
      case Publish(id) => PublishIsKnown(r, p);
      case Confirm(id) =>
      case _ =>
    }
  }

  lemma FindKeeps(r: Remote, p: Publisher)
    ensures FindRelease(r, p).claim == p.claim && FindRelease(r, p).uploads == p.uploads
  {
  }

  lemma RefreshIsKnown(r: Remote, p: Publisher, id: nat)
    requires Known(r, p.claim, Refresh(id))
    ensures Known(r, p.claim, RefreshRelease(r, p, id))
  {
    hide Complete;
  }

  // ---------------------------------------------------------------- every step

  lemma StepKeepsInv(w: World, l: Label, w': World)
    requires Inv(w) && Step(w, l, w')
    ensures Inv(w') && Grows(w.remote, w'.remote)
  {
    hide Grows, Known, Advance, Formed;
    Unchanged(w.remote);
    match l {
      case Join(p) => NewIsKnown(w.remote, p);
      case Stop(who) => StoppedIsKnown(w.remote, w.publishers[who]);
      case Go(who) =>
        var p := w.publishers[who];
        AdvanceGrows(w.remote, p);
        AdvanceKeepsOwn(w.remote, p);
        forall i | 0 <= i < |w.publishers| && i != who ensures Known(w'.remote, w.publishers[i].claim, w.publishers[i].pc) {
          KnownStays(w.remote, w'.remote, w.publishers[i].claim, w.publishers[i].pc);
        }
    }
  }

  lemma NewIsKnown(r: Remote, p: Publisher)
    requires p.pc == ReadTag
    ensures Known(r, p.claim, p.pc)
  {
  }

  lemma StoppedIsKnown(r: Remote, p: Publisher)
    ensures Known(r, p.claim, Failed)
  {
  }

  lemma {:induction false} RunKeepsInv(trace: seq<World>, labels: seq<Label>, i: nat)
    requires IsRun(trace, labels) && i < |trace|
    ensures Inv(trace[i])
    decreases i
  {
    hide Inv, Step;
    if i == 0 {
      EmptyInv(trace[0]);
    } else {
      RunKeepsInv(trace, labels, i - 1);
      StepKeepsInv(trace[i - 1], labels[i - 1], trace[i]);
    }
  }

  lemma EmptyInv(w: World)
    requires w.publishers == []
    ensures Inv(w)
  {
  }

  // ---------------------------------------------------------------- the promises

  /** The i-th call switches a release from draft to published. */
  ghost predicate Publishes(trace: seq<World>, labels: seq<Label>, i: nat, version: string, id: nat)
    requires IsRun(trace, labels) && i < |labels|
  {
    var l := labels[i];
    l.Go? && l.who < |trace[i].publishers|
    && trace[i].publishers[l.who].pc == Publish(id) && trace[i].publishers[l.who].claim.identity.version == version
  }

  /** A published release with exactly the assets of the claim that its tag carries. */
  ghost predicate Live(r: Remote, claim: Claim, id: nat) {
    Holds(r, claim, id) && StageInv(r.releases[id], claim, After)
  }

  lemma LiveStays(r: Remote, r': Remote, claim: Claim, id: nat)
    requires Grows(r, r') && Live(r, claim, id)
    ensures Live(r', claim, id) && r'.releases[id] == r.releases[id]
  {
    StageStays(r, r', claim, id, After, 0);
    HoldsStays(r, r', claim, id);
    CompleteCannotGrow(r.refs, claim, r.releases[id].assets, r'.releases[id].assets);
  }

  lemma ClaimedIsTaken(assets: seq<Asset>, claim: Claim, name: string)
    requires Complete(assets, claim) && Claimed(claim, name)
    ensures NameTaken(assets, name)
  {
    var i :| 0 <= i < |claim.assets| && claim.assets[i].file == name;
    assert Present(assets, claim.assets[i]);
    var k :| 0 <= k < |assets| && Good(assets[k], claim.assets[i]);
    assert assets[k].name == name;
  }

  lemma CompleteCannotGrow(refs: map<string, Ref>, claim: Claim, assets: seq<Asset>, assets': seq<Asset>)
    requires TagIs(refs, claim) && AssetsGrow(refs, claim.identity.version, assets, assets') && Complete(assets, claim)
    ensures assets' == assets
  {
    forall c | TagIs(refs, c) && c.identity.version == claim.identity.version ensures c == claim {
      OneClaim(refs, c, claim);
    }
    forall name: string | Claimed(claim, name) ensures NameTaken(assets, name) {
      ClaimedIsTaken(assets, claim, name);
    }
  }

  lemma {:induction false} RunGrows(trace: seq<World>, labels: seq<Label>, i: nat, j: nat, claim: Claim, id: nat)
    requires IsRun(trace, labels) && i <= j < |trace| && Live(trace[i].remote, claim, id)
    ensures Live(trace[j].remote, claim, id) && trace[j].remote.releases[id] == trace[i].remote.releases[id]
    decreases j
  {
    hide Inv, Step, Live, Grows;
    if i < j {
      RunGrows(trace, labels, i, j - 1, claim, id);
      RunKeepsInv(trace, labels, j - 1);
      StepKeepsInv(trace[j - 1], labels[j - 1], trace[j]);
      LiveStays(trace[j - 1].remote, trace[j].remote, claim, id);
    }
  }

  /** When a release is published it has exactly the assets of the claim in the tag, names and bytes;
      and nothing about it, not even which claim the tag carries, ever changes again. */
  lemma PublishedForGood(trace: seq<World>, labels: seq<Label>, i: nat, version: string, id: nat, j: nat)
    requires IsRun(trace, labels) && i < |labels| && Publishes(trace, labels, i, version, id) && i < j < |trace|
    ensures var claim := trace[i].publishers[labels[i].who].claim;
            && id < |trace[i].remote.releases| && Complete(trace[i].remote.releases[id].assets, claim)
            && Live(trace[j].remote, claim, id)
            && trace[j].remote.releases[id] == trace[i].remote.releases[id].(draft := false)
  {
    var w, claim := trace[i], trace[i].publishers[labels[i].who].claim;
    RunKeepsInv(trace, labels, i);
    PublishMakesLive(w, labels[i], trace[i + 1], id);
    RunGrows(trace, labels, i + 1, j, claim, id);
  }

  lemma PresentSpelledOut(assets: seq<Asset>, c: ClaimAsset)
    ensures Present(assets, c) <==>
            exists a :: a in assets && a.name == c.file && a.size == c.bytes && a.uploaded
                        && |a.data| == c.bytes && Sha256(a.data) == c.digest
  {
    if Present(assets, c) {
      var k :| 0 <= k < |assets| && Good(assets[k], c);
      assert assets[k] in assets;
    }
    if a :| a in assets && a.name == c.file && a.size == c.bytes && a.uploaded && |a.data| == c.bytes && Sha256(a.data) == c.digest {
      var k :| 0 <= k < |assets| && assets[k] == a;
      assert Good(assets[k], c);
    }
  }

  lemma ClaimedSpelledOut(claim: Claim, name: string)
    ensures Claimed(claim, name) <==> exists c :: c in claim.assets && c.file == name
  {
    if Claimed(claim, name) {
      var n :| 0 <= n < |claim.assets| && claim.assets[n].file == name;
      assert claim.assets[n] in claim.assets;
    }
  }

  lemma CleanSpelledOut(assets: seq<Asset>, claim: Claim)
    ensures Clean(assets, claim) <==>
            && (forall k, l :: 0 <= k < |assets| && 0 <= l < |assets| && assets[k].name == assets[l].name ==> k == l)
            && (forall a :: a in assets ==> exists c :: c in claim.assets && c.file == a.name)
  {
    var infos := Infos(assets);
    assert forall k :: 0 <= k < |assets| ==> infos[k].name == assets[k].name;
    forall k | 0 <= k < |assets| ensures Claimed(claim, infos[k].name) <==> exists c :: c in claim.assets && c.file == assets[k].name {
      ClaimedSpelledOut(claim, assets[k].name);
    }
    hide Claimed, Infos, Info;
    assert forall k :: 0 <= k < |assets| ==> assets[k] in assets;
  }

  /** What is complete has every claimed asset once, uploaded, with the claimed length and digest, and no
      other. */
  lemma CompleteSpelledOut(assets: seq<Asset>, claim: Claim)
    ensures Complete(assets, claim) <==>
            && (forall c :: c in claim.assets ==>
                  exists a :: a in assets && a.name == c.file && a.size == c.bytes && a.uploaded
                              && |a.data| == c.bytes && Sha256(a.data) == c.digest)
            && (forall k, l :: 0 <= k < |assets| && 0 <= l < |assets| && assets[k].name == assets[l].name ==> k == l)
            && (forall a :: a in assets ==> exists c :: c in claim.assets && c.file == a.name)
  {
    CleanSpelledOut(assets, claim);
    hide Clean, Present;
    forall c | c in claim.assets
      ensures Present(assets, c) <==> exists a :: a in assets && a.name == c.file && a.size == c.bytes && a.uploaded
                                                  && |a.data| == c.bytes && Sha256(a.data) == c.digest
    {
      PresentSpelledOut(assets, c);
    }
    assert forall i :: 0 <= i < |claim.assets| ==> claim.assets[i] in claim.assets;
  }

  /** Field by field and byte by byte: what a run takes out of draft is the release of the claim's version
      with exactly one asset for every one claimed, of the claimed length and digest, and none besides,
      under the tag that carries the claim, then and for good. */
  lemma PublishedBytes(trace: seq<World>, labels: seq<Label>, i: nat, version: string, id: nat, j: nat)
      returns (claim: Claim, assets: seq<Asset>)
    requires IsRun(trace, labels) && i < |labels| && Publishes(trace, labels, i, version, id) && i < j < |trace|
    ensures claim == trace[i].publishers[labels[i].who].claim && claim.identity.version == version
    ensures version in trace[j].remote.refs && trace[j].remote.refs[version] == Annotated(TagObject(version, claim.identity.source, Ours(claim)))
    ensures id < |trace[j].remote.releases|
    ensures trace[j].remote.releases[id]
         == Release(version, claim.identity.source, "VIDA Agent v" + version, DigestOf(claim), false, false, assets)
    ensures (
            && (forall c :: c in claim.assets ==>
                  exists a :: a in assets && a.name == c.file && a.size == c.bytes && a.uploaded
                              && |a.data| == c.bytes && Sha256(a.data) == c.digest)
            && (forall k, l :: 0 <= k < |assets| && 0 <= l < |assets| && assets[k].name == assets[l].name ==> k == l)
            && (forall a :: a in assets ==> exists c :: c in claim.assets && c.file == a.name)
            )
  {
    PublishedForGood(trace, labels, i, version, id, j);
    claim, assets := trace[i].publishers[labels[i].who].claim, trace[j].remote.releases[id].assets;
    hide Complete, IsRun;
    CompleteSpelledOut(assets, claim);
  }

  lemma PublishMakesLive(w: World, l: Label, w': World, id: nat)
    requires Inv(w) && Step(w, l, w') && l.Go? && w.publishers[l.who].pc == Publish(id)
    ensures id < |w.remote.releases| && Complete(w.remote.releases[id].assets, w.publishers[l.who].claim)
    ensures Live(w'.remote, w.publishers[l.who].claim, id)
    ensures w'.remote.releases[id] == w.remote.releases[id].(draft := false)
  {
    var p := w.publishers[l.who];
    assert Known(w.remote, p.claim, p.pc);
    PublishIsKnown(w.remote, p);
  }

  /** However the publishers interleave and crash, a version is published under one claim only. */
  lemma OneClaimPublished(trace: seq<World>, labels: seq<Label>, i: nat, j: nat, version: string, id: nat, id': nat)
    requires IsRun(trace, labels) && i < |labels| && j < |labels|
    requires Publishes(trace, labels, i, version, id) && Publishes(trace, labels, j, version, id')
    ensures trace[i].publishers[labels[i].who].claim == trace[j].publishers[labels[j].who].claim
  {
    PublishedForGood(trace, labels, i, version, id, |labels|);
    PublishedForGood(trace, labels, j, version, id', |labels|);
    OneClaim(trace[|labels|].remote.refs, trace[i].publishers[labels[i].who].claim, trace[j].publishers[labels[j].who].claim);
  }

  /** Every receipt of a version names the same claim, and the release it names is published with exactly
      that claim's assets. */
  lemma ReceiptsAgree(trace: seq<World>, labels: seq<Label>, i: nat, a: nat, b: nat, id: nat, id': nat)
    requires IsRun(trace, labels) && i < |trace| && a < |trace[i].publishers| && b < |trace[i].publishers|
    requires trace[i].publishers[a].pc == Finished(id) && trace[i].publishers[b].pc == Finished(id')
    requires trace[i].publishers[a].claim.identity.version == trace[i].publishers[b].claim.identity.version
    ensures Live(trace[i].remote, trace[i].publishers[a].claim, id)
    ensures trace[i].publishers[a].claim == trace[i].publishers[b].claim
    ensures ListsInView(trace, labels, trace[i].publishers[a].claim.identity.version) ==> id == id'
  {
    hide ListsInView;
    RunKeepsInv(trace, labels, i);
    var p, q := trace[i].publishers[a], trace[i].publishers[b];
    assert Known(trace[i].remote, p.claim, p.pc) && Known(trace[i].remote, q.claim, q.pc);
    OneClaim(trace[i].remote.refs, p.claim, q.claim);
    if ListsInView(trace, labels, p.claim.identity.version) {
      RunKeepsSole(trace, labels, i, p.claim.identity.version);
      SoleIsOne(trace[i], p.claim.identity.version, a, b);
    }
  }

  // ---------------------------------------------------------------- one release per version

  predicate Published(r: Remote, version: string, id: nat) {
    id < |r.releases| && r.releases[id].version == version && !r.releases[id].draft
  }

  /** At most one release of the version is out of draft. */
  ghost predicate OneLive(r: Remote, version: string) {
    forall a: nat, b: nat :: Published(r, version, a) && Published(r, version, b) ==> a == b
  }

  /** The page that is listed has every release of the version. */
  predicate InView(releases: seq<Release>, version: string) {
    forall k :: 0 <= k < PageStart(releases) ==> releases[k].version != version
  }

  predicate Lists(pc: PC) { pc.ListReleases? || pc.ReadBack? }

  /** If the call lists releases for a publisher of the version, the page has them all. */
  predicate CallInView(w: World, l: Label, version: string) {
    l.Go? && l.who < |w.publishers| && w.publishers[l.who].claim.identity.version == version && Lists(w.publishers[l.who].pc) ==>
      InView(w.remote.releases, version)
  }

  /** Whenever a publisher of the version lists its releases it sees all there are. */
  ghost predicate ListsInView(trace: seq<World>, labels: seq<Label>, version: string) {
    forall i :: 0 <= i < |labels| && i < |trace| ==> CallInView(trace[i], labels[i], version)
  }

  /** The release a publisher has found or made, once it has it listed. */
  function Held(pc: PC): Option<nat>
    decreases pc
  {
    match pc
    case RequireTag(next) => Held(next)
    case ListAssets(id, _) => Some(id)
    case Reconcile(id, _, _, _) => Some(id)
    case Relist(id, _, _, _) => Some(id)
    case VerifyUpload(id, _, _, _, _, _) => Some(id)
    case Refresh(id) => Some(id)
    case Publish(id) => Some(id)
    case Confirm(id) => Some(id)
    case Finished(id) => Some(id)
    case _ => None
  }

  predicate First(releases: seq<Release>, version: string, id: nat) {
    id < |releases| && releases[id].version == version && forall k :: 0 <= k < id ==> releases[k].version != version
  }

  /** The first release of its version, and the only one that may be out of draft. */
  predicate Sole(r: Remote, version: string, id: nat) {
    First(r.releases, version, id) && forall k :: id < k < |r.releases| && r.releases[k].version == version ==> r.releases[k].draft
  }

  ghost predicate SoleInv(w: World, version: string) {
    forall i :: 0 <= i < |w.publishers| && w.publishers[i].claim.identity.version == version && Held(w.publishers[i].pc).Some? ==>
      Sole(w.remote, version, Held(w.publishers[i].pc).value)
  }

  lemma SoleIsOne(w: World, version: string, a: nat, b: nat)
    requires SoleInv(w, version) && a < |w.publishers| && b < |w.publishers|
    requires w.publishers[a].claim.identity.version == version == w.publishers[b].claim.identity.version
    requires Held(w.publishers[a].pc).Some? && Held(w.publishers[b].pc).Some?
    ensures Held(w.publishers[a].pc) == Held(w.publishers[b].pc)
  {
    var i, j := Held(w.publishers[a].pc).value, Held(w.publishers[b].pc).value;
    assert First(w.remote.releases, version, i) && First(w.remote.releases, version, j);
  }

  /** All that is listed in view is all there is. */
  lemma ListedIsSole(r: Remote, version: string, id: nat)
    requires Listed(r.releases, version) == [id] && InView(r.releases, version)
    ensures Sole(r, version, id)
  {
    var listed := Listed(r.releases, version);
    assert listed[0] == id && id in listed;
    forall k | 0 <= k < |r.releases| && k != id ensures r.releases[k].version != version {
      assert k !in listed;
    }
  }

  /** What a call does to the drafts: new releases are drafts, and the only one taken out of draft is the
      one the caller is publishing. */
  lemma DraftsAfterCall(r: Remote, p: Publisher)
    ensures |r.releases| <= |Advance(r, p).0.releases|
    ensures forall k :: 0 <= k < |r.releases| ==>
              && Advance(r, p).0.releases[k].version == r.releases[k].version
              && (Advance(r, p).0.releases[k].draft <==> r.releases[k].draft && p.pc != Publish(k))
    ensures forall k :: |r.releases| <= k < |Advance(r, p).0.releases| ==> Advance(r, p).0.releases[k].draft
  {
  }

  lemma SoleStays(r: Remote, p: Publisher, version: string, id: nat)
    requires Sole(r, version, id)
    requires p.pc.Publish? && p.pc.id < |r.releases| && r.releases[p.pc.id].version == version ==> p.pc.id == id
    ensures Sole(Advance(r, p).0, version, id)
  {
    hide Advance;
    DraftsAfterCall(r, p);
  }

  lemma HeldBefore(r: Remote, p: Publisher)
    requires !Lists(p.pc) && Held(Advance(r, p).1.pc).Some?
    ensures Held(p.pc) == Held(Advance(r, p).1.pc)
  {
    hide FindName, Listed, UploadFits, ReleaseMatches, NamesOk, OnlyClaimed;
  }

  lemma HeldByListing(r: Remote, p: Publisher)
    requires Lists(p.pc) && Held(Advance(r, p).1.pc).Some?
    ensures Advance(r, p).0 == r
    ensures Listed(r.releases, p.claim.identity.version) == [Held(Advance(r, p).1.pc).value]
  {
    hide ReleaseMatches, Listed;
  }

  lemma StepKeepsSole(w: World, l: Label, w': World, version: string)
    requires Inv(w) && SoleInv(w, version) && Step(w, l, w')
    requires CallInView(w, l, version)
    ensures SoleInv(w', version) && (OneLive(w.remote, version) ==> OneLive(w'.remote, version))
  {
    hide Inv, Advance, Sole, OneLive, InView;
    if l.Go? {
      var p := w.publishers[l.who];
      ClaimKept(w, l.who);
      PublishingIsSole(w, l.who, version);
      forall i | 0 <= i < |w'.publishers| && w'.publishers[i].claim.identity.version == version && Held(w'.publishers[i].pc).Some?
        ensures Sole(w'.remote, version, Held(w'.publishers[i].pc).value)
      {
        if i == l.who && Lists(p.pc) {
          HeldByListing(w.remote, p);
          ListedIsSole(w.remote, version, Held(w'.publishers[i].pc).value);
        } else {
          if i == l.who {
            HeldBefore(w.remote, p);
          }
          PublishingIsHeld(w, l.who, i, version);
          SoleStays(w.remote, p, version, Held(w.publishers[i].pc).value);
        }
      }
    }
  }

  lemma ClaimKept(w: World, who: nat)
    requires Inv(w) && who < |w.publishers|
    ensures Advance(w.remote, w.publishers[who]).1.claim == w.publishers[who].claim
  {
    AdvanceKeepsOwn(w.remote, w.publishers[who]);
  }

  /** Whoever publishes a release of the version publishes the one that others hold. */
  lemma PublishingIsHeld(w: World, who: nat, i: nat, version: string)
    requires Inv(w) && SoleInv(w, version) && who < |w.publishers| && i < |w.publishers|
    requires w.publishers[i].claim.identity.version == version && Held(w.publishers[i].pc).Some?
    ensures var pc := w.publishers[who].pc;
            pc.Publish? && pc.id < |w.remote.releases| && w.remote.releases[pc.id].version == version ==>
              pc.id == Held(w.publishers[i].pc).value
  {
    var p := w.publishers[who];
    assert Known(w.remote, p.claim, p.pc);
    if p.pc.Publish? && p.pc.id < |w.remote.releases| && w.remote.releases[p.pc.id].version == version {
      SoleIsOne(w, version, who, i);
    }
  }

  lemma PublishingIsSole(w: World, who: nat, version: string)
    requires Inv(w) && SoleInv(w, version) && who < |w.publishers|
    ensures OneLive(w.remote, version) ==> OneLive(Advance(w.remote, w.publishers[who]).0, version)
  {
    hide Advance;
    var r, p := w.remote, w.publishers[who];
    assert Known(r, p.claim, p.pc);
    DraftsAfterCall(r, p);
    var r' := Advance(r, p).0;
    forall a: nat, b: nat | OneLive(r, version) && Published(r', version, a) && Published(r', version, b) ensures a == b {
      assert Published(r, version, a) || p.pc == Publish(a);
      assert Published(r, version, b) || p.pc == Publish(b);
    }
  }

  lemma {:induction false} RunKeepsSole(trace: seq<World>, labels: seq<Label>, i: nat, version: string)
    requires IsRun(trace, labels) && i < |trace| && ListsInView(trace, labels, version)
    ensures SoleInv(trace[i], version) && (OneLive(trace[0].remote, version) ==> OneLive(trace[i].remote, version))
    decreases i
  {
    hide Inv, Step, SoleInv, OneLive, CallInView;
    if i == 0 {
      NobodyHolds(trace[0], version);
    } else {
      RunKeepsSole(trace, labels, i - 1, version);
      RunKeepsInv(trace, labels, i - 1);
      StepKeepsSole(trace[i - 1], labels[i - 1], trace[i], version);
    }
  }

  lemma NobodyHolds(w: World, version: string)
    requires w.publishers == []
    ensures SoleInv(w, version)
  {
  }

  /** As long as its publishers list pages that have all its releases, no two different releases of a
      version are ever published. */
  lemma OnePublication(trace: seq<World>, labels: seq<Label>, i: nat, j: nat, version: string, id: nat, id': nat)
    requires IsRun(trace, labels) && i < |labels| && j < |labels| && ListsInView(trace, labels, version)
    requires Publishes(trace, labels, i, version, id) && Publishes(trace, labels, j, version, id')
    ensures id == id'
  {
    hide Inv, Live, ListsInView;
    FirstAtLast(trace, labels, i, version, id);
    FirstAtLast(trace, labels, j, version, id');
  }

  lemma FirstAtLast(trace: seq<World>, labels: seq<Label>, i: nat, version: string, id: nat)
    requires IsRun(trace, labels) && i < |labels| && ListsInView(trace, labels, version) && Publishes(trace, labels, i, version, id)
    ensures First(trace[|labels|].remote.releases, version, id)
  {
    hide ListsInView, Step;
    RunKeepsSole(trace, labels, i, version);
    FirstFrom(trace, labels, i, |labels|, version, id);
  }

  lemma {:induction false} FirstFrom(trace: seq<World>, labels: seq<Label>, i: nat, j: nat, version: string, id: nat)
    requires IsRun(trace, labels) && i <= j < |trace| && First(trace[i].remote.releases, version, id)
    ensures First(trace[j].remote.releases, version, id)
    decreases j
  {
    hide Step, First;
    if i < j {
      FirstFrom(trace, labels, i, j - 1, version, id);
      FirstStays(trace[j - 1], labels[j - 1], trace[j], version, id);
    }
  }

  lemma FirstStays(w: World, l: Label, w': World, version: string, id: nat)
    requires Step(w, l, w') && First(w.remote.releases, version, id)
    ensures First(w'.remote.releases, version, id)
  {
    hide Advance;
    if l.Go? {
      DraftsAfterCall(w.remote, w.publishers[l.who]);
    }
  }

  /** And as long as they do, at most one release of the version is out of draft if that was so before
      the first of them came. */
  lemma AtMostOneLive(trace: seq<World>, labels: seq<Label>, i: nat, version: string)
    requires IsRun(trace, labels) && i < |trace| && ListsInView(trace, labels, version) && OneLive(trace[0].remote, version)
    ensures OneLive(trace[i].remote, version)
  {
    hide SoleInv, ListsInView, OneLive;
    RunKeepsSole(trace, labels, i, version);
  }

  lemma ViewShrinks(w: World, l: Label, w': World, version: string)
    requires Step(w, l, w') && InView(w'.remote.releases, version)
    ensures InView(w.remote.releases, version)
  {
    hide Advance;
    if l.Go? {
      DraftsAfterCall(w.remote, w.publishers[l.who]);
    }
    forall k | 0 <= k < PageStart(w.remote.releases) ensures w.remote.releases[k].version != version {
      assert w'.remote.releases[k].version != version;
    }
  }

  /** A page that still has all releases of the version in the end had them all along. */
  lemma {:induction false} InViewAtTheEnd(trace: seq<World>, labels: seq<Label>, version: string)
    requires IsRun(trace, labels) && InView(trace[|labels|].remote.releases, version)
    ensures ListsInView(trace, labels, version)
    decreases |labels|
  {
    hide Step, InView;
    var n := |labels|;
    if n > 0 {
      ViewShrinks(trace[n - 1], labels[n - 1], trace[n], version);
      var front, steps := trace[..n], labels[..n - 1];
      assert forall i :: 0 <= i < |steps| ==> Step(front[i], steps[i], front[i + 1]);
      InViewAtTheEnd(front, steps, version);
      forall i | 0 <= i < n ensures CallInView(trace[i], labels[i], version) {
        if i < n - 1 {
          assert CallInView(front[i], steps[i], version);
        }
      }
    }
  }
}
