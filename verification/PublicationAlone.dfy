/** One publisher at a time: exactly when its run gets the release published, from whatever remote the
    runs before it left. */
module PublicationAlone {
  import opened Collections
  import opened Outcomes
  import opened PublicationModel
  import opened PublicationSafety

  // ---------------------------------------------------------------- from which remotes a publisher gets through

  /** No asset a publisher would have to take over has other bytes than the claim's. */
  predicate AssetsFit(assets: seq<Asset>, claim: Claim) {
    forall k, i :: 0 <= k < |assets| && 0 <= i < |claim.assets| && assets[k].name == claim.assets[i].file ==> Good(assets[k], claim.assets[i])
  }

  predicate ReleaseReady(release: Release, claim: Claim) {
    && ReleaseMatches(release, claim) && Clean(release.assets, claim) && AssetsFit(release.assets, claim)
    && (!release.draft ==> PresentUpTo(release.assets, claim, |claim.assets|))
  }

  /** The tag is free or the claim's; at most one release of the version is listed, made for the claim,
      with none but fitting assets, and with all of them if it is no draft. */
  predicate Ready(r: Remote, claim: Claim) {
    var listed := Listed(r.releases, claim.identity.version);
    && (claim.identity.version in r.refs ==> TagIs(r.refs, claim))
    && |listed| <= 1
    && (|listed| == 1 ==> ReleaseReady(r.releases[listed[0]], claim))
  }

  /** Every release of the version that the page does not show is a draft. */
  predicate HiddenAreDrafts(releases: seq<Release>, version: string) {
    forall k :: 0 <= k < PageStart(releases) && releases[k].version == version ==> releases[k].draft
  }

  predicate Alone(r: Remote, claim: Claim, id: nat) {
    && TagIs(r.refs, claim) && Listed(r.releases, claim.identity.version) == [id]
    && id < |r.releases| && ReleaseMatches(r.releases[id], claim)
  }

  /** Published already: what a rerun finds. */
  predicate Out(r: Remote, claim: Claim, id: nat) {
    Alone(r, claim, id) && !r.releases[id].draft && Complete(r.releases[id].assets, claim)
  }

  predicate StageFits(release: Release, claim: Claim, stage: Stage) {
    match stage
    case Early(draft) => release.draft == draft
    case Before => release.draft && Complete(release.assets, claim)
    case After => !release.draft && Complete(release.assets, claim)
  }

  predicate AmongFirst(claim: Claim, n: nat, name: string) {
    exists j :: 0 <= j < n && j < |claim.assets| && claim.assets[j].file == name
  }

  /** What was not there when the assets were listed, this publisher uploaded since. */
  predicate OwnUploads(assets: seq<Asset>, seen: seq<AssetInfo>, claim: Claim, n: nat) {
    n <= |claim.assets|
    && forall k :: |seen| <= k < |assets| ==> AmongFirst(claim, n, assets[k].name)
  }

  predicate InOwnReconcile(r: Remote, claim: Claim, id: nat, stage: Stage, i: nat, seen: seq<AssetInfo>, n: nat) {
    && Alone(r, claim, id) && StageFits(r.releases[id], claim, stage) && Clean(r.releases[id].assets, claim)
    && i < |claim.assets| && PresentUpTo(r.releases[id].assets, claim, i) && Seen(r.releases[id].assets, seen)
    && OwnUploads(r.releases[id].assets, seen, claim, n)
  }

  predicate Uploaded(assets: seq<Asset>, claim: Claim, i: nat) {
    i < |claim.assets| && |assets| > 0 && Good(assets[|assets| - 1], claim.assets[i])
  }

  predicate KnownAlone(r: Remote, claim: Claim, pc: PC)
    decreases pc
  {
    match pc
    case ReadTag | RereadTag | Failed => true
    case PostTag | PostRef => claim.identity.version !in r.refs
    case RequireTag(next) => TagIs(r.refs, claim) && next != Failed && KnownAlone(r, claim, next)
    case ListReleases => TagIs(r.refs, claim)
    case PostRelease => TagIs(r.refs, claim) && Listed(r.releases, claim.identity.version) == []
    case ReadBack(id) => Alone(r, claim, id) && r.releases[id] == PublicationModel.Draft(claim)
    case ListAssets(id, stage) => Alone(r, claim, id) && StageFits(r.releases[id], claim, stage)
    case Reconcile(id, stage, i, seen) => InOwnReconcile(r, claim, id, stage, i, seen, i)
    case Relist(id, stage, i, seen) =>
      InOwnReconcile(r, claim, id, stage, i, seen, i + 1) && Uploaded(r.releases[id].assets, claim, i)
    case VerifyUpload(id, stage, i, seen, k, info) =>
      && InOwnReconcile(r, claim, id, stage, i, seen, i + 1) && Uploaded(r.releases[id].assets, claim, i)
      && k == |r.releases[id].assets| - 1 && info == Info(r.releases[id].assets[k])
    case Refresh(id) => Alone(r, claim, id) && Complete(r.releases[id].assets, claim)
    case Publish(id) => Alone(r, claim, id) && Complete(r.releases[id].assets, claim) && r.releases[id].draft
    case Confirm(id) => Out(r, claim, id)
    case Finished(id) => Out(r, claim, id)
  }

  // ---------------------------------------------------------------- lists

  lemma {:induction false} MatchingSame(a: seq<Release>, b: seq<Release>, version: string, lo: nat, hi: nat)
    requires lo <= hi <= |a| && hi <= |b| && forall k :: lo <= k < hi ==> a[k].version == b[k].version
    ensures Matching(a, version, lo, hi) == Matching(b, version, lo, hi)
    decreases hi - lo
  {
    if lo < hi {
      MatchingSame(a, b, version, lo, hi - 1);
    }
  }

  lemma ListedAfterUpdate(releases: seq<Release>, id: nat, release: Release, version: string)
    requires id < |releases| && release.version == releases[id].version
    ensures Listed(releases[id := release], version) == Listed(releases, version)
  {
    MatchingSame(releases, releases[id := release], version, PageStart(releases), |releases|);
  }

  lemma ListedAfterCreate(releases: seq<Release>, release: Release)
    requires Listed(releases, release.version) == []
    ensures Listed(releases + [release], release.version) == [|releases|]
  {
    var after := releases + [release];
    var lo, n := PageStart(after), |releases|;
    NoneListed(releases, release.version);
    hide Listed;
    assert forall k :: lo <= k < n ==> after[k] == releases[k];
    MatchingNone(after, release.version, lo, n);
    assert after[n] == release;
    OneMatching(after, release.version, lo);
  }

  lemma NoneListed(releases: seq<Release>, version: string)
    requires Listed(releases, version) == []
    ensures forall k :: PageStart(releases) <= k < |releases| ==> releases[k].version != version
  {
    forall k | PageStart(releases) <= k < |releases| ensures releases[k].version != version {
      assert k !in Listed(releases, version);
    }
  }

  lemma OneMatching(releases: seq<Release>, version: string, lo: nat)
    requires lo == PageStart(releases) && |releases| > 0 && releases[|releases| - 1].version == version
    requires Matching(releases, version, lo, |releases| - 1) == []
    ensures Listed(releases, version) == [|releases| - 1]
  {
  }

  lemma {:induction false} MatchingNone(releases: seq<Release>, version: string, lo: nat, hi: nat)
    requires lo <= hi <= |releases| && forall k :: lo <= k < hi ==> releases[k].version != version
    ensures Matching(releases, version, lo, hi) == []
    decreases hi - lo
  {
    if lo < hi {
      MatchingNone(releases, version, lo, hi - 1);
      assert Matching(releases, version, lo, hi) == Matching(releases, version, lo, hi - 1) + [];
    }
  }

  lemma HiddenAfterUpdate(releases: seq<Release>, id: nat, release: Release, version: string)
    requires OnPage(releases, id)
    ensures HiddenAreDrafts(releases[id := release], version) <==> HiddenAreDrafts(releases, version)
  {
    assert forall k :: 0 <= k < PageStart(releases) ==> releases[id := release][k] == releases[k];
  }

  lemma HiddenAfterCreate(releases: seq<Release>, release: Release)
    requires Listed(releases, release.version) == []
    ensures HiddenAreDrafts(releases + [release], release.version) <==> HiddenAreDrafts(releases, release.version)
  {
    var after := releases + [release];
    assert forall k :: PageStart(releases) <= k < |releases| ==> k !in Listed(releases, release.version);
    assert forall k :: 0 <= k < |releases| ==> after[k] == releases[k];
    assert PageStart(releases) <= PageStart(after) <= |releases|;
  }

  lemma ReadyAlone(r: Remote, claim: Claim, id: nat)
    requires Alone(r, claim, id)
    ensures Ready(r, claim) <==> ReleaseReady(r.releases[id], claim)
  {
  }

  /** A clean list of assets fits a page: it has no more names than the claim. */
  lemma CleanFitsPage(assets: seq<Asset>, claim: Claim)
    requires ValidClaim(claim) && Clean(assets, claim)
    ensures |assets| <= PAGE
  {
    var names := seq(|assets|, k requires 0 <= k < |assets| => assets[k].name);
    var files := seq(|claim.assets|, i requires 0 <= i < |claim.assets| => claim.assets[i].file);
    var infos := Infos(assets);
    forall i, j | 0 <= i < j < |names| ensures names[i] != names[j] {
      assert infos[i].name != infos[j].name;
    }
    SizeOfDistinct(names);
    SizeOfDistinct(files);
    forall n | n in names ensures n in files {
      var k :| 0 <= k < |names| && names[k] == n;
      assert Claimed(claim, infos[k].name);
      var i :| 0 <= i < |claim.assets| && claim.assets[i].file == n;
      assert files[i] == n;
    }
    SubsetSize(Members(names), Members(files));
  }

  // ---------------------------------------------------------------- readiness, field by field

  /** Which claims and uploads a publisher starts with: one to sixteen assets of different names, and for
      each of them bytes of the claimed length and digest. */
  lemma FormedIff(claim: Claim, uploads: map<string, Data>)
    ensures Formed(claim, uploads) <==>
            && 0 < |claim.assets| < 17
            && (forall i, j | 0 <= i < |claim.assets| && 0 <= j < |claim.assets| ::
                  claim.assets[i].file == claim.assets[j].file ==> i == j)
            && (forall a :: a in claim.assets ==>
                  a.file in uploads && |uploads[a.file]| == a.bytes && a.digest == Sha256(uploads[a.file]))
  {
    assert DistinctFiles(claim.assets) ==>
        forall i, j | 0 <= i < |claim.assets| && 0 <= j < |claim.assets| ::
          claim.assets[i].file == claim.assets[j].file ==> !(i < j) && !(j < i);
  }

  lemma {:induction false} MatchingCounts(releases: seq<Release>, version: string, lo: nat, hi: nat)
    requires lo <= hi <= |releases|
    ensures |Matching(releases, version, lo, hi)| <= 1 <==>
            forall k, l :: lo <= k < hi && lo <= l < hi && releases[k].version == version && releases[l].version == version ==> k == l
    decreases hi - lo
  {
    if lo < hi {
      MatchingCounts(releases, version, lo, hi - 1);
      var before := Matching(releases, version, lo, hi - 1);
      if releases[hi - 1].version == version && before != [] {
        assert before[0] != hi - 1;
      }
    }
  }

  lemma AssetsFitSpelledOut(assets: seq<Asset>, claim: Claim)
    requires ValidClaim(claim) && Clean(assets, claim)
    ensures AssetsFit(assets, claim) <==>
            forall a :: a in assets ==> exists c :: c in claim.assets && c.file == a.name && a.size == c.bytes && a.uploaded
                                                    && |a.data| == c.bytes && Sha256(a.data) == c.digest
  {
  }

  lemma AllPresentSpelledOut(assets: seq<Asset>, claim: Claim)
    requires AssetsFit(assets, claim)
    ensures PresentUpTo(assets, claim, |claim.assets|) <==>
            forall c :: c in claim.assets ==> exists a :: a in assets && a.name == c.file
  {
    if forall c :: c in claim.assets ==> exists a :: a in assets && a.name == c.file {
      forall i | 0 <= i < |claim.assets| ensures Present(assets, claim.assets[i]) {
        assert claim.assets[i] in claim.assets;
        var a :| a in assets && a.name == claim.assets[i].file;
        var k :| 0 <= k < |assets| && assets[k] == a;
        assert Good(assets[k], claim.assets[i]);
      }
    }
    forall c | c in claim.assets && PresentUpTo(assets, claim, |claim.assets|)
      ensures exists a :: a in assets && a.name == c.file
    {
      var i :| 0 <= i < |claim.assets| && claim.assets[i] == c;
      assert Present(assets, claim.assets[i]);
      PresentSpelledOut(assets, c);
    }
  }

  /** The claim's release, whatever its assets and whether or not it is a draft. */
  predicate ClaimsOwn(release: Release, claim: Claim) {
    release == Release(claim.identity.version, claim.identity.source, "VIDA Agent v" + claim.identity.version,
                       DigestOf(claim), false, release.draft, release.assets)
  }

  /** What makes one listed release publishable: it is the claim's own, with none but claimed assets, none
      twice, each with the claimed bytes, and out of draft only with none missing. */
  ghost predicate Publishable(release: Release, claim: Claim) {
    && ClaimsOwn(release, claim)
    && (forall k, l | 0 <= k < |release.assets| && 0 <= l < |release.assets| ::
          release.assets[k].name == release.assets[l].name ==> k == l)
    && (forall a :: a in release.assets ==>
          exists c :: c in claim.assets && c.file == a.name && a.size == c.bytes && a.uploaded
                      && |a.data| == c.bytes && Sha256(a.data) == c.digest)
    && (release.draft || forall c :: c in claim.assets ==> exists a :: a in release.assets && a.name == c.file)
  }

  lemma ReleaseReadySpelledOut(release: Release, claim: Claim)
    requires ValidClaim(claim)
    ensures ReleaseReady(release, claim) <==> Publishable(release, claim)
  {
    CleanSpelledOut(release.assets, claim);
    if Clean(release.assets, claim) {
      AssetsFitSpelledOut(release.assets, claim);
      if AssetsFit(release.assets, claim) {
        AllPresentSpelledOut(release.assets, claim);
      }
    }
    hide Clean, AssetsFit, PresentUpTo, ValidClaim;
  }

  /** From which remotes a lone publisher gets through: the version is free or tagged with the claim; of the
      newest hundred releases at most one is of the version; and that one is publishable. */
  lemma ReadyIff(r: Remote, claim: Claim)
    requires ValidClaim(claim)
    ensures Ready(r, claim) <==>
            var version, first := claim.identity.version, |r.releases| - 100;
            && (version in r.refs ==> r.refs[version] == Annotated(TagObject(version, claim.identity.source, Ours(claim))))
            && (forall k: nat, l: nat | first <= k < |r.releases| && first <= l < |r.releases| ::
                  r.releases[k].version == version && r.releases[l].version == version ==> k == l)
            && (forall k: nat :: first <= k < |r.releases| && r.releases[k].version == version ==> Publishable(r.releases[k], claim))
  {
    var version, n := claim.identity.version, |r.releases|;
    var lo, listed := PageStart(r.releases), Listed(r.releases, version);
    MatchingCounts(r.releases, version, lo, n);
    assert forall k :: lo <= k < n && r.releases[k].version == version ==> k in listed;
    forall k: nat | k < n { ReleaseReadySpelledOut(r.releases[k], claim); }
    hide ReleaseReady, Publishable, Listed, Matching, ValidClaim;
    assert |listed| == 1 ==> listed[0] in listed;
  }

  lemma OnlyListed(releases: seq<Release>, version: string, id: nat)
    requires id < |releases|
    ensures |Listed(releases, version)| == 1 && Listed(releases, version)[0] == id <==>
            && |releases| - 100 <= id && releases[id].version == version
            && forall k: nat | |releases| - 100 <= k < |releases| :: releases[k].version == version ==> k == id
  {
    var lo, n := PageStart(releases), |releases|;
    var listed := Listed(releases, version);
    MatchingCounts(releases, version, lo, n);
    assert forall k :: lo <= k < n && releases[k].version == version ==> k in listed;
    assert |listed| == 1 ==> forall k :: k in listed ==> k == listed[0];
    assert listed != [] ==> listed[0] in listed;
    hide Listed, Matching;
  }

  /** The three times a publisher looks a release up again: what was created must be the only one listed, and
      what is to be or was taken out of draft must be on the page; each time as the claim's release, field by
      field, and after the publication as no draft. */
  lemma LookedUpAgain(r: Remote, p: Publisher, id: nat)
    requires id < |r.releases|
    ensures ReadBackRelease(r, p, id) == ListAssets(id, Early(r.releases[id].draft)) <==>
            && |r.releases| - 100 <= id && ClaimsOwn(r.releases[id], p.claim)
            && forall k: nat | |r.releases| - 100 <= k < |r.releases| :: r.releases[k].version == p.claim.identity.version ==> k == id
    ensures RefreshRelease(r, p, id) == ListAssets(id, if r.releases[id].draft then Before else After) <==>
            |r.releases| - 100 <= id && ClaimsOwn(r.releases[id], p.claim)
    ensures ConfirmRelease(r, p, id) == ListAssets(id, After) <==>
            |r.releases| - 100 <= id && ClaimsOwn(r.releases[id], p.claim) && !r.releases[id].draft
  {
    OnlyListed(r.releases, p.claim.identity.version, id);
    hide Listed;
    assert ReleaseMatches(r.releases[id], p.claim) <==> ClaimsOwn(r.releases[id], p.claim);
  }

  // ---------------------------------------------------------------- one call of a lone publisher

  /** The call keeps what the publisher relies on, leaves the question of readiness where it was, and
      fails only on a remote that was not ready; and the releases of the version off the page are drafts
      after it if and only if they were before. */
  ghost predicate Settled(r: Remote, p: Publisher, r': Remote, pc': PC) {
    && KnownAlone(r', p.claim, pc')
    && (Ready(r', p.claim) <==> Ready(r, p.claim))
    && (HiddenAreDrafts(r'.releases, p.claim.identity.version) <==> HiddenAreDrafts(r.releases, p.claim.identity.version))
    && (pc' == Failed ==> !Ready(r, p.claim))
  }

  lemma RefSettled(r: Remote, p: Publisher)
    requires KnownAlone(r, p.claim, PostRef)
    ensures Settled(r, p, CreateRef(r, p).0, CreateRef(r, p).1)
  {
    assert KnownAlone(CreateRef(r, p).0, p.claim, ListReleases);
  }

  lemma FindSettled(r: Remote, p: Publisher)
    requires TagIs(r.refs, p.claim)
    ensures Settled(r, p, r, FindRelease(r, p).pc)
    ensures FindRelease(r, p) == p.(pc := FindRelease(r, p).pc, already := FindRelease(r, p).already)
  {
    hide TagIs, Listed, Clean, AssetsFit, PresentUpTo;
    var listed := Listed(r.releases, p.claim.identity.version);
    if |listed| == 1 {
      assert listed == [listed[0]];
    }
  }

  lemma CreateSettled(r: Remote, p: Publisher)
    requires KnownAlone(r, p.claim, PostRelease)
    ensures Settled(r, p, r.(releases := r.releases + [PublicationModel.Draft(p.claim)]), ReadBack(|r.releases|))
  {
    hide TagIs, Listed, HiddenAreDrafts, ReleaseReady;
    ListedAfterCreate(r.releases, PublicationModel.Draft(p.claim));
    HiddenAfterCreate(r.releases, PublicationModel.Draft(p.claim));
    DraftIsReady(p.claim);
  }

  lemma DraftIsReady(claim: Claim)
    ensures ReleaseReady(PublicationModel.Draft(claim), claim) && ReleaseMatches(PublicationModel.Draft(claim), claim)
  {
  }

  lemma NextKnownAlone(r: Remote, claim: Claim, id: nat, stage: Stage, i: nat, seen: seq<AssetInfo>)
    requires Alone(r, claim, id) && StageFits(r.releases[id], claim, stage) && Clean(r.releases[id].assets, claim)
    requires i <= |claim.assets| && PresentUpTo(r.releases[id].assets, claim, i) && Seen(r.releases[id].assets, seen)
    requires OwnUploads(r.releases[id].assets, seen, claim, i)
    ensures KnownAlone(r, claim, NextAsset(claim, id, stage, i, seen))
  {
    hide TagIs, Listed, ReleaseMatches, Clean, Seen, OwnUploads;
    if i == |claim.assets| {
      match stage {
        case Early(_) => assert KnownAlone(r, claim, Refresh(id));
        case Before =>
        case After => assert KnownAlone(r, claim, Finished(id));
      }
    }
  }

  lemma ListSettled(r: Remote, p: Publisher, id: nat, stage: Stage)
    requires ValidClaim(p.claim) && KnownAlone(r, p.claim, ListAssets(id, stage))
    ensures Settled(r, p, r, ListReleaseAssets(r, p, id, stage))
  {
    hide TagIs, Listed, ReleaseMatches, StageFits, Ready;
    var assets := r.releases[id].assets;
    ReadyAlone(r, p.claim, id);
    if Clean(assets, p.claim) {
      CleanFitsPage(assets, p.claim);
      NextKnownAlone(r, p.claim, id, stage, 0, Infos(assets));
    }
  }

  lemma NotThere(assets: seq<Asset>, claim: Claim, i: nat, seen: seq<AssetInfo>)
    requires DistinctFiles(claim.assets) && i < |claim.assets| && Seen(assets, seen) && OwnUploads(assets, seen, claim, i)
    requires FindName(seen, claim.assets[i].file).None?
    ensures !NameTaken(assets, claim.assets[i].file)
  {
    forall k | 0 <= k < |assets| ensures assets[k].name != claim.assets[i].file {
      if k < |seen| {
        assert seen[k].name == assets[k].name;
      } else {
        assert AmongFirst(claim, i, assets[k].name);
      }
    }
  }

  lemma NotPresent(assets: seq<Asset>, claim: Claim, i: nat)
    requires i < |claim.assets| && !NameTaken(assets, claim.assets[i].file)
    ensures !Present(assets, claim.assets[i]) && !PresentUpTo(assets, claim, |claim.assets|)
  {
  }

  lemma TakeOver(r: Remote, p: Publisher, k: nat)
    requires ValidClaim(p.claim) && p.pc.Reconcile? && KnownAlone(r, p.claim, p.pc)
    requires FindName(p.pc.seen, p.claim.assets[p.pc.i].file) == Some(k)
    ensures Settled(r, p, r, if Verified(r.releases[p.pc.id].assets, k, p.pc.seen[k], p.claim.assets[p.pc.i])
                             then NextAsset(p.claim, p.pc.id, p.pc.stage, p.pc.i + 1, p.pc.seen) else Failed)
  {
    hide TagIs, Listed, ReleaseMatches, StageFits, Ready, Clean;
    var Reconcile(id, stage, i, seen) := p.pc;
    var assets := r.releases[id].assets;
    ReadyAlone(r, p.claim, id);
    if Verified(assets, k, seen[k], p.claim.assets[i]) {
      OneMorePresent(assets, p.claim, i, k);
      NextKnownAlone(r, p.claim, id, stage, i + 1, seen);
    }
  }

  lemma CleanAfterUpload(assets: seq<Asset>, claim: Claim, i: nat, asset: Asset)
    requires Clean(assets, claim) && i < |claim.assets| && asset.name == claim.assets[i].file && !NameTaken(assets, asset.name)
    ensures Clean(assets + [asset], claim)
  {
    var infos, infos' := Infos(assets), Infos(assets + [asset]);
    assert forall k :: 0 <= k < |infos| ==> infos'[k] == infos[k] && infos[k].name == assets[k].name;
    assert Claimed(claim, infos'[|infos|].name);
  }

  lemma FitAfterUpload(assets: seq<Asset>, claim: Claim, i: nat, asset: Asset)
    requires DistinctFiles(claim.assets) && i < |claim.assets| && Good(asset, claim.assets[i])
    ensures AssetsFit(assets + [asset], claim) <==> AssetsFit(assets, claim)
  {
    var assets' := assets + [asset];
    assert forall k :: 0 <= k < |assets| ==> assets'[k] == assets[k];
    assert assets'[|assets|] == asset;
  }

  lemma UploadSettled(r: Remote, p: Publisher, data: Data)
    requires ValidClaim(p.claim) && p.pc.Reconcile? && KnownAlone(r, p.claim, p.pc) && p.pc.stage == Early(true)
    requires FindName(p.pc.seen, p.claim.assets[p.pc.i].file).None? && UploadFits(data, p.claim.assets[p.pc.i])
    ensures Settled(r, p, WithAsset(r, p.pc.id, Asset(p.claim.assets[p.pc.i].file, |data|, true, data)),
                    Relist(p.pc.id, p.pc.stage, p.pc.i, p.pc.seen))
  {
    hide TagIs, Listed, Ready, Clean, AssetsFit, HiddenAreDrafts;
    var Reconcile(id, stage, i, seen) := p.pc;
    var assets := r.releases[id].assets;
    var asset := Asset(p.claim.assets[i].file, |data|, true, data);
    var r' := WithAsset(r, id, asset);
    NotThere(assets, p.claim, i, seen);
    CleanAfterUpload(assets, p.claim, i, asset);
    FitAfterUpload(assets, p.claim, i, asset);
    ListedAfterUpdate(r.releases, id, r'.releases[id], p.claim.identity.version);
    AloneIsOnPage(r, p.claim, id);
    HiddenAfterUpdate(r.releases, id, r'.releases[id], p.claim.identity.version);
    assert (assets + [asset])[..|assets|] == assets;
    PresentStays(assets, assets + [asset], p.claim, i);
    assert OwnUploads(assets + [asset], seen, p.claim, i + 1) by {
      OwnAfterUpload(assets, seen, p.claim, i, asset);
    }
    ReadyAlone(r, p.claim, id);
    ReadyAlone(r', p.claim, id);
  }

  lemma OwnAfterUpload(assets: seq<Asset>, seen: seq<AssetInfo>, claim: Claim, i: nat, asset: Asset)
    requires OwnUploads(assets, seen, claim, i) && i < |claim.assets| && asset.name == claim.assets[i].file
    ensures OwnUploads(assets + [asset], seen, claim, i + 1)
  {
    var assets' := assets + [asset];
    forall k | |seen| <= k < |assets'| ensures AmongFirst(claim, i + 1, assets'[k].name) {
      if k < |assets| {
        assert assets'[k] == assets[k];
        assert AmongFirst(claim, i, assets[k].name);
      } else {
        assert assets'[k] == asset;
      }
    }
  }

  lemma ReconcileSettled(r: Remote, p: Publisher)
    requires Formed(p.claim, p.uploads) && p.pc.Reconcile? && KnownAlone(r, p.claim, p.pc)
    ensures var c := ReconcileOne(r, p, p.pc.id, p.pc.stage, p.pc.i, p.pc.seen);
            Settled(r, p, c.0, c.1)
  {
    hide TagIs, Listed, ReleaseMatches, Clean, AssetsFit, Settled;
    var Reconcile(id, stage, i, seen) := p.pc;
    var assets := r.releases[id].assets;
    var expected := p.claim.assets[i];
    var existing := FindName(seen, expected.file);
    assert expected in p.claim.assets;
    if existing.Some? {
      TakeOver(r, p, existing.value);
    } else {
      NotThere(assets, p.claim, i, seen);
      if stage == Early(true) {
        UploadSettled(r, p, p.uploads[expected.file]);
      } else {
        MissingSettled(r, p);
      }
    }
  }

  lemma MissingSettled(r: Remote, p: Publisher)
    requires p.pc.Reconcile? && KnownAlone(r, p.claim, p.pc) && p.pc.stage != Early(true)
    requires !NameTaken(r.releases[p.pc.id].assets, p.claim.assets[p.pc.i].file)
    ensures Settled(r, p, r, Failed)
  {
    hide TagIs, Listed, ReleaseMatches, Clean, AssetsFit, Ready;
    NotPresent(r.releases[p.pc.id].assets, p.claim, p.pc.i);
    ReadyAlone(r, p.claim, p.pc.id);
  }

  lemma LastFound(infos: seq<AssetInfo>, claim: Claim, name: string)
    requires NamesOk(infos, claim) && infos != [] && infos[|infos| - 1].name == name
    ensures ReadBackAsset(infos, claim, name) == Some(|infos| - 1)
  {
  }

  lemma RelistSettled(r: Remote, p: Publisher)
    requires ValidClaim(p.claim) && p.pc.Relist? && KnownAlone(r, p.claim, p.pc)
    ensures Settled(r, p, r, RelistAssets(r, p, p.pc.id, p.pc.stage, p.pc.i, p.pc.seen))
  {
    hide TagIs, Listed, ReleaseMatches, StageFits, Ready;
    var assets := r.releases[p.pc.id].assets;
    CleanFitsPage(assets, p.claim);
    LastFound(Infos(assets), p.claim, p.claim.assets[p.pc.i].file);
  }

  lemma VerifySettled(r: Remote, p: Publisher)
    requires ValidClaim(p.claim) && p.pc.VerifyUpload? && KnownAlone(r, p.claim, p.pc)
    ensures Settled(r, p, r, VerifyUploaded(r, p, p.pc))
  {
    hide TagIs, Listed, ReleaseMatches, StageFits, Ready, Clean;
    var VerifyUpload(id, stage, i, seen, k, info) := p.pc;
    OneMorePresent(r.releases[id].assets, p.claim, i, k);
    NextKnownAlone(r, p.claim, id, stage, i + 1, seen);
  }

  lemma AloneIsOnPage(r: Remote, claim: Claim, id: nat)
    requires Alone(r, claim, id)
    ensures OnPage(r.releases, id)
  {
    var listed := Listed(r.releases, claim.identity.version);
    assert listed[0] == id;
  }

  lemma RefreshSettled(r: Remote, p: Publisher, id: nat)
    requires KnownAlone(r, p.claim, Refresh(id))
    ensures Settled(r, p, r, RefreshRelease(r, p, id))
  {
    hide TagIs, Listed, Complete, Ready;
    AloneIsOnPage(r, p.claim, id);
  }

  lemma ConfirmSettled(r: Remote, p: Publisher, id: nat)
    requires KnownAlone(r, p.claim, Confirm(id))
    ensures Settled(r, p, r, ConfirmRelease(r, p, id))
  {
    hide TagIs, Listed, Complete, Ready;
    AloneIsOnPage(r, p.claim, id);
  }

  lemma PublishSettled(r: Remote, p: Publisher, id: nat)
    requires KnownAlone(r, p.claim, Publish(id))
    ensures Settled(r, p, Undraft(r, id).0, Undraft(r, id).1)
  {
    hide TagIs, Listed, Clean, AssetsFit, Ready, HiddenAreDrafts;
    var r' := Undraft(r, id).0;
    ListedAfterUpdate(r.releases, id, r'.releases[id], p.claim.identity.version);
    AloneIsOnPage(r, p.claim, id);
    HiddenAfterUpdate(r.releases, id, r'.releases[id], p.claim.identity.version);
    ReadyAlone(r, p.claim, id);
    ReadyAlone(r', p.claim, id);
  }

  lemma ReadBackSettled(r: Remote, p: Publisher, id: nat)
    requires KnownAlone(r, p.claim, ReadBack(id))
    ensures Settled(r, p, r, ReadBackRelease(r, p, id))
  {
    hide TagIs, Listed, Ready;
  }

  lemma ReadTagSettled(r: Remote, p: Publisher)
    ensures Settled(r, p, r, ReadTagFirst(r, p)) && Settled(r, p, r, ReadTagAgain(r, p))
  {
    hide TagIs, Listed, ReleaseReady;
  }

  lemma LoneStep(r: Remote, p: Publisher)
    requires Formed(p.claim, p.uploads) && KnownAlone(r, p.claim, p.pc) && p.pc != Failed
    ensures Settled(r, p, Advance(r, p).0, Advance(r, p).1.pc)
    ensures Advance(r, p).1 == p.(pc := Advance(r, p).1.pc, already := Advance(r, p).1.already)
    ensures !p.pc.ListReleases? ==> Advance(r, p).1.already == p.already
  {
    hide Settled, ReadTagFirst, ReadTagAgain, CreateRef, FindRelease, ReadBackRelease, ListReleaseAssets, ReconcileOne, RelistAssets,
      VerifyUploaded, RefreshRelease, Undraft, ConfirmRelease, Ready, Alone, InOwnReconcile;
    match p.pc {
      case ReadTag => ReadTagSettled(r, p);
      case RereadTag => ReadTagSettled(r, p);
      case PostTag => NothingSettled(r, p, PostRef);
      case PostRef => RefSettled(r, p);
      case RequireTag(next) => NothingSettled(r, p, next);
      case ListReleases => FindSettled(r, p);
      case PostRelease => CreateSettled(r, p);
      case ReadBack(id) => ReadBackSettled(r, p, id);
      case ListAssets(id, stage) => ListSettled(r, p, id, stage);
      case Reconcile(_, _, _, _) => ReconcileSettled(r, p);
      case Relist(_, _, _, _) => RelistSettled(r, p);
      case VerifyUpload(_, _, _, _, _, _) => VerifySettled(r, p);
      case Refresh(id) => RefreshSettled(r, p, id);
      case Publish(id) => PublishSettled(r, p, id);
      case Confirm(id) => ConfirmSettled(r, p, id);
      case Finished(id) => NothingSettled(r, p, p.pc);
    }
  }

  lemma NothingSettled(r: Remote, p: Publisher, pc: PC)
    requires KnownAlone(r, p.claim, pc) && pc != Failed
    ensures Settled(r, p, r, pc)
  {
  }

  // ---------------------------------------------------------------- a rerun

  /** Whether the next call asks the remote to change. */
  predicate Writes(p: Publisher) {
    match p.pc
    case PostTag | PostRef | PostRelease | Publish(_) => true
    case Reconcile(id, stage, i, seen) => i < |p.claim.assets| && FindName(seen, p.claim.assets[i].file).None? && stage == Early(true)
    case _ => false
  }

  /** With the release out, a publisher that relies only on what it saw asks for no change. */
  lemma RerunOnlyReads(r: Remote, p: Publisher, id: nat)
    requires Out(r, p.claim, id) && KnownAlone(r, p.claim, p.pc)
    ensures !Writes(p)
  {
    hide Listed, ReleaseMatches, Complete, Clean, PresentUpTo, Seen, OwnUploads;
    match p.pc {
      case Reconcile(id', stage, i, seen) => OneAlone(r, p.claim, id, id');
      case Publish(id') => OneAlone(r, p.claim, id, id');
      case _ =>
    }
  }

  lemma OneAlone(r: Remote, claim: Claim, id: nat, id': nat)
    requires Alone(r, claim, id) && Alone(r, claim, id')
    ensures id == id'
  {
    assert [id][0] == id && [id'][0] == id';
  }

  lemma ReadersChangeNothing(r: Remote, p: Publisher)
    requires !Writes(p)
    ensures Advance(r, p).0 == r
  {
  }

  // ---------------------------------------------------------------- what the page hides

  /** A published release that is alone on the page is the only published one of its version exactly when
      those off the page are drafts. */
  lemma OneLiveIff(r: Remote, claim: Claim, id: nat)
    requires Out(r, claim, id)
    ensures OneLive(r, claim.identity.version) <==> HiddenAreDrafts(r.releases, claim.identity.version)
  {
    hide TagIs, Complete;
    var version := claim.identity.version;
    var listed := Listed(r.releases, version);
    assert listed[0] == id && id in listed;
    forall k | PageStart(r.releases) <= k < |r.releases| && k != id ensures r.releases[k].version != version {
      assert k !in listed;
    }
    if OneLive(r, version) {
      assert Published(r, version, id);
      forall k | 0 <= k < PageStart(r.releases) && r.releases[k].version == version ensures r.releases[k].draft {
        assert k != id;
        assert !Published(r, version, k);
      }
    }
  }
}
