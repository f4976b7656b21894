/** The publisher as the program it is: every API call is one turn of the publisher in the protocol's
    model, and the process may stop before any of them. */
module PublicationDriver {
  import opened Outcomes
  import opened PublicationModel
  import opened PublicationSafety
  import opened PublicationAlone

  datatype Status = NewlyPublished | AlreadyPublished
  datatype Receipt = Receipt(id: nat, claim: Claim, status: Status)

  /** A release as a list shows it. */
  datatype Found = Found(id: nat, release: Release)

  predicate FoundAre(found: seq<Found>, releases: seq<Release>, version: string) {
    var ids := Listed(releases, version);
    |found| == |ids| && forall i :: 0 <= i < |ids| ==> found[i] == Found(ids[i], releases[ids[i]])
  }

  /** The state after a number of calls. */
  function Turns(r: Remote, p: Publisher, n: nat): (Remote, Publisher) {
    if n == 0 then (r, p) else var (r', p') := Turns(r, p, n - 1); Advance(r', p')
  }

  function Started(claim: Claim, uploads: map<string, Data>): Publisher {
    Publisher(claim, uploads, ReadTag, false)
  }

  /** What the calls made so far have settled. */
  ghost predicate Faithful(r0: Remote, p0: Publisher, n: nat, r: Remote, p: Publisher) {
    && Turns(r0, p0, n) == (r, p)
    && Formed(p.claim, p.uploads) && p.claim == p0.claim && p.uploads == p0.uploads
    && KnownAlone(r, p.claim, p.pc) && (Ready(r, p.claim) <==> Ready(r0, p.claim))
    && (HiddenAreDrafts(r.releases, p.claim.identity.version) <==> HiddenAreDrafts(r0.releases, p.claim.identity.version))
    && (p.pc == Failed ==> !Ready(r, p.claim))
    && (forall id: nat :: Out(r0, p.claim, id) ==> r == r0)
  }

  lemma StartsFaithful(r: Remote, p: Publisher)
    requires Formed(p.claim, p.uploads) && p.pc == ReadTag
    ensures Faithful(r, p, 0, r, p)
  {
  }

  lemma StaysFaithful(r0: Remote, p0: Publisher, n: nat, r: Remote, p: Publisher)
    requires Faithful(r0, p0, n, r, p) && p.pc != Failed
    ensures Faithful(r0, p0, n + 1, Advance(r, p).0, Advance(r, p).1)
    ensures !p.pc.ListReleases? ==> Advance(r, p).1.already == p.already
    ensures (exists id: nat :: Out(r0, p.claim, id)) ==> !Writes(p)
  {
    hide Formed, KnownAlone, Ready, Out, Advance, Writes, HiddenAreDrafts;
    LoneStep(r, p);
    forall id: nat | Out(r0, p.claim, id) ensures !Writes(p) && Advance(r, p).0 == r {
      RerunOnlyReads(r, p, id);
      ReadersChangeNothing(r, p);
    }
  }

  /** One process publishing to one remote. self is the publisher of the protocol that it is. */
  class Process {
    var remote: Remote
    var writes: nat
    /** Whether the process is spared: then it is never cut short. */
    var spared: bool
    ghost var self: Publisher
    ghost var began: Remote
    ghost var start: Publisher
    ghost var turns: nat
    ghost var writesBefore: nat

    constructor (remote: Remote)
      ensures this.remote == remote
    {
      this.remote, writes, spared := remote, 0, false;
    }

    ghost predicate Going()
      reads this
    {
      && Faithful(began, start, turns, remote, self)
      && ((exists id: nat :: Out(began, start.claim, id)) ==> writes == writesBefore)
    }

    /** What every call keeps. */
    twostate predicate SameRun()
      reads this
    {
      spared == old(spared) && began == old(began) && start == old(start) && writesBefore == old(writesBefore)
    }

    /** Records one call, made on the remote as it was before. */
    ghost method Turn(before: Remote)
      requires Faithful(began, start, turns, before, self) && self.pc != Failed
      requires remote == Advance(before, self).0
      requires (exists id: nat :: Out(began, start.claim, id)) && !Writes(self) ==> writes == writesBefore
      modifies this`self, this`turns
      ensures Going() && SameRun() && self == Advance(before, old(self)).1
      ensures self.claim == old(self.claim) && self.uploads == old(self.uploads)
      ensures !old(self.pc).ListReleases? ==> self.already == old(self.already)
    {
      hide Advance, Writes, Out, Faithful;
      StaysFaithful(began, start, turns, before, self);
      FaithfulClaim(began, start, turns, before, self);
      self, turns := Advance(before, self).1, turns + 1;
      FaithfulClaim(began, start, turns, remote, self);
    }

    lemma FaithfulClaim(r0: Remote, p0: Publisher, n: nat, r: Remote, p: Publisher)
      requires Faithful(r0, p0, n, r, p)
      ensures p.claim == p0.claim && p.uploads == p0.uploads
    {
    }

    method Interrupted() returns (stopped: bool)
      ensures spared ==> !stopped
    {
      stopped := *;
      if spared {
        stopped := false;
      }
    }

    twostate predicate Kept()
      reads this
    {
      Going() && SameRun() && self.claim == old(self.claim) && self.uploads == old(self.uploads)
    }

    /** The remote and the publisher are one call further. */
    twostate predicate Called()
      reads this
    {
      && (remote, self) == Advance(old(remote), old(self))
      && (!old(self.pc).ListReleases? ==> self.already == old(self.already))
    }

    /** GET of a tag ref and of the object it names. */
    method GetRef(version: string) returns (r: Outcome<Option<Ref>>)
      requires Going() && version == self.claim.identity.version
      requires self.pc == ReadTag || self.pc == RereadTag || self.pc.RequireTag?
      modifies this
      ensures Kept() && !r.Refused? && (spared ==> r.Done?)
      ensures writes == old(writes)
      ensures remote == old(remote) && (r.Crashed? ==> self == old(self))
      ensures r.Done? ==> Called() && r.value == (if version in remote.refs then Some(remote.refs[version]) else None)
    {
      hide Faithful, Out;
      var stopped := Interrupted();
      if stopped { return Crashed; }
      Turn(remote);
      return Done(if version in remote.refs then Some(remote.refs[version]) else None);
    }

    /** POST of an annotated tag object, which no ref names yet. */
    method PostTagObject(tag: TagObject) returns (r: Outcome<TagObject>)
      requires Going() && self.pc == PostTag
      modifies this
      ensures Kept() && !r.Refused? && (spared ==> r.Done?)
      ensures writes == old(writes) + if r.Done? then 1 else 0
      ensures remote == old(remote) && (r.Crashed? ==> self == old(self))
      ensures r.Done? ==> Called() && r.value == tag
    {
      hide Faithful, Out;
      var stopped := Interrupted();
      if stopped { return Crashed; }
      writes := writes + 1;
      Turn(remote);
      return Done(tag);
    }

    /** POST of a tag ref, which the remote refuses when there is one. */
    method CreateRef(version: string, tag: TagObject) returns (r: Outcome<()>)
      requires Going() && self.pc == PostRef && version == self.claim.identity.version && tag == ClaimTag(self.claim)
      modifies this
      ensures Kept() && !r.Refused? && (spared ==> r.Done?)
      ensures writes == old(writes) + if r.Done? then 1 else 0
      ensures remote.releases == old(remote).releases && (r.Crashed? ==> remote == old(remote) && self == old(self))
      ensures r.Done? ==> Called()
    {
      hide Out, Ready;
      var stopped := Interrupted();
      if stopped { return Crashed; }
      if version in remote.refs { return Refused; }
      ghost var before := remote;
      remote := remote.(refs := remote.refs[version := Annotated(tag)]);
      writes := writes + 1;
      Turn(before);
      return Done(());
    }

    /** GET of the page of releases, as far as they bear the tag. */
    method GetReleases(version: string) returns (r: Outcome<seq<Found>>)
      requires Going() && version == self.claim.identity.version && (self.pc.ListReleases? || self.pc.ReadBack?)
      modifies this
      ensures Kept() && !r.Refused? && (spared ==> r.Done?)
      ensures writes == old(writes)
      ensures remote == old(remote) && (r.Crashed? ==> self == old(self))
      ensures r.Done? ==> Called() && FoundAre(r.value, remote.releases, version)
    {
      hide Faithful, Out;
      var stopped := Interrupted();
      if stopped { return Crashed; }
      Turn(remote);
      var releases := remote.releases;
      var ids := Listed(releases, version);
      return Done(seq(|ids|, i requires 0 <= i < |ids| => Found(ids[i], releases[ids[i]])));
    }

    /** GET of the page of releases, to find one by its id. */
    method GetRelease(id: nat) returns (r: Outcome<Option<Release>>)
      requires Going() && (self.pc == Refresh(id) || self.pc == Confirm(id))
      modifies this
      ensures Kept() && !r.Refused? && (spared ==> r.Done?)
      ensures writes == old(writes)
      ensures remote == old(remote) && (r.Crashed? ==> self == old(self))
      ensures r.Done? ==> Called() && r.value == (if OnPage(remote.releases, id) then Some(remote.releases[id]) else None)
    {
      hide Faithful, Out;
      var stopped := Interrupted();
      if stopped { return Crashed; }
      Turn(remote);
      return Done(if OnPage(remote.releases, id) then Some(remote.releases[id]) else None);
    }

    method CreateRelease(release: Release) returns (r: Outcome<Found>)
      requires Going() && self.pc == PostRelease && release == PublicationModel.Draft(self.claim)
      modifies this
      ensures Kept() && !r.Refused? && (spared ==> r.Done?)
      ensures writes == old(writes) + if r.Done? then 1 else 0
      ensures r.Crashed? ==> remote == old(remote) && self == old(self)
      ensures r.Done? ==> Called() && r.value == Found(|old(remote).releases|, release)
    {
      hide Faithful, Out;
      var stopped := Interrupted();
      if stopped { return Crashed; }
      ghost var before := remote;
      var id := |remote.releases|;
      remote := remote.(releases := remote.releases + [release]);
      writes := writes + 1;
      Turn(before);
      return Done(Found(id, release));
    }

    method GetAssets(id: nat) returns (r: Outcome<seq<AssetInfo>>)
      requires Going() && id < |remote.releases|
      requires (self.pc.ListAssets? || self.pc.Relist?) && self.pc.id == id
      modifies this
      ensures Kept() && !r.Refused? && (spared ==> r.Done?)
      ensures writes == old(writes)
      ensures remote == old(remote) && (r.Crashed? ==> self == old(self))
      ensures r.Done? ==> Called() && r.value == Infos(remote.releases[id].assets)
    {
      hide Faithful, Out;
      var stopped := Interrupted();
      if stopped { return Crashed; }
      Turn(remote);
      return Done(Infos(remote.releases[id].assets));
    }

    method Download(id: nat, k: nat) returns (r: Outcome<Data>)
      requires Going() && id < |remote.releases| && k < |remote.releases[id].assets|
      requires (self.pc.Reconcile? && !Writes(self)) || self.pc.VerifyUpload?
      modifies this
      ensures Kept() && !r.Refused? && (spared ==> r.Done?)
      ensures writes == old(writes)
      ensures remote == old(remote) && (r.Crashed? ==> self == old(self))
      ensures r.Done? ==> Called() && r.value == remote.releases[id].assets[k].data
    {
      hide Faithful, Out;
      var stopped := Interrupted();
      if stopped { return Crashed; }
      ReadersChangeNothing(remote, self);
      Turn(remote);
      return Done(remote.releases[id].assets[k].data);
    }

    /** POST of an asset, which the remote refuses under a name that is taken. */
    method Upload(id: nat, file: string, data: Data) returns (r: Outcome<()>)
      requires Going() && self.pc.Reconcile? && Writes(self) && id == self.pc.id
      requires file == self.claim.assets[self.pc.i].file && file in self.uploads && data == self.uploads[file]
      requires UploadFits(data, self.claim.assets[self.pc.i])
      modifies this
      ensures Kept() && !r.Refused? && (spared ==> r.Done?)
      ensures writes == old(writes) + if r.Done? then 1 else 0
      ensures r.Crashed? ==> remote == old(remote) && self == old(self)
      ensures r.Done? ==> Called() && self.pc.Relist?
    {
      hide Out, Ready, ReleaseMatches, TagIs, Listed;
      var stopped := Interrupted();
      if stopped { return Crashed; }
      NotThere(remote.releases[id].assets, self.claim, self.pc.i, self.pc.seen);
      if NameTaken(remote.releases[id].assets, file) { return Refused; }
      ghost var before := remote;
      remote := WithAsset(remote, id, Asset(file, |data|, true, data));
      writes := writes + 1;
      Turn(before);
      return Done(());
    }

    method Patch(id: nat) returns (r: Outcome<()>)
      requires Going() && self.pc == PublicationModel.Publish(id) && id < |remote.releases|
      modifies this
      ensures Kept() && !r.Refused? && (spared ==> r.Done?)
      ensures writes == old(writes) + if r.Done? then 1 else 0
      ensures r.Crashed? ==> remote == old(remote) && self == old(self)
      ensures r.Done? ==> Called()
    {
      hide Faithful, Out;
      var stopped := Interrupted();
      if stopped { return Crashed; }
      ghost var before := remote;
      remote := Undraft(remote, id).0;
      writes := writes + 1;
      Turn(before);
      return Done(());
    }

    lemma HoldsRelease()
      requires Going() && (self.pc.ListAssets? || self.pc.Reconcile? || self.pc.Relist? || self.pc.VerifyUpload? || self.pc.Publish?)
      ensures self.pc.id < |remote.releases|
      ensures self.pc.Reconcile? ==> self.pc.i < |self.claim.assets| && |self.pc.seen| <= |remote.releases[self.pc.id].assets|
      ensures self.pc.VerifyUpload? ==> self.pc.i < |self.claim.assets| && self.pc.k < |remote.releases[self.pc.id].assets|
      ensures Formed(self.claim, self.uploads)
    {
      hide Turns, Ready, Out, Listed, TagIs, ReleaseMatches, Clean, PresentUpTo, StageFits, OwnUploads;
    }

    /** readTag: whether the tag is there; any other tag than the claim's is refused. */
    method CheckTag(claim: Claim) returns (r: Outcome<bool>)
      requires Going() && claim == self.claim && (self.pc == ReadTag || self.pc == RereadTag || self.pc.RequireTag?)
      modifies this
      ensures Kept() && remote == old(remote) && (spared ==> !r.Crashed?)
      ensures !r.Crashed? ==> Called()
      ensures r.Refused? ==> self.pc == Failed
      ensures r.Done? ==> (r.value <==> claim.identity.version in remote.refs) && (r.value ==> TagIs(remote.refs, claim))
    {
      hide Faithful, Out;
      var ref :- GetRef(claim.identity.version);
      if ref.None? { return Done(false); }
      if ref.value != Annotated(ClaimTag(claim)) { return Refused; }
      return Done(true);
    }

    method RequireClaimTag(claim: Claim) returns (r: Outcome<()>)
      requires Going() && claim == self.claim && self.pc.RequireTag?
      modifies this
      ensures Kept() && remote == old(remote) && (spared ==> !r.Crashed?)
      ensures r.Refused? ==> self.pc == Failed
      ensures r.Done? ==> self.pc == old(self.pc.next) && self.already == old(self.already)
    {
      hide Faithful, Out;
      var there :- CheckTag(claim);
      if !there { return Refused; }
      return Done(());
    }

    /** verifyAssetBytes, for the asset the publisher is at. */
    method VerifyAsset(claim: Claim, id: nat, k: nat, info: AssetInfo, expected: ClaimAsset) returns (r: Outcome<()>)
      requires Going() && id < |remote.releases| && k < |remote.releases[id].assets|
      requires (self.pc.Reconcile? && !Writes(self)) || self.pc.VerifyUpload?
      requires claim == self.claim && self.pc.id == id && self.pc.i < |claim.assets| && expected == claim.assets[self.pc.i]
      requires self.pc.Reconcile? ==> FindName(self.pc.seen, expected.file) == Some(k) && self.pc.seen[k] == info
      requires self.pc.VerifyUpload? ==> self.pc.k == k && self.pc.info == info
      modifies this
      ensures Kept() && remote == old(remote) && (spared ==> !r.Crashed?)
      ensures r.Refused? ==> self.pc == Failed
      ensures r.Done? ==> self.pc == old(NextAsset(claim, id, self.pc.stage, self.pc.i + 1, self.pc.seen)) && self.already == old(self.already)
    {
      hide Faithful, Out, Listed;
      if info.size != expected.bytes || !info.uploaded {
        Turn(remote);
        return Refused;
      }
      var data :- Download(id, k);
      if !UploadFits(data, expected) { return Refused; }
      return Done(());
    }

    /** Uploads one missing asset and checks what the remote then has under its name. */
    method UploadAsset(claim: Claim, uploads: map<string, Data>, id: nat, expected: ClaimAsset) returns (r: Outcome<()>)
      requires Going() && claim == self.claim && uploads == self.uploads
      requires self.pc.Reconcile? && Writes(self) && self.pc.id == id && expected == claim.assets[self.pc.i]
      modifies this
      ensures Kept() && (spared ==> !r.Crashed?)
      ensures r.Refused? ==> self.pc == Failed
      ensures r.Done? ==> self.pc == old(NextAsset(claim, id, self.pc.stage, self.pc.i + 1, self.pc.seen)) && self.already == old(self.already)
    {
      hide Faithful, Out, Listed, TagIs, ReleaseMatches;
      HoldsRelease();
      assert expected in claim.assets;
      if expected.file !in uploads || !UploadFits(uploads[expected.file], expected) { return Refused; }
      var _ :- Upload(id, expected.file, uploads[expected.file]);
      HoldsRelease();
      var infos :- GetAssets(id);
      if |infos| > PAGE { return Refused; }
      var k := ReadBackAsset(infos, claim, expected.file);
      if k.None? { return Refused; }
      HoldsRelease();
      r := VerifyAsset(claim, id, k.value, infos[k.value], expected);
    }

    /** The listed assets by name; anything unexpected or doubled is refused. */
    method IndexByName(infos: seq<AssetInfo>, claim: Claim) returns (ok: bool, byName: map<string, nat>)
      ensures ok <==> NamesOk(infos, claim)
      ensures ok ==> forall n :: FindName(infos, n) == (if n in byName then Some(byName[n]) else None)
    {
      byName := map[];
      for k := 0 to |infos|
        invariant forall n :: n in byName <==> exists j :: 0 <= j < k && infos[j].name == n
        invariant forall n :: n in byName ==> byName[n] < k && infos[byName[n]].name == n
        invariant forall j :: 0 <= j < k ==> Claimed(claim, infos[j].name)
        invariant forall i, j :: 0 <= i < j < k ==> infos[i].name != infos[j].name
      {
        if infos[k].name in byName || !Claimed(claim, infos[k].name) { return false, byName; }
        byName := byName[infos[k].name := k];
      }
      return true, byName;
    }

    /** One asset of the claim: verified where it is, uploaded where it is not and may still be. */
    method ReconcileAsset(claim: Claim, uploads: map<string, Data>, id: nat, draft: bool, expected: ClaimAsset, infos: seq<AssetInfo>,
                          byName: map<string, nat>) returns (r: Outcome<()>)
      requires Going() && claim == self.claim && uploads == self.uploads
      requires self.pc.Reconcile? && self.pc.id == id && self.pc.seen == infos && draft == (self.pc.stage == Early(true))
      requires self.pc.i < |claim.assets| && expected == claim.assets[self.pc.i]
      requires FindName(infos, expected.file) == (if expected.file in byName then Some(byName[expected.file]) else None)
      modifies this
      ensures Kept() && (spared ==> !r.Crashed?)
      ensures r.Refused? ==> self.pc == Failed
      ensures r.Done? ==> self.pc == old(NextAsset(claim, id, self.pc.stage, self.pc.i + 1, self.pc.seen)) && self.already == old(self.already)
    {
      hide Faithful, Out, Listed, TagIs, ReleaseMatches;
      HoldsRelease();
      if expected.file in byName {
        r := VerifyAsset(claim, id, byName[expected.file], infos[byName[expected.file]], expected);
      } else if !draft {
        Turn(remote);
        return Refused;
      } else {
        r := UploadAsset(claim, uploads, id, expected);
      }
    }

    method ListAndIndex(claim: Claim, id: nat) returns (r: Outcome<(seq<AssetInfo>, map<string, nat>)>)
      requires Going() && claim == self.claim && self.pc.ListAssets? && self.pc.id == id
      modifies this
      ensures Kept() && (spared ==> !r.Crashed?)
      ensures r.Refused? ==> self.pc == Failed
      ensures r.Done? ==> self.pc == NextAsset(claim, id, old(self.pc.stage), 0, r.value.0) && self.already == old(self.already)
      ensures r.Done? ==> forall n :: FindName(r.value.0, n) == (if n in r.value.1 then Some(r.value.1[n]) else None)
    {
      hide Faithful, Out, Listed, TagIs, ReleaseMatches;
      HoldsRelease();
      var infos :- GetAssets(id);
      if |infos| > PAGE { return Refused; }
      var ok, byName := IndexByName(infos, claim);
      if !ok { return Refused; }
      return Done((infos, byName));
    }

    /** reconcileAssets: every asset of the claim is there with the claim's bytes, and nothing else. */
    method ReconcileAssets(claim: Claim, uploads: map<string, Data>, id: nat, draft: bool, ghost stage: Stage) returns (r: Outcome<()>)
      requires Going() && claim == self.claim && uploads == self.uploads
      requires self.pc == ListAssets(id, stage) && draft == (stage == Early(true))
      modifies this
      ensures Kept() && (spared ==> !r.Crashed?)
      ensures r.Refused? ==> self.pc == Failed
      ensures r.Done? ==> self.pc == AfterReconcile(id, stage) && self.already == old(self.already)
    {
      hide Faithful, Out, Going, FindName;
      var listed :- ListAndIndex(claim, id);
      for i := 0 to |claim.assets|
        invariant Kept()
        invariant self.pc == NextAsset(claim, id, stage, i, listed.0) && self.already == old(self.already)
      {
        var _ :- ReconcileAsset(claim, uploads, id, draft, claim.assets[i], listed.0, listed.1);
      }
      return Done(());
    }

    /** The tag of this claim, created if there is none. */
    method SettleTag(claim: Claim) returns (r: Outcome<()>)
      requires Going() && claim == self.claim && self.pc == ReadTag
      modifies this
      ensures Kept() && remote.releases == old(remote.releases) && (spared ==> !r.Crashed?)
      ensures r.Refused? ==> self.pc == Failed
      ensures r.Done? ==> self.pc == ListReleases && self.already == old(self.already)
    {
      hide Faithful, Out;
      var existing :- CheckTag(claim);
      var there :- CheckTag(claim);
      if !there {
        var tag :- PostTagObject(ClaimTag(claim));
        var _ :- CreateRef(claim.identity.version, tag);
        var _ :- RequireClaimTag(claim);
      }
      return Done(());
    }

    /** The one release of the tag, created as a draft if there is none; and whether it was live when found. */
    method SettleRelease(claim: Claim) returns (r: Outcome<(Found, bool)>)
      requires Going() && claim == self.claim && self.pc == ListReleases && !self.already
      modifies this
      ensures Kept() && (spared ==> !r.Crashed?)
      ensures r.Refused? ==> self.pc == Failed
      ensures r.Done? ==> self.pc == ListAssets(r.value.0.id, Early(r.value.0.release.draft)) && self.already == r.value.1
      ensures r.Done? ==> (r.value.1 <==> Published(old(remote), claim.identity.version, r.value.0.id))
    {
      hide Faithful, Out, ReleaseMatches, TagIs, Listed, Going;
      var listed :- GetReleases(claim.identity.version);
      if |listed| > 1 { return Refused; }
      if |listed| == 1 {
        if !ReleaseMatches(listed[0].release, claim) { return Refused; }
        return Done((listed[0], !listed[0].release.draft));
      }
      var created :- CreateRelease(PublicationModel.Draft(claim));
      var refreshed :- GetReleases(claim.identity.version);
      if |refreshed| != 1 || refreshed[0].id != created.id { return Refused; }
      if !ReleaseMatches(refreshed[0].release, claim) { return Refused; }
      return Done((refreshed[0], false));
    }

    /** Takes the release out of draft, once everything it should have is verified to be there. */
    method GoLive(claim: Claim, uploads: map<string, Data>, id: nat) returns (r: Outcome<()>)
      requires Going() && claim == self.claim && uploads == self.uploads && self.pc == Refresh(id)
      modifies this
      ensures Kept() && (spared ==> !r.Crashed?)
      ensures r.Refused? ==> self.pc == Failed
      ensures r.Done? ==> self.pc == ListAssets(id, After) && self.already == old(self.already)
    {
      hide Faithful, Out, ReleaseMatches, TagIs, Listed;
      var current :- GetRelease(id);
      if current.None? || !ReleaseMatches(current.value, claim) { return Refused; }
      if current.value.draft {
        var _ :- ReconcileAssets(claim, uploads, id, false, Before);
        HoldsRelease();
        var _ :- Patch(id);
        current :- GetRelease(id);
        if current.None? || current.value.draft || !ReleaseMatches(current.value, claim) { return Refused; }
      }
      return Done(());
    }

    /** The calls of one publication, in order. */
    method Run(claim: Claim, uploads: map<string, Data>) returns (r: Outcome<Receipt>)
      requires Going() && claim == self.claim && uploads == self.uploads && self.pc == ReadTag && !self.already
      modifies this
      ensures Kept() && (spared ==> !r.Crashed?)
      ensures r.Refused? ==> self.pc == Failed
      ensures r.Done? ==> self.pc == Finished(r.value.id) && r.value.claim == claim
      ensures r.Done? ==> (r.value.status == AlreadyPublished <==> Published(old(remote), claim.identity.version, r.value.id))
    {
      hide Faithful, Out, Going, Listed, TagIs;
      var _ :- SettleTag(claim);
      var settled :- SettleRelease(claim);
      var id := settled.0.id;
      var _ :- ReconcileAssets(claim, uploads, id, settled.0.release.draft, Early(settled.0.release.draft));
      var _ :- RequireClaimTag(claim);
      var _ :- GoLive(claim, uploads, id);
      var _ :- ReconcileAssets(claim, uploads, id, false, After);
      var _ :- RequireClaimTag(claim);
      return Done(Receipt(id, claim, if settled.1 then AlreadyPublished else NewlyPublished));
    }

    /** publishGitHubRelease. However earlier runs were cut short, this one gets the release published
        with exactly the claim's assets if and only if the remote is ready for the claim; whether it is
        never changes; and on a release that is out already it asks for no change at all. */
    method Publish(claim: Claim, uploads: map<string, Data>, uninterrupted: bool) returns (r: Outcome<Receipt>)
      requires Formed(claim, uploads)
      modifies this
      ensures Turns(old(remote), Started(claim, uploads), turns) == (remote, self)
      ensures r.Done? ==> Ready(old(remote), claim) && Out(remote, claim, r.value.id) && r.value.claim == claim
      ensures r.Done? ==>
                && claim.identity.version in remote.refs
                && remote.refs[claim.identity.version] == Annotated(TagObject(claim.identity.version, claim.identity.source, Ours(claim)))
                && r.value.id < |remote.releases|
                && (var assets := remote.releases[r.value.id].assets;
                    && remote.releases[r.value.id] == Release(claim.identity.version, claim.identity.source,
                         "VIDA Agent v" + claim.identity.version, DigestOf(claim), false, false, assets)
                    && (forall c :: c in claim.assets ==>
                          exists a :: a in assets && a.name == c.file && a.size == c.bytes && a.uploaded
                                      && |a.data| == c.bytes && Sha256(a.data) == c.digest)
                    && (forall k, l :: 0 <= k < |assets| && 0 <= l < |assets| && assets[k].name == assets[l].name ==> k == l)
                    && (forall a :: a in assets ==> exists c :: c in claim.assets && c.file == a.name))
      ensures r.Done? ==> (r.value.status == AlreadyPublished <==> Published(old(remote), claim.identity.version, r.value.id))
      ensures r.Done? ==> (OneLive(remote, claim.identity.version) <==> HiddenAreDrafts(old(remote).releases, claim.identity.version))
      ensures r.Refused? ==> !Ready(old(remote), claim)
      ensures r.Crashed? ==> !uninterrupted
      ensures Ready(remote, claim) <==> Ready(old(remote), claim)
      ensures (exists id: nat :: Out(old(remote), claim, id)) ==> remote == old(remote) && writes == old(writes)
    {
      hide Out, Ready, Listed, Formed, Turns, KnownAlone, OneLive, HiddenAreDrafts;
      spared := uninterrupted;
      self, began, start, turns, writesBefore := Started(claim, uploads), remote, Started(claim, uploads), 0, writes;
      StartsFaithful(remote, self);
      r := Run(claim, uploads);
      assert r.Done? ==> Out(remote, claim, r.value.id) by { FinishedIsOut(began, start, turns, remote, self); }
      OutIsReady(remote, claim);
      if r.Done? {
        OneLiveIff(remote, claim, r.value.id);
        OutSpelledOut(remote, claim, r.value.id);
        HiddenAsBefore(began, start, turns, remote, self);
      }
    }
  }

  lemma FinishedIsOut(r0: Remote, p0: Publisher, n: nat, r: Remote, p: Publisher)
    requires Faithful(r0, p0, n, r, p)
    ensures p.pc.Finished? ==> Out(r, p.claim, p.pc.id)
  {
  }

  lemma OutSpelledOut(r: Remote, claim: Claim, id: nat)
    requires Out(r, claim, id)
    ensures Spelled(r, claim, id)
  {
    CompleteSpelledOut(r.releases[id].assets, claim);
    hide Complete;
  }

  /** The claim's tag, and its release out of draft with every claimed asset once, of the claimed length
      and digest, and no other. */
  ghost predicate Spelled(r: Remote, claim: Claim, id: nat) {
    var version := claim.identity.version;
    && version in r.refs && r.refs[version] == Annotated(TagObject(version, claim.identity.source, Ours(claim)))
    && id < |r.releases|
    && (var assets := r.releases[id].assets;
        && r.releases[id] == Release(version, claim.identity.source, "VIDA Agent v" + version, DigestOf(claim), false, false, assets)
        && (forall c :: c in claim.assets ==>
              exists a :: a in assets && a.name == c.file && a.size == c.bytes && a.uploaded
                          && |a.data| == c.bytes && Sha256(a.data) == c.digest)
        && (forall k, l :: 0 <= k < |assets| && 0 <= l < |assets| && assets[k].name == assets[l].name ==> k == l)
        && (forall a :: a in assets ==> exists c :: c in claim.assets && c.file == a.name))
  }

  lemma HiddenAsBefore(r0: Remote, p0: Publisher, n: nat, r: Remote, p: Publisher)
    requires Faithful(r0, p0, n, r, p)
    ensures HiddenAreDrafts(r.releases, p.claim.identity.version) <==> HiddenAreDrafts(r0.releases, p.claim.identity.version)
  {
  }

  lemma OutIsReady(r: Remote, claim: Claim)
    ensures forall id: nat :: Out(r, claim, id) ==> Ready(r, claim)
  {
    forall id: nat | Out(r, claim, id) ensures Ready(r, claim) {
      OutFits(r.releases[id].assets, claim);
    }
  }

  lemma OutFits(assets: seq<Asset>, claim: Claim)
    requires Complete(assets, claim)
    ensures AssetsFit(assets, claim)
  {
    var infos := Infos(assets);
    forall k, i | 0 <= k < |assets| && 0 <= i < |claim.assets| && assets[k].name == claim.assets[i].file
      ensures Good(assets[k], claim.assets[i])
    {
      assert Present(assets, claim.assets[i]);
      var j :| 0 <= j < |assets| && Good(assets[j], claim.assets[i]);
      assert infos[j].name == infos[k].name;
    }
  }
}
