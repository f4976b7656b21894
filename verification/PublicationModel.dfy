/** GitHub publication as a distributed protocol: any number of publishers, each a program of single
    API calls, over a remote that holds tag refs, releases and their assets. */
module PublicationModel {
  import opened Outcomes

  type Data = string

  /** SHA-256, taken to be injective. */
  datatype Digest = Sha256(preimage: Data)

  datatype Identity = Identity(operation: string, version: string, source: string, binding: string)
  datatype ClaimAsset = ClaimAsset(file: string, bytes: nat, digest: Digest)
  datatype Claim = Claim(identity: Identity, producers: seq<string>, assets: seq<ClaimAsset>)

  /** A tag message is the publisher's marker and the canonical JSON of a claim, or something else. */
  datatype Message = Ours(claim: Claim) | Theirs(text: string)
  datatype TagObject = TagObject(version: string, source: string, message: Message)
  datatype Ref = Annotated(tag: TagObject) | Lightweight(commit: string)

  /** A release body is the publisher's marker and the digest of a claim, or something else. */
  datatype Body = DigestOf(claim: Claim) | Text(text: string)
  datatype Asset = Asset(name: string, size: nat, uploaded: bool, data: Data)
  datatype Release = Release(version: string, source: string, name: string, body: Body, prerelease: bool, draft: bool,
                             assets: seq<Asset>)

  /** refs by version; a release's id is its place in the order of creation, an asset's its place in the release. */
  datatype Remote = Remote(refs: map<string, Ref>, releases: seq<Release>)

  /** What an asset list says of an asset. */
  datatype AssetInfo = AssetInfo(name: string, size: nat, uploaded: bool)

  /** The three reconciliations: after the release was found, before it is published, and at the end. */
  datatype Stage = Early(draft: bool) | Before | After

  datatype PC =
    | ReadTag
    | RereadTag
    | PostTag
    | PostRef
    | RequireTag(next: PC)
    | ListReleases
    | PostRelease
    | ReadBack(id: nat)
    | ListAssets(id: nat, stage: Stage)
    | Reconcile(id: nat, stage: Stage, i: nat, seen: seq<AssetInfo>)
    | Relist(id: nat, stage: Stage, i: nat, seen: seq<AssetInfo>)
    | VerifyUpload(id: nat, stage: Stage, i: nat, seen: seq<AssetInfo>, k: nat, info: AssetInfo)
    | Refresh(id: nat)
    | Publish(id: nat)
    | Confirm(id: nat)
    | Finished(id: nat)
    | Failed

  /** formed, uploads: what formAssets gives this publisher. already: the release was live when found. */
  datatype Publisher = Publisher(claim: Claim, uploads: map<string, Data>, pc: PC, already: bool)

  const PAGE := 100

  // ---------------------------------------------------------------- the publisher's checks

  predicate DistinctFiles(assets: seq<ClaimAsset>) {
    forall i, j :: 0 <= i < j < |assets| ==> assets[i].file != assets[j].file
  }

  /** validateClaim and assetInventory, as far as the protocol depends on them. */
  predicate ValidClaim(claim: Claim) {
    1 <= |claim.assets| <= 16 && DistinctFiles(claim.assets)
  }

  predicate Formed(claim: Claim, uploads: map<string, Data>) {
    && ValidClaim(claim)
    && forall a :: a in claim.assets ==> a.file in uploads && UploadFits(uploads[a.file], a)
  }

  predicate UploadFits(data: Data, expected: ClaimAsset) {
    |data| == expected.bytes && Sha256(data) == expected.digest
  }

  function ClaimTag(claim: Claim): TagObject {
    TagObject(claim.identity.version, claim.identity.source, Ours(claim))
  }

  /** readTag with the claim's message. */
  predicate TagIs(refs: map<string, Ref>, claim: Claim) {
    var v := claim.identity.version;
    v in refs && refs[v] == Annotated(ClaimTag(claim))
  }

  /** assertRelease, apart from the draft flag. */
  predicate ReleaseMatches(release: Release, claim: Claim) {
    && release.version == claim.identity.version && release.source == claim.identity.source
    && release.name == "VIDA Agent v" + claim.identity.version
    && release.body == DigestOf(claim) && !release.prerelease
  }

  function Matching(releases: seq<Release>, version: string, lo: nat, hi: nat): (r: seq<nat>)
    requires lo <= hi <= |releases|
    ensures forall k :: k in r <==> lo <= k < hi && releases[k].version == version
    ensures forall i :: 0 <= i < |r| ==> lo <= r[i] < hi && releases[r[i]].version == version
    decreases hi - lo
  {
    if lo == hi then []
    else Matching(releases, version, lo, hi - 1) + if releases[hi - 1].version == version then [hi - 1] else []
  }

  function PageStart(releases: seq<Release>): nat {
    if |releases| <= PAGE then 0 else |releases| - PAGE
  }

  /** The releases of a version on the page of the newest hundred, which is all that is ever listed. */
  function Listed(releases: seq<Release>, version: string): (r: seq<nat>)
    ensures forall k :: k in r <==> PageStart(releases) <= k < |releases| && releases[k].version == version
    ensures forall i :: 0 <= i < |r| ==> PageStart(releases) <= r[i] < |releases| && releases[r[i]].version == version
  {
    Matching(releases, version, PageStart(releases), |releases|)
  }

  predicate OnPage(releases: seq<Release>, id: nat) {
    PageStart(releases) <= id < |releases|
  }

  function Info(asset: Asset): AssetInfo {
    AssetInfo(asset.name, asset.size, asset.uploaded)
  }

  function Infos(assets: seq<Asset>): (r: seq<AssetInfo>)
    ensures |r| == |assets| && forall k :: 0 <= k < |r| ==> r[k] == Info(assets[k])
  {
    seq(|assets|, k requires 0 <= k < |assets| => Info(assets[k]))
  }

  predicate Claimed(claim: Claim, name: string) {
    exists i :: 0 <= i < |claim.assets| && claim.assets[i].file == name
  }

  predicate DistinctNames(infos: seq<AssetInfo>) {
    forall i, j :: 0 <= i < j < |infos| ==> infos[i].name != infos[j].name
  }

  /** Nothing unexpected and nothing twice. */
  predicate NamesOk(infos: seq<AssetInfo>, claim: Claim) {
    DistinctNames(infos) && forall k :: 0 <= k < |infos| ==> Claimed(claim, infos[k].name)
  }

  function FindName(infos: seq<AssetInfo>, name: string): (r: Option<nat>)
    ensures r.Some? ==> r.value < |infos| && infos[r.value].name == name
    ensures r.None? ==> forall k :: 0 <= k < |infos| ==> infos[k].name != name
  {
    if infos == [] then None
    else if infos[|infos| - 1].name == name then Some(|infos| - 1)
    else FindName(infos[..|infos| - 1], name)
  }

  /** verifyAssetBytes on the asset with a given id. */
  predicate Verified(assets: seq<Asset>, k: nat, info: AssetInfo, expected: ClaimAsset) {
    info.size == expected.bytes && info.uploaded && k < |assets| && UploadFits(assets[k].data, expected)
  }

  // ---------------------------------------------------------------- one API call of one publisher

  function At(p: Publisher, pc: PC): Publisher { p.(pc := pc) }

  function AfterReconcile(id: nat, stage: Stage): PC {
    match stage
    case Early(_) => RequireTag(Refresh(id))
    case Before => Publish(id)
    case After => RequireTag(Finished(id))
  }

  function NextAsset(claim: Claim, id: nat, stage: Stage, i: nat, seen: seq<AssetInfo>): PC {
    if i < |claim.assets| then Reconcile(id, stage, i, seen) else AfterReconcile(id, stage)
  }

  function ReadTagFirst(r: Remote, p: Publisher): PC {
    if p.claim.identity.version !in r.refs || TagIs(r.refs, p.claim) then RereadTag else Failed
  }

  function ReadTagAgain(r: Remote, p: Publisher): PC {
    if p.claim.identity.version !in r.refs then PostTag
    else if TagIs(r.refs, p.claim) then ListReleases
    else Failed
  }

  function CreateRef(r: Remote, p: Publisher): (Remote, PC) {
    var v := p.claim.identity.version;
    if v in r.refs then (r, Failed)
    else (r.(refs := r.refs[v := Annotated(ClaimTag(p.claim))]), RequireTag(ListReleases))
  }

  function FindRelease(r: Remote, p: Publisher): Publisher {
    var listed := Listed(r.releases, p.claim.identity.version);
    if |listed| == 0 then At(p, PostRelease)
    else if |listed| > 1 || !ReleaseMatches(r.releases[listed[0]], p.claim) then At(p, Failed)
    else
      var draft := r.releases[listed[0]].draft;
      p.(pc := ListAssets(listed[0], Early(draft)), already := !draft)
  }

  function Draft(claim: Claim): Release {
    Release(claim.identity.version, claim.identity.source, "VIDA Agent v" + claim.identity.version, DigestOf(claim), false, true, [])
  }

  function ReadBackRelease(r: Remote, p: Publisher, id: nat): PC {
    var listed := Listed(r.releases, p.claim.identity.version);
    if |listed| == 1 && listed[0] == id && ReleaseMatches(r.releases[id], p.claim)
    then ListAssets(id, Early(r.releases[id].draft)) else Failed
  }

  function ListReleaseAssets(r: Remote, p: Publisher, id: nat, stage: Stage): PC {
    if id < |r.releases| && |r.releases[id].assets| <= PAGE && NamesOk(Infos(r.releases[id].assets), p.claim)
    then NextAsset(p.claim, id, stage, 0, Infos(r.releases[id].assets)) else Failed
  }

  function WithAsset(r: Remote, id: nat, asset: Asset): Remote
    requires id < |r.releases|
  {
    r.(releases := r.releases[id := r.releases[id].(assets := r.releases[id].assets + [asset])])
  }

  predicate NameTaken(assets: seq<Asset>, name: string) {
    exists k :: 0 <= k < |assets| && assets[k].name == name
  }

  function ReconcileOne(r: Remote, p: Publisher, id: nat, stage: Stage, i: nat, seen: seq<AssetInfo>): (Remote, PC) {
    if i >= |p.claim.assets| || id >= |r.releases| then (r, Failed)
    else
      var expected := p.claim.assets[i];
      var existing := FindName(seen, expected.file);
      if existing.Some? then
        (r, if Verified(r.releases[id].assets, existing.value, seen[existing.value], expected)
            then NextAsset(p.claim, id, stage, i + 1, seen) else Failed)
      else if stage != Early(true) || expected.file !in p.uploads || !UploadFits(p.uploads[expected.file], expected)
              || NameTaken(r.releases[id].assets, expected.file) then (r, Failed)
      else
        var data := p.uploads[expected.file];
        (WithAsset(r, id, Asset(expected.file, |data|, true, data)), Relist(id, stage, i, seen))
  }

  predicate OnlyClaimed(infos: seq<AssetInfo>, claim: Claim) {
    forall k :: 0 <= k < |infos| ==> Claimed(claim, infos[k].name)
  }

  /** The names matching exactly once in the list read back after an upload. */
  function ReadBackAsset(infos: seq<AssetInfo>, claim: Claim, name: string): (r: Option<nat>)
    ensures r.Some? ==> r.value < |infos| && forall k :: 0 <= k < |infos| ==> (infos[k].name == name <==> k == r.value)
    ensures r.Some? ==> forall info :: info in infos ==> exists c :: c in claim.assets && c.file == info.name
    ensures r.None? ==>
              || (exists k :: 0 <= k < |infos| && forall c :: c in claim.assets ==> c.file != infos[k].name)
              || (forall k :: 0 <= k < |infos| ==> infos[k].name != name)
              || (exists k, l :: 0 <= k < l < |infos| && infos[k].name == infos[l].name == name)
  {
    var k := FindName(infos, name);
    if k.Some? && OnlyClaimed(infos, claim) && forall j :: 0 <= j < |infos| && j != k.value ==> infos[j].name != name
    then k else None
  }

  function RelistAssets(r: Remote, p: Publisher, id: nat, stage: Stage, i: nat, seen: seq<AssetInfo>): PC {
    if i >= |p.claim.assets| || id >= |r.releases| || |r.releases[id].assets| > PAGE then Failed
    else
      var infos := Infos(r.releases[id].assets);
      var k := ReadBackAsset(infos, p.claim, p.claim.assets[i].file);
      if k.Some? then VerifyUpload(id, stage, i, seen, k.value, infos[k.value]) else Failed
  }

  function VerifyUploaded(r: Remote, p: Publisher, pc: PC): PC
    requires pc.VerifyUpload?
  {
    if pc.i < |p.claim.assets| && pc.id < |r.releases| && Verified(r.releases[pc.id].assets, pc.k, pc.info, p.claim.assets[pc.i])
    then NextAsset(p.claim, pc.id, pc.stage, pc.i + 1, pc.seen) else Failed
  }

  function RefreshRelease(r: Remote, p: Publisher, id: nat): PC {
    if OnPage(r.releases, id) && ReleaseMatches(r.releases[id], p.claim)
    then ListAssets(id, if r.releases[id].draft then Before else After) else Failed
  }

  function Undraft(r: Remote, id: nat): (Remote, PC) {
    if id < |r.releases| then (r.(releases := r.releases[id := r.releases[id].(draft := false)]), Confirm(id)) else (r, Failed)
  }

  function ConfirmRelease(r: Remote, p: Publisher, id: nat): PC {
    if OnPage(r.releases, id) && !r.releases[id].draft && ReleaseMatches(r.releases[id], p.claim) then ListAssets(id, After) else Failed
  }

  predicate Stopped(pc: PC) { pc.Finished? || pc.Failed? }

  /** What a publisher's next call does to the remote and where it leaves the publisher. */
  function Advance(r: Remote, p: Publisher): (Remote, Publisher) {
    match p.pc
    case ReadTag => (r, At(p, ReadTagFirst(r, p)))
    case RereadTag => (r, At(p, ReadTagAgain(r, p)))
    case PostTag => (r, At(p, PostRef))
    case PostRef => var (r', pc) := CreateRef(r, p); (r', At(p, pc))
    case RequireTag(next) => (r, At(p, if TagIs(r.refs, p.claim) then next else Failed))
    case ListReleases => (r, FindRelease(r, p))
    case PostRelease => (r.(releases := r.releases + [Draft(p.claim)]), At(p, ReadBack(|r.releases|)))
    case ReadBack(id) => (r, At(p, ReadBackRelease(r, p, id)))
    case ListAssets(id, stage) => (r, At(p, ListReleaseAssets(r, p, id, stage)))
    case Reconcile(id, stage, i, seen) => var (r', pc) := ReconcileOne(r, p, id, stage, i, seen); (r', At(p, pc))
    case Relist(id, stage, i, seen) => (r, At(p, RelistAssets(r, p, id, stage, i, seen)))
    case VerifyUpload(_, _, _, _, _, _) => (r, At(p, VerifyUploaded(r, p, p.pc)))
    case Refresh(id) => (r, At(p, RefreshRelease(r, p, id)))
    case Publish(id) => var (r', pc) := Undraft(r, id); (r', At(p, pc))
    case Confirm(id) => (r, At(p, ConfirmRelease(r, p, id)))
    case Finished(_) => (r, p)
    case Failed => (r, p)
  }
}
