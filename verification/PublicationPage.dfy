/** How a publication comes to its end, and what it can leave there when the page of releases is too short
    to show all of a version. */
module PublicationPage {
  import opened PublicationModel
  import opened PublicationSafety
  import opened PublicationAlone
  import opened PublicationDriver

  // ---------------------------------------------------------------- every publisher stops

  /** An upper bound on the calls left, with n assets to go through. */
  function CallsLeft(pc: PC, n: nat): nat
    decreases pc
  {
    match pc
    case ReadTag => 16 + 9 * n
    case RereadTag => 15 + 9 * n
    case PostTag => 14 + 9 * n
    case PostRef => 13 + 9 * n
    case RequireTag(next) => 1 + CallsLeft(next, n)
    case ListReleases => 11 + 9 * n
    case PostRelease => 10 + 9 * n
    case ReadBack(_) => 9 + 9 * n
    case ListAssets(_, stage) => 1 + StageLeft(stage, n) + 3 * n
    case Reconcile(_, stage, i, _) => StageLeft(stage, n) + 3 * Rest(n, i)
    case Relist(_, stage, i, _) => StageLeft(stage, n) + 3 * Rest(n, i) - 1
    case VerifyUpload(_, stage, i, _, _, _) => StageLeft(stage, n) + 3 * Rest(n, i) - 2
    case Refresh(_) => 6 + 6 * n
    case Publish(_) => 4 + 3 * n
    case Confirm(_) => 3 + 3 * n
    case Finished(_) => 0
    case Failed => 0
  }

  /** What is left once a reconciliation is through. */
  function StageLeft(stage: Stage, n: nat): (r: nat)
    ensures r >= 1
  {
    match stage
    case Early(_) => 7 + 6 * n
    case Before => 4 + 3 * n
    case After => 1
  }

  function Rest(n: nat, i: nat): (r: nat)
    ensures r >= 1
  {
    if i < n then n - i else 1
  }

  lemma NextCalls(claim: Claim, id: nat, stage: Stage, i: nat, seen: seq<AssetInfo>)
    ensures i == 0 ==> CallsLeft(NextAsset(claim, id, stage, i, seen), |claim.assets|) <= StageLeft(stage, |claim.assets|) + 3 * |claim.assets|
    ensures 0 < i <= |claim.assets| ==>
              CallsLeft(NextAsset(claim, id, stage, i, seen), |claim.assets|) <= StageLeft(stage, |claim.assets|) + 3 * Rest(|claim.assets|, i - 1) - 3
  {
    var n := |claim.assets|;
    if i >= n {
      match stage {
        case Early(_) => assert CallsLeft(Refresh(id), n) == 6 + 6 * n;
        case Before =>
        case After => assert CallsLeft(Finished(id), n) == 0;
      }
    }
  }

  lemma ReconcileCalls(r: Remote, p: Publisher)
    requires p.pc.Reconcile?
    ensures CallsLeft(Advance(r, p).1.pc, |p.claim.assets|) < CallsLeft(p.pc, |p.claim.assets|)
  {
    hide FindName, Verified, UploadFits, NameTaken, NextAsset, StageLeft;
    NextCalls(p.claim, p.pc.id, p.pc.stage, p.pc.i + 1, p.pc.seen);
  }

  lemma UploadCalls(r: Remote, p: Publisher)
    requires p.pc.Relist? || p.pc.VerifyUpload?
    ensures CallsLeft(Advance(r, p).1.pc, |p.claim.assets|) < CallsLeft(p.pc, |p.claim.assets|)
  {
    hide Verified, ReadBackAsset, NextAsset, StageLeft;
    NextCalls(p.claim, p.pc.id, p.pc.stage, p.pc.i + 1, p.pc.seen);
  }

  lemma ListCalls(r: Remote, p: Publisher)
    requires p.pc.ListAssets?
    ensures CallsLeft(Advance(r, p).1.pc, |p.claim.assets|) < CallsLeft(p.pc, |p.claim.assets|)
  {
    hide NamesOk, NextAsset, StageLeft;
    if p.pc.id < |r.releases| {
      NextCalls(p.claim, p.pc.id, p.pc.stage, 0, Infos(r.releases[p.pc.id].assets));
    }
  }

  lemma ReleaseCalls(r: Remote, p: Publisher)
    requires p.pc.ListReleases? || p.pc.ReadBack? || p.pc.Refresh? || p.pc.Confirm? || p.pc.Publish?
    ensures CallsLeft(Advance(r, p).1.pc, |p.claim.assets|) < CallsLeft(p.pc, |p.claim.assets|)
  {
    hide ReleaseMatches, Listed, OnPage;
  }

  lemma TagCalls(r: Remote, p: Publisher)
    requires p.pc.ReadTag? || p.pc.RereadTag? || p.pc.PostTag? || p.pc.PostRef? || p.pc.RequireTag? || p.pc.PostRelease?
    ensures CallsLeft(Advance(r, p).1.pc, |p.claim.assets|) < CallsLeft(p.pc, |p.claim.assets|)
  {
    hide TagIs;
    assert CallsLeft(ListReleases, |p.claim.assets|) == 11 + 9 * |p.claim.assets|;
  }

  /** Every call of a publisher, whatever the remote has become in between, leaves it fewer to make: no
      publisher makes more than 16 and nine for every asset. */
  lemma CallsDecrease(r: Remote, p: Publisher)
    requires !Stopped(p.pc)
    ensures CallsLeft(Advance(r, p).1.pc, |p.claim.assets|) < CallsLeft(p.pc, |p.claim.assets|)
  {
    hide Advance, CallsLeft;
    match p.pc {
      case Reconcile(_, _, _, _) => ReconcileCalls(r, p);
      case Relist(_, _, _, _) => UploadCalls(r, p);
      case VerifyUpload(_, _, _, _, _, _) => UploadCalls(r, p);
      case ListAssets(_, _) => ListCalls(r, p);
      case ListReleases => ReleaseCalls(r, p);
      case ReadBack(_) => ReleaseCalls(r, p);
      case Refresh(_) => ReleaseCalls(r, p);
      case Confirm(_) => ReleaseCalls(r, p);
      case Publish(_) => ReleaseCalls(r, p);
      case _ => TagCalls(r, p);
    }
  }

  // ---------------------------------------------------------------- a lone publisher gets through

  /** With nobody else about, a publisher whose remote is ready for it finishes after so many calls. */
  lemma {:induction false} GetsThrough(r0: Remote, p0: Publisher, n: nat, r: Remote, p: Publisher) returns (m: nat)
    requires Faithful(r0, p0, n, r, p) && Ready(r0, p.claim)
    ensures m <= n + CallsLeft(p.pc, |p.claim.assets|)
    ensures Faithful(r0, p0, m, Turns(r0, p0, m).0, Turns(r0, p0, m).1) && Turns(r0, p0, m).1.pc.Finished?
    decreases CallsLeft(p.pc, |p.claim.assets|)
  {
    hide Faithful, Ready, Turns, Advance, CallsLeft;
    FaithfulParts(r0, p0, n, r, p);
    m := n;
    if !p.pc.Finished? {
      StaysFaithful(r0, p0, n, r, p);
      CallsDecrease(r, p);
      var (r', p') := Advance(r, p);
      FaithfulParts(r0, p0, n + 1, r', p');
      m := GetsThrough(r0, p0, n + 1, r', p');
    }
  }

  lemma FaithfulParts(r0: Remote, p0: Publisher, n: nat, r: Remote, p: Publisher)
    requires Faithful(r0, p0, n, r, p)
    ensures Turns(r0, p0, n) == (r, p) && p.claim == p0.claim && (p.pc == Failed ==> !Ready(r0, p0.claim))
  {
    hide Ready, KnownAlone, Out;
  }

  lemma {:induction false} TurnsAreFaithful(r0: Remote, claim: Claim, uploads: map<string, Data>, n: nat)
    requires Formed(claim, uploads)
    ensures Faithful(r0, Started(claim, uploads), n, Turns(r0, Started(claim, uploads), n).0, Turns(r0, Started(claim, uploads), n).1)
  {
    hide Formed;
    var p0 := Started(claim, uploads);
    if n == 0 {
      StartsFaithful(r0, p0);
    } else {
      TurnsAreFaithful(r0, claim, uploads, n - 1);
      var (r, p) := Turns(r0, p0, n - 1);
      if p.pc == Failed {
        StaysFailed(r0, p0, n - 1, r, p);
      } else {
        hide Faithful, Turns;
        StaysFaithful(r0, p0, n - 1, r, p);
        FaithfulParts(r0, p0, n, Advance(r, p).0, Advance(r, p).1);
      }
    }
  }

  lemma StaysFailed(r0: Remote, p0: Publisher, n: nat, r: Remote, p: Publisher)
    requires Faithful(r0, p0, n, r, p) && p.pc == Failed
    ensures Turns(r0, p0, n + 1) == (r, p) && Faithful(r0, p0, n + 1, r, p)
  {
    hide Ready, KnownAlone, Out, HiddenAreDrafts, Formed;
  }

  /** A publisher with nobody else about finishes exactly when the remote it starts on is ready for it. */
  lemma FinishesIffReady(r0: Remote, claim: Claim, uploads: map<string, Data>)
    requires Formed(claim, uploads)
    ensures (exists n: nat :: Turns(r0, Started(claim, uploads), n).1.pc.Finished?) <==> Ready(r0, claim)
  {
    hide Formed, Ready, Turns, Faithful, Out;
    var p0 := Started(claim, uploads);
    StartsFaithful(r0, p0);
    if Ready(r0, claim) {
      var n := GetsThrough(r0, p0, 0, r0, p0);
      assert Turns(r0, p0, n).1.pc.Finished?;
    }
    forall n: nat | Turns(r0, p0, n).1.pc.Finished? ensures Ready(r0, claim) {
      TurnsAreFaithful(r0, claim, uploads, n);
      var (r, p) := Turns(r0, p0, n);
      FinishedIsOut(r0, p0, n, r, p);
      OutIsReady(r, p.claim);
      ReadyAsBefore(r0, p0, n, r, p);
    }
  }

  lemma ReadyAsBefore(r0: Remote, p0: Publisher, n: nat, r: Remote, p: Publisher)
    requires Faithful(r0, p0, n, r, p)
    ensures p.claim == p0.claim && (Ready(r, p.claim) <==> Ready(r0, p.claim))
  {
    hide Ready, KnownAlone, Out, HiddenAreDrafts;
  }

  /** A publication leaves one published release of its version exactly when, before it began, all that
      the page did not show of the version were drafts. */
  lemma OneLiveAfterIff(r0: Remote, claim: Claim, uploads: map<string, Data>, n: nat)
    requires Formed(claim, uploads) && Turns(r0, Started(claim, uploads), n).1.pc.Finished?
    ensures OneLive(Turns(r0, Started(claim, uploads), n).0, claim.identity.version) <==> HiddenAreDrafts(r0.releases, claim.identity.version)
  {
    hide Formed, Ready, Turns, Faithful, Out, OneLive, HiddenAreDrafts;
    var p0 := Started(claim, uploads);
    TurnsAreFaithful(r0, claim, uploads, n);
    var (r, p) := Turns(r0, p0, n);
    FinishedIsOut(r0, p0, n, r, p);
    ReadyAsBefore(r0, p0, n, r, p);
    HiddenAsBefore(r0, p0, n, r, p);
    OneLiveIff(r, claim, p.pc.id);
  }

  // ---------------------------------------------------------------- two releases of one version

  /** The claim's assets as the uploads make them. */
  function Assets(claim: Claim, uploads: map<string, Data>): (r: seq<Asset>)
    requires Formed(claim, uploads)
    ensures |r| == |claim.assets|
    ensures forall i :: 0 <= i < |r| ==> Good(r[i], claim.assets[i])
  {
    seq(|claim.assets|, i requires 0 <= i < |claim.assets| =>
      Asset(claim.assets[i].file, |uploads[claim.assets[i].file]|, true, uploads[claim.assets[i].file]))
  }

  /** The claim's release as this very protocol publishes it, and a page full of releases of another
      version that came after it. */
  function Crowded(claim: Claim, uploads: map<string, Data>, other: string): Remote
    requires Formed(claim, uploads)
  {
    var release := Draft(claim).(draft := false, assets := Assets(claim, uploads));
    Remote(map[claim.identity.version := Annotated(ClaimTag(claim))], [release] + seq(PAGE, _ => release.(version := other)))
  }

  lemma CrowdedReleases(claim: Claim, uploads: map<string, Data>, other: string)
    requires Formed(claim, uploads) && other != claim.identity.version
    ensures var r := Crowded(claim, uploads, other);
            && |r.releases| == PAGE + 1 && Listed(r.releases, claim.identity.version) == []
            && Published(r, claim.identity.version, 0) && OneLive(r, claim.identity.version)
            && !HiddenAreDrafts(r.releases, claim.identity.version)
  {
    var r := Crowded(claim, uploads, other);
    assert forall k :: 1 <= k <= PAGE ==> r.releases[k].version == other;
    MatchingNone(r.releases, claim.identity.version, 1, PAGE + 1);
    assert r.releases[0].version == claim.identity.version && !r.releases[0].draft;
  }

  lemma CrowdedIsReady(claim: Claim, uploads: map<string, Data>, other: string)
    requires Formed(claim, uploads) && other != claim.identity.version
    ensures Ready(Crowded(claim, uploads, other), claim)
  {
    hide Listed, Formed;
    CrowdedReleases(claim, uploads, other);
  }

  lemma CrowdedIsPublished(claim: Claim, uploads: map<string, Data>, other: string)
    requires Formed(claim, uploads)
    ensures var r := Crowded(claim, uploads, other);
            TagIs(r.refs, claim) && ReleaseMatches(r.releases[0], claim) && Complete(r.releases[0].assets, claim)
  {
    var assets := Assets(claim, uploads);
    assert Crowded(claim, uploads, other).releases[0].assets == assets;
    assert forall i :: 0 <= i < |assets| ==> Claimed(claim, assets[i].name) && Present(assets, claim.assets[i]);
  }

  /** A release published in full, then a page full of others: publishing the same claim again does not
      find it, and gets a second release of the version out of draft. */
  lemma PageHidesRelease(claim: Claim, uploads: map<string, Data>, other: string) returns (n: nat)
    requires Formed(claim, uploads) && other != claim.identity.version
    ensures var (before, after) := (Crowded(claim, uploads, other), Turns(Crowded(claim, uploads, other), Started(claim, uploads), n));
            && TagIs(before.refs, claim) && ReleaseMatches(before.releases[0], claim) && Complete(before.releases[0].assets, claim)
            && !before.releases[0].draft && OneLive(before, claim.identity.version) && Ready(before, claim)
            && after.1.pc.Finished? && Out(after.0, claim, after.1.pc.id) && !OneLive(after.0, claim.identity.version)
  {
    hide Formed, Ready, Turns, Out, OneLive, HiddenAreDrafts, Listed, Complete, Crowded, Faithful, TagIs, ReleaseMatches;
    var r, p := Crowded(claim, uploads, other), Started(claim, uploads);
    CrowdedReleases(claim, uploads, other);
    CrowdedIsReady(claim, uploads, other);
    CrowdedIsPublished(claim, uploads, other);
    StartsFaithful(r, p);
    n := GetsThrough(r, p, 0, r, p);
    var (r', p') := Turns(r, p, n);
    FaithfulParts(r, p, n, r', p');
    FinishedIsOut(r, p, n, r', p');
    HiddenAsBefore(r, p, n, r', p');
    OneLiveIff(r', claim, p'.pc.id);
  }
}
