/** Replacing the SDK's dist directory with a validated candidate, with rollback. Every operation on the
    file system may fail, and someone else may put a directory where one was just moved away. */
module SdkDist {
  import opened Outcomes

  datatype Directory = Directory(identity: nat, files: map<string, string>)

  /** How a publication ends: published; published with its stage left behind; failed and rolled back; or
      failed with the rollback failing too. */
  datatype Ending = Published | StageLeft | RolledBack | RollbackFailed

  class Project {
    var dist: Option<Directory>
    var backup: Option<Directory>
    var staged: Option<Directory>
    /** The directory someone else put at dist, if anyone did. */
    ghost var theirs: Option<Directory>
    /** Under quiet nothing fails and nobody else uses a gap. */
    var quiet: bool

    constructor (dist: Option<Directory>, quiet: bool)
      ensures this.dist == dist && backup.None? && staged.None? && theirs.None? && this.quiet == quiet
    {
      this.dist, backup, staged, theirs, this.quiet := dist, None, None, None, quiet;
    }

    /** Someone else's directory is at dist, none of those named. */
    ghost predicate Taken(known: set<nat>)
      reads this
    {
      theirs.Some? && dist == theirs && dist.value.identity !in known
    }

    /** Someone else's directory is none of those named and, unless it is empty, where they put it. */
    ghost predicate Respected(known: set<nat>)
      reads this
    {
      && (theirs.Some? ==> theirs.value.identity !in known)
      && (theirs.Some? && theirs.value.files != map[] ==> dist == theirs)
    }

    /** Someone else may use the gap. */
    method Gap(known: set<nat>)
      requires dist.None?
      modifies this`dist, this`theirs
      ensures (dist.None? && theirs == old(theirs)) || (!quiet && Taken(known))
    {
      var taken := *;
      var directory: Directory := *;
      if !quiet && taken && directory.identity !in known {
        dist, theirs := Some(directory), Some(directory);
      }
    }

    method Fails() returns (failed: bool)
      ensures quiet ==> !failed
    {
      failed := *;
      failed := failed && !quiet;
    }

    /** renameSync(dist, backup) */
    method MoveAside(known: set<nat>) returns (ok: bool)
      requires dist.Some? && backup.None?
      modifies this`dist, this`backup, this`theirs
      ensures !ok ==> dist == old(dist) && backup.None? && theirs == old(theirs) && !quiet
      ensures ok ==> backup == old(dist) && ((dist.None? && theirs == old(theirs)) || (!quiet && Taken(known)))
    {
      var failed := Fails();
      if failed { return false; }
      backup, dist := dist, None;
      Gap(known);
      return true;
    }

    /** renameSync of a directory to dist, which fails when something is there; on some systems it does not
        when that is an empty directory, and takes its place. */
    method MoveToDist(from: Option<Directory>, known: set<nat>) returns (ok: bool)
      requires from.Some? && dist.None? && Respected(known)
      modifies this`dist, this`theirs
      ensures Respected(known) && (old(theirs).Some? ==> theirs.Some?)
      ensures ok ==> dist == from && (quiet ==> theirs == old(theirs))
      ensures !ok ==> !quiet
      ensures !ok ==> (dist.None? && theirs == old(theirs)) || Taken(known)
    {
      Gap(known);
      var failed := Fails();
      var givesWay := *;
      if failed || (dist.Some? && (dist.value.files != map[] || !givesWay)) { return false; }
      dist := from;
      return true;
    }

    function Known(candidate: Directory, prior: Option<Directory>): set<nat> {
      {candidate.identity} + if prior.Some? then {prior.value.identity} else {}
    }

    /** Where things are once publication has failed: the prior directory where it was or at the backup, the
        candidate on its stage or, when that was tried, at dist. */
    ghost predicate Interrupted(candidate: Directory, prior: Option<Directory>, moved: bool, issued: bool)
      reads this
    {
      && (if moved then prior.Some? && backup == prior else backup.None?)
      && (staged == Some(candidate) || (staged.None? && dist == Some(candidate) && issued && (moved <==> prior.Some?)))
      && (staged.Some? ==>
            if moved || prior.None? then dist.None? || Taken(Known(candidate, prior)) else dist == prior && !issued)
    }

    /** The steps that may fail, up to the candidate standing at dist. */
    method Replace(candidate: Directory) returns (ok: bool, moved: bool, issued: bool)
      requires staged == Some(candidate) && backup.None? && theirs.None? && (dist.Some? ==> dist.value.identity != candidate.identity)
      modifies this
      ensures quiet == old(quiet) && (quiet ==> ok && theirs.None?) && Respected(Known(candidate, old(dist)))
      ensures ok ==> dist == Some(candidate) && backup == old(dist) && staged.None?
      ensures !ok ==> Interrupted(candidate, old(dist), moved, issued)
    {
      moved, issued := false, false;
      var known := Known(candidate, dist);
      var failed := Fails();
      if failed { return false, moved, issued; }
      if dist.Some? {
        moved := MoveAside(known);
        if !moved { return false, moved, issued; }
        failed := Fails();
        if failed { return false, moved, issued; }
      }
      if dist.Some? { return false, moved, issued; }
      issued := true;
      var placed := MoveToDist(staged, known);
      if !placed { return false, moved, issued; }
      staged := None;
      failed := Fails();
      return !failed, moved, issued;
    }

    /** The catch block: the candidate goes back to its stage, then the prior directory to dist, unless
        someone else's directory is there. */
    method RollBack(candidate: Directory, prior: Option<Directory>, moved: bool, issued: bool) returns (ok: bool)
      requires Interrupted(candidate, prior, moved, issued) && (prior.Some? ==> prior.value.identity != candidate.identity)
      requires Respected(Known(candidate, prior))
      modifies this
      ensures Respected(Known(candidate, prior))
      ensures old(dist).Some? && old(dist).value.identity != candidate.identity ==>
                dist == old(dist) && backup == old(backup) && staged == old(staged) && theirs == old(theirs)
      ensures prior.Some? ==> dist == prior || backup == prior
      ensures ok ==> (dist == prior && backup.None?) || Taken(Known(candidate, prior))
      ensures quiet == old(quiet) && (old(theirs).Some? ==> theirs.Some?)
      ensures quiet ==> ok && (old(theirs).None? ==> dist == prior && backup.None? && staged == Some(candidate))
    {
      var known := Known(candidate, prior);
      if issued && dist.Some? {
        var failed := Fails();
        if failed { return false; }
        if dist.value.identity == candidate.identity {
          failed := Fails();
          if failed { return false; }
          staged, dist := dist, None;
          Gap(known);
        }
      }
      if moved && dist.None? {
        var restored := MoveToDist(backup, known);
        if !restored { return false; }
        backup := None;
      }
      return true;
    }

    /** publishSdkTestInputs, from the moment the candidate is staged. Wherever it fails the prior directory is
        at dist or at the backup; if the rollback succeeds and nobody else took the place, dist is as it was;
        and an end without failure leaves exactly the candidate there. When nothing fails it is published; when
        nothing fails once it has to roll back, it does. */
    method Publish(candidate: Directory, quietRollBack: bool) returns (ending: Ending)
      requires staged == Some(candidate) && backup.None? && theirs.None? && (dist.Some? ==> dist.value.identity != candidate.identity)
      modifies this
      ensures old(dist).Some? ==> dist == old(dist) || backup == old(dist)
      ensures Respected(Known(candidate, old(dist)))
      ensures ending == Published || ending == StageLeft ==> dist == Some(candidate) && backup == old(dist)
      ensures ending == RolledBack && theirs.None? ==> dist == old(dist) && backup.None?
      ensures ending == RolledBack ==> dist != Some(candidate)
      ensures old(quiet) ==> ending == Published && theirs.None? && staged.None?
      ensures quietRollBack ==> ending != RollbackFailed
      ensures quietRollBack && ending == RolledBack && theirs.None? ==> staged == Some(candidate)
    {
      var prior := dist;
      var ok, moved, issued := Replace(candidate);
      if !ok {
        quiet := quietRollBack;
        var restored := RollBack(candidate, prior, moved, issued);
        return if restored then RolledBack else RollbackFailed;
      }
      var failed := Fails();
      return if failed then StageLeft else Published;
    }
  }
}
