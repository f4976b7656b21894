/** Joining the dispatch intents of a release request with the provider runs observed for it, by time
    windows in integer milliseconds. */
module DispatchJoin {
  import opened Collections
  import opened Outcomes
  import opened Paths

  datatype Intent = Intent(request: string, path: string, source: string, repository: int, workflow: int, issued: int,
                           prior: seq<string>, known: Option<string>)

  /** created is missing when the timestamp does not parse. */
  datatype Run = Run(id: string, actual: bool, source: string, repository: int, workflow: int, created: Option<int>)

  datatype Assignment = Assignment(path: string, run: string, source: string, repository: int, workflow: int)

  datatype Reason = ForeignIntent | InvalidIntents | SameInstant | DuplicateRuns | AmbiguousRun | SeveralRuns | RunTakenTwice | OrphanRun

  datatype JoinResult = Eligible(assignments: seq<Assignment>, unmatched: seq<string>) | Blocked(reason: Reason)

  const SLACK := 5000
  const GRACE := 1000

  // ---------------------------------------------------------------- windows

  /** matchesDispatchIntentRun */
  predicate Matches(i: Intent, r: Run, lower: int, upper: int) {
    && r.actual && r.source == i.source && r.repository == i.repository && r.workflow == i.workflow
    && r.id !in i.prior && (i.known.Some? ==> i.known.value == r.id)
    && r.created.Some? && lower <= r.created.value <= upper
  }

  /** The window an intent could account for on its own. */
  predicate Wide(i: Intent, r: Run, observed: int) {
    Matches(i, r, i.issued - SLACK, observed + GRACE)
  }

  function Upper(s: seq<Intent>, k: nat, observed: int): int
    requires k < |s|
  {
    if k + 1 < |s| then s[k + 1].issued - SLACK else observed + GRACE
  }

  /** The window of the k-th intent, which ends where the next one's begins. */
  predicate Narrow(s: seq<Intent>, k: nat, r: Run, observed: int)
    requires k < |s|
  {
    Matches(s[k], r, s[k].issued - SLACK, Upper(s, k, observed))
  }

  // ---------------------------------------------------------------- sorting

  predicate Earlier(a: Intent, b: Intent) {
    a.issued < b.issued || (a.issued == b.issued && LexLess(a.path, b.path))
  }

  function Insert(i: Intent, sorted: seq<Intent>): (r: seq<Intent>)
    ensures multiset(r) == multiset(sorted) + multiset{i}
  {
    if sorted == [] then [i]
    else if Earlier(sorted[0], i) then
      assert sorted == [sorted[0]] + sorted[1..];
      [sorted[0]] + Insert(i, sorted[1..])
    else [i] + sorted
  }

  function Sort(intents: seq<Intent>): (r: seq<Intent>)
    ensures multiset(r) == multiset(intents)
  {
    if intents == [] then []
    else
      assert intents == [intents[0]] + intents[1..];
      Insert(intents[0], Sort(intents[1..]))
  }

  function PathsOf(s: seq<Intent>): (r: seq<string>)
    ensures |r| == |s| && forall k :: 0 <= k < |s| ==> r[k] == s[k].path
  {
    seq(|s|, k requires 0 <= k < |s| => s[k].path)
  }

  function IdsOf(runs: seq<Run>): (r: seq<string>)
    ensures |r| == |runs| && forall k :: 0 <= k < |runs| ==> r[k] == runs[k].id
  {
    seq(|runs|, k requires 0 <= k < |runs| => runs[k].id)
  }

  // ---------------------------------------------------------------- when a join is eligible

  /** Two neighbours that nothing could tell apart. */
  predicate Twins(a: Intent, b: Intent) {
    && a.issued == b.issued && a.source == b.source && a.repository == b.repository && a.workflow == b.workflow
    && (a.known.None? || a.known == b.known)
  }

  ghost predicate NoTwins(s: seq<Intent>) {
    forall k :: 0 <= k < |s| - 1 ==> !Twins(s[k], s[k + 1])
  }

  /** No run could belong to two intents, going by the wide windows. */
  ghost predicate Unambiguous(s: seq<Intent>, runs: seq<Run>, observed: int) {
    forall r :: r in runs ==> OneIntent(s, r, observed)
  }

  ghost predicate OneIntent(s: seq<Intent>, r: Run, observed: int) {
    forall i, j :: 0 <= i < |s| && 0 <= j < |s| && Wide(s[i], r, observed) && Wide(s[j], r, observed) ==> i == j
  }

  ghost predicate AtMostOneRun(s: seq<Intent>, k: nat, runs: seq<Run>, observed: int)
    requires k < |s|
  {
    forall r, q :: r in runs && q in runs && Narrow(s, k, r, observed) && Narrow(s, k, q, observed) ==> r == q
  }

  ghost predicate TakenOnce(s: seq<Intent>, r: Run, observed: int) {
    forall i, j :: 0 <= i < |s| && 0 <= j < |s| && Narrow(s, i, r, observed) && Narrow(s, j, r, observed) ==> i == j
  }

  ghost predicate Taken(s: seq<Intent>, r: Run, observed: int) {
    exists i :: 0 <= i < |s| && Narrow(s, i, r, observed)
  }

  /** The runs and some of the intents pair off by the narrow windows, nobody left out among the runs. */
  ghost predicate Pairs(s: seq<Intent>, runs: seq<Run>, observed: int) {
    && (forall k :: 0 <= k < |s| ==> AtMostOneRun(s, k, runs, observed))
    && (forall r :: r in runs ==> TakenOnce(s, r, observed) && Taken(s, r, observed))
  }

  ghost predicate Joinable(request: string, intents: seq<Intent>, runs: seq<Run>, observed: int) {
    && (forall i :: i in intents ==> i.request == request)
    && Distinct(PathsOf(intents)) && Distinct(IdsOf(runs))
    && NoTwins(Sort(intents)) && Unambiguous(Sort(intents), runs, observed) && Pairs(Sort(intents), runs, observed)
  }

  /** What is asked of the intents alone. */
  ghost predicate IntentsFine(request: string, intents: seq<Intent>) {
    (forall i :: i in intents ==> i.request == request) && Distinct(PathsOf(intents)) && NoTwins(Sort(intents))
  }

  // ---------------------------------------------------------------- what it yields

  function Candidates(s: seq<Intent>, k: nat, runs: seq<Run>, observed: int): (r: seq<Run>)
    requires k < |s|
    ensures forall x :: x in r <==> x in runs && Narrow(s, k, x, observed)
    ensures Distinct(IdsOf(runs)) ==> Distinct(IdsOf(r))
    decreases |runs|
  {
    if runs == [] then []
    else
      var front := runs[..|runs| - 1];
      var last := runs[|runs| - 1];
      var rest := Candidates(s, k, front, observed);
      assert forall x :: x in runs <==> x in front || x == last;
      assert Distinct(IdsOf(runs)) ==> Distinct(IdsOf(front)) && forall x :: x in front ==> x.id != last.id by {
        assert forall i :: 0 <= i < |front| ==> IdsOf(runs)[i] == IdsOf(front)[i];
      }
      if Narrow(s, k, last, observed) then
        assert Distinct(IdsOf(runs)) ==> forall i :: 0 <= i < |rest| ==> rest[i] in front;
        rest + [last]
      else rest
  }

  function Assign(i: Intent, r: Run): Assignment {
    Assignment(i.path, r.id, i.source, i.repository, i.workflow)
  }

  /** The assignments of the first n intents, in their order. */
  function Assignments(s: seq<Intent>, n: nat, runs: seq<Run>, observed: int): seq<Assignment>
    requires n <= |s|
  {
    if n == 0 then []
    else
      var candidates := Candidates(s, n - 1, runs, observed);
      Assignments(s, n - 1, runs, observed) + if candidates == [] then [] else [Assign(s[n - 1], candidates[0])]
  }

  function Unmatched(s: seq<Intent>, n: nat, runs: seq<Run>, observed: int): seq<string>
    requires n <= |s|
  {
    if n == 0 then []
    else Unmatched(s, n - 1, runs, observed) + if Candidates(s, n - 1, runs, observed) == [] then [s[n - 1].path] else []
  }

  // ---------------------------------------------------------------- the join

  method HasTwins(s: seq<Intent>) returns (found: bool)
    ensures found <==> !NoTwins(s)
  {
    var k := 0;
    while k + 1 < |s|
      invariant 0 <= k && forall j :: 0 <= j < k && j + 1 < |s| ==> !Twins(s[j], s[j + 1])
    {
      if Twins(s[k], s[k + 1]) { return true; }
      k := k + 1;
    }
    return false;
  }

  /** Counts the intents whose wide window admits a run, as filter does. */
  function Plausible(s: seq<Intent>, r: Run, observed: int): nat {
    if s == [] then 0 else Plausible(s[..|s| - 1], r, observed) + if Wide(s[|s| - 1], r, observed) then 1 else 0
  }

  lemma {:induction false} PlausibleCounts(s: seq<Intent>, r: Run, observed: int)
    ensures Plausible(s, r, observed) == 0 <==> forall i :: 0 <= i < |s| ==> !Wide(s[i], r, observed)
    ensures Plausible(s, r, observed) <= 1 <==> OneIntent(s, r, observed)
  {
    if s != [] {
      var n := |s| - 1;
      var front := s[..n];
      PlausibleCounts(front, r, observed);
      assert forall i :: 0 <= i < n ==> front[i] == s[i];
      if Wide(s[n], r, observed) && Plausible(front, r, observed) > 0 {
        var i :| 0 <= i < n && Wide(front[i], r, observed);
        assert Wide(s[i], r, observed);
      }
      if Plausible(front, r, observed) > 1 {
        var i, j :| 0 <= i < n && 0 <= j < n && Wide(front[i], r, observed) && Wide(front[j], r, observed) && i != j;
        assert Wide(s[i], r, observed) && Wide(s[j], r, observed);
      }
    }
  }

  method HasAmbiguousRun(s: seq<Intent>, runs: seq<Run>, observed: int) returns (found: bool)
    ensures found <==> !Unambiguous(s, runs, observed)
  {
    for k := 0 to |runs|
      invariant forall m :: 0 <= m < k ==> OneIntent(s, runs[m], observed)
    {
      PlausibleCounts(s, runs[k], observed);
      if Plausible(s, runs[k], observed) > 1 {
        assert runs[k] in runs;
        return true;
      }
    }
    return false;
  }

  lemma SameRun(runs: seq<Run>, r: Run, q: Run)
    requires Distinct(IdsOf(runs)) && r in runs && q in runs && r.id == q.id
    ensures r == q
  {
    var i :| 0 <= i < |runs| && runs[i] == r;
    var j :| 0 <= j < |runs| && runs[j] == q;
    assert IdsOf(runs)[i] == IdsOf(runs)[j];
  }

  lemma SoloIff(s: seq<Intent>, k: nat, runs: seq<Run>, observed: int)
    requires k < |s| && Distinct(IdsOf(runs))
    ensures |Candidates(s, k, runs, observed)| <= 1 <==> AtMostOneRun(s, k, runs, observed)
    ensures forall i :: 0 <= i < |Candidates(s, k, runs, observed)| ==>
              Candidates(s, k, runs, observed)[i] in runs && Narrow(s, k, Candidates(s, k, runs, observed)[i], observed)
  {
    var c := Candidates(s, k, runs, observed);
    assert forall i :: 0 <= i < |c| ==> c[i] in c;
    if |c| > 1 {
      assert IdsOf(c)[0] != IdsOf(c)[1];
      assert c[0] in runs && c[1] in runs && c[0] != c[1];
    } else {
      forall r, q | r in runs && q in runs && Narrow(s, k, r, observed) && Narrow(s, k, q, observed) ensures r == q {
        assert r in c && q in c;
      }
    }
  }

  /** The run claimed to the k-th intent, if any. */
  ghost predicate Gets(s: seq<Intent>, k: nat, runs: seq<Run>, observed: int, id: string)
    requires k < |s|
  {
    exists r :: r in runs && Narrow(s, k, r, observed) && r.id == id
  }

  ghost predicate AssignedTo(s: seq<Intent>, n: nat, runs: seq<Run>, observed: int, id: string)
    requires n <= |s|
  {
    exists k :: 0 <= k < n && Gets(s, k, runs, observed, id)
  }

  /** No run is taken by two of the first n intents. */
  ghost predicate TakenOnceUpTo(s: seq<Intent>, n: nat, runs: seq<Run>, observed: int)
    requires n <= |s|
  {
    forall r, i, j :: r in runs && 0 <= i < n && 0 <= j < n && Narrow(s, i, r, observed) && Narrow(s, j, r, observed) ==> i == j
  }

  ghost predicate RunTwice(s: seq<Intent>, runs: seq<Run>, observed: int) {
    exists r :: r in runs && !TakenOnce(s, r, observed)
  }

  /** One more intent, which takes a run, or finds it taken. */
  lemma TakeNext(s: seq<Intent>, k: nat, runs: seq<Run>, observed: int, run: Run)
    requires k < |s| && Distinct(IdsOf(runs)) && AtMostOneRun(s, k, runs, observed) && TakenOnceUpTo(s, k, runs, observed)
    requires run in runs && Narrow(s, k, run, observed)
    ensures AssignedTo(s, k, runs, observed, run.id) ==> !TakenOnce(s, run, observed)
    ensures !AssignedTo(s, k, runs, observed, run.id) ==> TakenOnceUpTo(s, k + 1, runs, observed)
    ensures forall id :: AssignedTo(s, k + 1, runs, observed, id) <==> AssignedTo(s, k, runs, observed, id) || id == run.id
  {
    if AssignedTo(s, k, runs, observed, run.id) {
      var m :| 0 <= m < k && Gets(s, m, runs, observed, run.id);
      var q :| q in runs && Narrow(s, m, q, observed) && q.id == run.id;
      SameRun(runs, q, run);
    } else {
      forall r, i | r in runs && 0 <= i < k && Narrow(s, i, r, observed) && Narrow(s, k, r, observed) ensures false {
        assert Gets(s, i, runs, observed, r.id);
      }
    }
    assert Gets(s, k, runs, observed, run.id);
    forall id ensures AssignedTo(s, k + 1, runs, observed, id) <==> AssignedTo(s, k, runs, observed, id) || id == run.id {
      assert Gets(s, k, runs, observed, id) ==> id == run.id;
    }
  }

  lemma SkipNext(s: seq<Intent>, k: nat, runs: seq<Run>, observed: int)
    requires k < |s| && Candidates(s, k, runs, observed) == [] && TakenOnceUpTo(s, k, runs, observed)
    ensures TakenOnceUpTo(s, k + 1, runs, observed)
    ensures forall id :: AssignedTo(s, k + 1, runs, observed, id) <==> AssignedTo(s, k, runs, observed, id)
  {
    var none := Candidates(s, k, runs, observed);
    assert forall r :: r in runs && Narrow(s, k, r, observed) ==> r in none;
    assert forall id :: !Gets(s, k, runs, observed, id);
  }

  lemma AllTaken(s: seq<Intent>, runs: seq<Run>, observed: int, claimed: set<string>)
    requires Distinct(IdsOf(runs)) && forall id :: id in claimed <==> AssignedTo(s, |s|, runs, observed, id)
    ensures (forall r :: r in runs ==> r.id in claimed) <==> (forall r :: r in runs ==> Taken(s, r, observed))
  {
    forall r | r in runs ensures r.id in claimed <==> Taken(s, r, observed) {
      if r.id in claimed {
        var k :| 0 <= k < |s| && Gets(s, k, runs, observed, r.id);
        var q :| q in runs && Narrow(s, k, q, observed) && q.id == r.id;
        SameRun(runs, q, r);
      }
      if Taken(s, r, observed) {
        var k :| 0 <= k < |s| && Narrow(s, k, r, observed);
        assert Gets(s, k, runs, observed, r.id);
      }
    }
  }

  /** joinReleaseDispatchIntents */
  method Join(request: string, intents: seq<Intent>, runs: seq<Run>, observed: int) returns (result: JoinResult)
    ensures result.Eligible? <==> Joinable(request, intents, runs, observed)
    ensures result.Eligible? ==> result.assignments == Assignments(Sort(intents), |Sort(intents)|, runs, observed)
    ensures result.Eligible? ==> result.unmatched == Unmatched(Sort(intents), |Sort(intents)|, runs, observed)
    ensures result == Blocked(RunTakenTwice) ==> Unambiguous(Sort(intents), runs, observed) && RunTwice(Sort(intents), runs, observed)
    ensures IntentsFine(request, intents) && Passes(Sort(intents), runs, observed) && RunTwice(Sort(intents), runs, observed) ==>
              result == Blocked(RunTakenTwice)
  {
    hide Matches, Assignments, Unmatched, TakenOnceUpTo, AssignedTo, Twins, OneIntent, AtMostOneRun, TakenOnce, Taken;
    if exists i :: i in intents && i.request != request { return Blocked(ForeignIntent); }
    var s := Sort(intents);
    SortedPaths(intents);
    DistinctBySize(PathsOf(s));
    if |Members(PathsOf(s))| != |s| { return Blocked(InvalidIntents); }
    var twins := HasTwins(s);
    if twins { return Blocked(SameInstant); }
    DistinctBySize(IdsOf(runs));
    if |Members(IdsOf(runs))| != |runs| { return Blocked(DuplicateRuns); }
    var ambiguous := HasAmbiguousRun(s, runs, observed);
    if ambiguous { return Blocked(AmbiguousRun); }
    result := Match(s, runs, observed);
  }

  /** The assignment loop, on sorted intents and a duplicate-free set of runs. */
  method Match(s: seq<Intent>, runs: seq<Run>, observed: int) returns (result: JoinResult)
    requires Distinct(IdsOf(runs))
    ensures result.Eligible? <==> Pairs(s, runs, observed)
    ensures result.Eligible? ==> result.assignments == Assignments(s, |s|, runs, observed) && result.unmatched == Unmatched(s, |s|, runs, observed)
    ensures result == Blocked(RunTakenTwice) ==> RunTwice(s, runs, observed)
    ensures (forall k :: 0 <= k < |s| ==> AtMostOneRun(s, k, runs, observed)) && RunTwice(s, runs, observed) ==> result == Blocked(RunTakenTwice)
  {
    hide Matches, TakenOnceUpTo, AssignedTo, TakenOnce, Taken, AtMostOneRun, Candidates;
    var claimed: set<string> := {};
    var assignments: seq<Assignment>, unmatched: seq<string> := [], [];
    StartTaken(s, runs, observed);
    for k := 0 to |s|
      invariant assignments == Assignments(s, k, runs, observed) && unmatched == Unmatched(s, k, runs, observed)
      invariant forall j :: 0 <= j < k ==> AtMostOneRun(s, j, runs, observed)
      invariant TakenOnceUpTo(s, k, runs, observed)
      invariant forall id :: id in claimed <==> AssignedTo(s, k, runs, observed, id)
    {
      var candidates := Candidates(s, k, runs, observed);
      SoloIff(s, k, runs, observed);
      if |candidates| > 1 { return Blocked(SeveralRuns); }
      if |candidates| == 0 {
        unmatched := unmatched + [s[k].path];
        SkipNext(s, k, runs, observed);
      } else {
        var run := candidates[0];
        TakeNext(s, k, runs, observed, run);
        if run.id in claimed { return Blocked(RunTakenTwice); }
        claimed := claimed + {run.id};
        assignments := assignments + [Assign(s[k], run)];
      }
    }
    TakenOnceByAll(s, runs, observed);
    AllTaken(s, runs, observed, claimed);
    if exists r :: r in runs && r.id !in claimed { return Blocked(OrphanRun); }
    return Eligible(assignments, unmatched);
  }

  lemma StartTaken(s: seq<Intent>, runs: seq<Run>, observed: int)
    ensures TakenOnceUpTo(s, 0, runs, observed) && forall id :: !AssignedTo(s, 0, runs, observed, id)
  {
  }

  lemma TakenOnceByAll(s: seq<Intent>, runs: seq<Run>, observed: int)
    requires TakenOnceUpTo(s, |s|, runs, observed)
    ensures forall r :: r in runs ==> TakenOnce(s, r, observed)
  {
  }

  lemma SortedPaths(intents: seq<Intent>)
    ensures Distinct(PathsOf(Sort(intents))) <==> Distinct(PathsOf(intents))
    ensures |Sort(intents)| == |intents| && forall i :: i in Sort(intents) <==> i in intents
  {
    var s := Sort(intents);
    SameMultisetMembers(s, intents);
    DistinctBySize(PathsOf(s));
    DistinctBySize(PathsOf(intents));
    forall p ensures p in PathsOf(s) <==> p in PathsOf(intents) {
      PathOfSome(s, p);
      PathOfSome(intents, p);
    }
    assert Members(PathsOf(s)) == Members(PathsOf(intents));
  }

  lemma PathOfSome(s: seq<Intent>, p: string)
    ensures p in PathsOf(s) <==> exists i :: i in s && i.path == p
  {
    if p in PathsOf(s) {
      var k :| 0 <= k < |s| && PathsOf(s)[k] == p;
      assert s[k] in s;
    }
    if i: Intent :| i in s && i.path == p {
      var k :| 0 <= k < |s| && s[k] == i;
      assert PathsOf(s)[k] == p;
    }
  }

  // ---------------------------------------------------------------- what eligibility means

  ghost predicate IsAssignment(s: seq<Intent>, n: nat, runs: seq<Run>, observed: int, a: Assignment)
    requires n <= |s|
  {
    exists k, r :: 0 <= k < n && r in runs && Narrow(s, k, r, observed) && a == Assign(s[k], r)
  }

  /** Who is assigned, intent by intent. */
  lemma {:induction false} AssignmentsAre(s: seq<Intent>, n: nat, runs: seq<Run>, observed: int)
    requires n <= |s| && Distinct(IdsOf(runs)) && Pairs(s, runs, observed)
    ensures forall a :: a in Assignments(s, n, runs, observed) <==> IsAssignment(s, n, runs, observed, a)
    decreases n
  {
    hide Matches, TakenOnce, Taken, Assign;
    if n > 0 {
      AssignmentsAre(s, n - 1, runs, observed);
      SoloIff(s, n - 1, runs, observed);
      var c := Candidates(s, n - 1, runs, observed);
      forall a ensures a in Assignments(s, n, runs, observed) <==> IsAssignment(s, n, runs, observed, a) {
        assert IsAssignment(s, n, runs, observed, a) <==>
               IsAssignment(s, n - 1, runs, observed, a) || exists r :: r in c && a == Assign(s[n - 1], r);
      }
    }
  }

  lemma {:induction false} UnmatchedAre(s: seq<Intent>, n: nat, runs: seq<Run>, observed: int)
    requires n <= |s|
    ensures forall p :: p in Unmatched(s, n, runs, observed) <==>
              exists k :: 0 <= k < n && s[k].path == p && Candidates(s, k, runs, observed) == []
    ensures |Assignments(s, n, runs, observed)| + |Unmatched(s, n, runs, observed)| == n
    decreases n
  {
    if n > 0 {
      UnmatchedAre(s, n - 1, runs, observed);
    }
  }

  function AssignedPaths(a: seq<Assignment>): (r: seq<string>)
    ensures |r| == |a| && forall k :: 0 <= k < |a| ==> r[k] == a[k].path
  {
    seq(|a|, k requires 0 <= k < |a| => a[k].path)
  }

  function AssignedRuns(a: seq<Assignment>): (r: seq<string>)
    ensures |r| == |a| && forall k :: 0 <= k < |a| ==> r[k] == a[k].run
  {
    seq(|a|, k requires 0 <= k < |a| => a[k].run)
  }

  lemma {:induction false} AssignmentsDistinct(s: seq<Intent>, n: nat, runs: seq<Run>, observed: int)
    requires n <= |s| && Distinct(PathsOf(s)) && Distinct(IdsOf(runs)) && Pairs(s, runs, observed)
    ensures Distinct(AssignedPaths(Assignments(s, n, runs, observed))) && Distinct(AssignedRuns(Assignments(s, n, runs, observed)))
    decreases n
  {
    hide Matches, Pairs, Candidates;
    if n > 0 {
      AssignmentsDistinct(s, n - 1, runs, observed);
      var before := Assignments(s, n - 1, runs, observed);
      forall m | 0 <= m < |before| && Candidates(s, n - 1, runs, observed) != []
        ensures before[m].path != s[n - 1].path && before[m].run != Candidates(s, n - 1, runs, observed)[0].id
      {
        NewAssignmentDiffers(s, n, runs, observed, before[m]);
      }
    }
  }

  lemma {:induction false} UnmatchedDistinct(s: seq<Intent>, n: nat, runs: seq<Run>, observed: int)
    requires n <= |s| && Distinct(PathsOf(s))
    ensures Distinct(Unmatched(s, n, runs, observed))
    decreases n
  {
    hide Matches, Candidates;
    if n > 0 {
      UnmatchedDistinct(s, n - 1, runs, observed);
      UnmatchedAre(s, n - 1, runs, observed);
      assert forall k :: 0 <= k < n - 1 ==> s[k].path != s[n - 1].path by {
        assert forall k :: 0 <= k < n - 1 ==> PathsOf(s)[k] != PathsOf(s)[n - 1];
      }
      assert s[n - 1].path !in Unmatched(s, n - 1, runs, observed);
    }
  }

  lemma NewAssignmentDiffers(s: seq<Intent>, n: nat, runs: seq<Run>, observed: int, a: Assignment)
    requires 0 < n <= |s| && Distinct(PathsOf(s)) && Distinct(IdsOf(runs)) && Pairs(s, runs, observed)
    requires a in Assignments(s, n - 1, runs, observed) && Candidates(s, n - 1, runs, observed) != []
    ensures a.path != s[n - 1].path && a.run != Candidates(s, n - 1, runs, observed)[0].id
  {
    AssignmentsAre(s, n - 1, runs, observed);
    SoloIff(s, n - 1, runs, observed);
    var run := Candidates(s, n - 1, runs, observed)[0];
    assert IsAssignment(s, n - 1, runs, observed, a);
    var k, r :| 0 <= k < n - 1 && r in runs && Narrow(s, k, r, observed) && a == Assign(s[k], r);
    assert PathsOf(s)[k] != PathsOf(s)[n - 1];
    assert TakenOnce(s, run, observed);
    if r.id == run.id {
      SameRun(runs, r, run);
    }
  }

  /** Every run has its assignment, none has two. */
  ghost predicate EachRunOnce(a: seq<Assignment>, runs: seq<Run>) {
    && Distinct(AssignedRuns(a))
    && forall id :: id in AssignedRuns(a) <==> id in IdsOf(runs)
  }

  /** Every intent has its assignment or is listed as unmatched, not both, and nothing is listed twice. */
  ghost predicate EachIntentOnce(a: seq<Assignment>, unmatched: seq<string>, intents: seq<Intent>) {
    && Distinct(AssignedPaths(a)) && Distinct(unmatched)
    && (forall p :: p in PathsOf(intents) <==> p in AssignedPaths(a) || p in unmatched)
    && (forall p :: p in unmatched ==> p !in AssignedPaths(a))
    && |a| + |unmatched| == |intents|
  }

  lemma PathAssigned(s: seq<Intent>, runs: seq<Run>, observed: int, k: nat)
    requires k < |s| && Distinct(PathsOf(s)) && Distinct(IdsOf(runs)) && Pairs(s, runs, observed)
    ensures s[k].path in AssignedPaths(Assignments(s, |s|, runs, observed)) <==> Candidates(s, k, runs, observed) != []
    ensures s[k].path in Unmatched(s, |s|, runs, observed) <==> Candidates(s, k, runs, observed) == []
  {
    AssignmentsAre(s, |s|, runs, observed);
    UnmatchedAre(s, |s|, runs, observed);
    hide Matches, Pairs, Assignments, Unmatched;
    var a, c := Assignments(s, |s|, runs, observed), Candidates(s, k, runs, observed);
    assert forall j :: 0 <= j < |s| && s[j].path == s[k].path ==> j == k by {
      assert forall j :: 0 <= j < |s| ==> PathsOf(s)[j] == s[j].path;
    }
    if c != [] {
      assert c[0] in c;
      assert IsAssignment(s, |s|, runs, observed, Assign(s[k], c[0]));
      var m :| 0 <= m < |a| && a[m] == Assign(s[k], c[0]);
      assert AssignedPaths(a)[m] == s[k].path;
    }
    if s[k].path in AssignedPaths(a) {
      var m :| 0 <= m < |a| && AssignedPaths(a)[m] == s[k].path;
      assert IsAssignment(s, |s|, runs, observed, a[m]);
      var j, r :| 0 <= j < |s| && r in runs && Narrow(s, j, r, observed) && a[m] == Assign(s[j], r);
      assert r in c;
    }
  }

  lemma RunAssigned(s: seq<Intent>, runs: seq<Run>, observed: int)
    requires Distinct(PathsOf(s)) && Distinct(IdsOf(runs)) && Pairs(s, runs, observed)
    ensures EachRunOnce(Assignments(s, |s|, runs, observed), runs)
  {
    var a := Assignments(s, |s|, runs, observed);
    AssignmentsAre(s, |s|, runs, observed);
    AssignmentsDistinct(s, |s|, runs, observed);
    forall id ensures id in AssignedRuns(a) <==> id in IdsOf(runs) {
      if id in AssignedRuns(a) {
        var m :| 0 <= m < |a| && AssignedRuns(a)[m] == id;
        assert IsAssignment(s, |s|, runs, observed, a[m]);
        var j, r :| 0 <= j < |s| && r in runs && Narrow(s, j, r, observed) && a[m] == Assign(s[j], r);
        var n :| 0 <= n < |runs| && runs[n] == r;
        assert IdsOf(runs)[n] == id;
      }
      if id in IdsOf(runs) {
        var n :| 0 <= n < |runs| && IdsOf(runs)[n] == id;
        assert runs[n] in runs && Taken(s, runs[n], observed);
        var j :| 0 <= j < |s| && Narrow(s, j, runs[n], observed);
        assert IsAssignment(s, |s|, runs, observed, Assign(s[j], runs[n]));
        var m :| 0 <= m < |a| && a[m] == Assign(s[j], runs[n]);
        assert AssignedRuns(a)[m] == id;
      }
    }
  }

  /** An eligible join pairs all the runs off with some of the intents, one to one, each pair within the
      intent's own window; the intents left over are those listed, and no run is in their window. */
  lemma JoinIsBijection(request: string, intents: seq<Intent>, runs: seq<Run>, observed: int)
    requires Joinable(request, intents, runs, observed)
    ensures var s := Sort(intents);
            var a, u := Assignments(s, |s|, runs, observed), Unmatched(s, |s|, runs, observed);
            && EachRunOnce(a, runs) && EachIntentOnce(a, u, intents)
            && (forall x :: x in a <==> IsAssignment(s, |s|, runs, observed, x))
            && (forall k :: 0 <= k < |s| ==> (s[k].path in u <==> forall r :: r in runs ==> !Narrow(s, k, r, observed)))
  {
    hide Pairs, Unambiguous, NoTwins, EachRunOnce;
    var s := Sort(intents);
    SortedPaths(intents);
    RunAssigned(s, runs, observed);
    AssignmentsAre(s, |s|, runs, observed);
    AssignmentsDistinct(s, |s|, runs, observed);
    UnmatchedDistinct(s, |s|, runs, observed);
    UnmatchedAre(s, |s|, runs, observed);
    forall k | 0 <= k < |s|
      ensures s[k].path in AssignedPaths(Assignments(s, |s|, runs, observed)) <==> s[k].path !in Unmatched(s, |s|, runs, observed)
      ensures s[k].path in Unmatched(s, |s|, runs, observed) <==> forall r :: r in runs ==> !Narrow(s, k, r, observed)
    {
      PathAssigned(s, runs, observed, k);
      EmptyCandidates(s, k, runs, observed);
    }
    IntentsOnce(s, intents, runs, observed);
  }

  lemma EmptyCandidates(s: seq<Intent>, k: nat, runs: seq<Run>, observed: int)
    requires k < |s|
    ensures Candidates(s, k, runs, observed) == [] <==> forall r :: r in runs ==> !Narrow(s, k, r, observed)
  {
    var c := Candidates(s, k, runs, observed);
    assert c != [] ==> c[0] in c;
  }

  lemma IntentsOnce(s: seq<Intent>, intents: seq<Intent>, runs: seq<Run>, observed: int)
    requires Distinct(PathsOf(s)) && Distinct(IdsOf(runs)) && Pairs(s, runs, observed) && s == Sort(intents)
    requires forall k :: 0 <= k < |s| ==>
               (s[k].path in AssignedPaths(Assignments(s, |s|, runs, observed)) <==> s[k].path !in Unmatched(s, |s|, runs, observed))
    ensures EachIntentOnce(Assignments(s, |s|, runs, observed), Unmatched(s, |s|, runs, observed), intents)
  {
    hide Pairs, Narrow, Sort;
    var a, u := Assignments(s, |s|, runs, observed), Unmatched(s, |s|, runs, observed);
    SortedPaths(intents);
    AssignmentsAre(s, |s|, runs, observed);
    AssignmentsDistinct(s, |s|, runs, observed);
    UnmatchedDistinct(s, |s|, runs, observed);
    UnmatchedAre(s, |s|, runs, observed);
    forall p ensures p in PathsOf(intents) <==> p in AssignedPaths(a) || p in u {
      PathOfSome(intents, p);
      PathOfSome(s, p);
      AssignedIsIntent(s, runs, observed, p);
    }
    UnmatchedIsOther(s, runs, observed);
  }

  lemma UnmatchedIsOther(s: seq<Intent>, runs: seq<Run>, observed: int)
    requires Distinct(PathsOf(s)) && Distinct(IdsOf(runs))
    requires forall k :: 0 <= k < |s| ==>
               (s[k].path in AssignedPaths(Assignments(s, |s|, runs, observed)) <==> s[k].path !in Unmatched(s, |s|, runs, observed))
    ensures forall p :: p in Unmatched(s, |s|, runs, observed) ==> p !in AssignedPaths(Assignments(s, |s|, runs, observed))
  {
    UnmatchedAre(s, |s|, runs, observed);
    hide Assignments, Unmatched, Narrow, AssignedPaths;
    forall p | p in Unmatched(s, |s|, runs, observed) ensures p !in AssignedPaths(Assignments(s, |s|, runs, observed)) {
      var k :| 0 <= k < |s| && s[k].path == p && Candidates(s, k, runs, observed) == [];
    }
  }

  lemma AssignedIsIntent(s: seq<Intent>, runs: seq<Run>, observed: int, p: string)
    requires Distinct(IdsOf(runs)) && Pairs(s, runs, observed)
    ensures p in AssignedPaths(Assignments(s, |s|, runs, observed)) ==> p in PathsOf(s)
  {
    var a := Assignments(s, |s|, runs, observed);
    AssignmentsAre(s, |s|, runs, observed);
    if p in AssignedPaths(a) {
      var m :| 0 <= m < |a| && AssignedPaths(a)[m] == p;
      assert IsAssignment(s, |s|, runs, observed, a[m]);
      var j, r :| 0 <= j < |s| && r in runs && Narrow(s, j, r, observed) && a[m] == Assign(s[j], r);
      assert PathsOf(s)[j] == p;
    }
  }

  // ---------------------------------------------------------------- the only possible matching

  lemma NarrowIsWide(s: seq<Intent>, k: nat, r: Run, observed: int)
    requires k < |s| && Narrow(s, k, r, observed) && r.created.value <= observed + GRACE
    ensures Wide(s[k], r, observed)
  {
  }

  /** For a run created by a second after the observation the assignment is the only one even the wide
      windows allow: an intent could account for it exactly when it was assigned to that intent. */
  lemma OnlyMatching(request: string, intents: seq<Intent>, runs: seq<Run>, observed: int, i: Intent, r: Run)
    requires Joinable(request, intents, runs, observed) && i in intents && r in runs
    requires r.created.Some? ==> r.created.value <= observed + GRACE
    ensures Wide(i, r, observed) <==> Assign(i, r) in Assignments(Sort(intents), |Sort(intents)|, runs, observed)
  {
    hide NoTwins;
    var s := Sort(intents);
    SortedPaths(intents);
    AssignmentsAre(s, |s|, runs, observed);
    var n :| 0 <= n < |s| && s[n] == i;
    assert Taken(s, r, observed) && OneIntent(s, r, observed);
    var k :| 0 <= k < |s| && Narrow(s, k, r, observed);
    NarrowIsWide(s, k, r, observed);
    if Wide(i, r, observed) {
      assert k == n;
      assert IsAssignment(s, |s|, runs, observed, Assign(i, r));
    }
    if Assign(i, r) in Assignments(s, |s|, runs, observed) {
      var j, q :| 0 <= j < |s| && q in runs && Narrow(s, j, q, observed) && Assign(i, r) == Assign(s[j], q);
      assert PathsOf(s)[j] == PathsOf(s)[n];
      SameRun(runs, q, r);
      NarrowIsWide(s, j, r, observed);
    }
  }

  // ---------------------------------------------------------------- the order of the inputs

  lemma EarlierAsymmetric(a: Intent, b: Intent)
    ensures !(Earlier(a, b) && Earlier(b, a))
  {
    if a.issued == b.issued && LexLess(a.path, b.path) && LexLess(b.path, a.path) {
      LexLessTransitive(a.path, b.path, a.path);
    }
    LexLessIrreflexive(a.path);
  }

  lemma EarlierTransitive(a: Intent, b: Intent, c: Intent)
    requires Earlier(a, b) && Earlier(b, c)
    ensures Earlier(a, c)
  {
    if a.issued == b.issued == c.issued {
      LexLessTransitive(a.path, b.path, c.path);
    }
  }

  ghost predicate InOrder(s: seq<Intent>) {
    forall i, j :: 0 <= i < j < |s| ==> Earlier(s[i], s[j])
  }

  ghost predicate NewPath(i: Intent, s: seq<Intent>) {
    forall x :: x in s ==> x.path != i.path
  }

  lemma {:induction false} InsertInOrder(i: Intent, s: seq<Intent>)
    requires InOrder(s) && NewPath(i, s)
    ensures InOrder(Insert(i, s))
  {
    if s != [] {
      LexTotal(i.path, s[0].path);
      if Earlier(s[0], i) {
        var rest := Insert(i, s[1..]);
        InsertInOrder(i, s[1..]);
        forall k | 0 <= k < |rest| ensures Earlier(s[0], rest[k]) {
          assert rest[k] in multiset(rest);
          assert rest[k] == i || rest[k] in s[1..];
        }
      } else {
        forall k | 0 <= k < |s| ensures Earlier(i, s[k]) {
          if k > 0 {
            EarlierTransitive(i, s[0], s[k]);
          }
        }
      }
    }
  }

  lemma {:induction false} SortInOrder(intents: seq<Intent>)
    requires Distinct(PathsOf(intents))
    ensures InOrder(Sort(intents))
  {
    if intents != [] {
      var rest := intents[1..];
      assert forall k :: 0 <= k < |rest| ==> PathsOf(rest)[k] == PathsOf(intents)[k + 1];
      SortInOrder(rest);
      assert NewPath(intents[0], Sort(rest)) by {
        forall x | x in Sort(rest) ensures x.path != intents[0].path {
          assert x in multiset(Sort(rest));
          var k :| 0 <= k < |rest| && rest[k] == x;
          assert PathsOf(intents)[0] != PathsOf(intents)[k + 1];
        }
      }
      InsertInOrder(intents[0], Sort(rest));
    }
  }

  lemma SameHead(s: seq<Intent>, t: seq<Intent>)
    requires InOrder(s) && InOrder(t) && s != [] && t != [] && s[0] in t && t[0] in s
    ensures s[0] == t[0]
  {
    var i :| 0 <= i < |t| && t[i] == s[0];
    var j :| 0 <= j < |s| && s[j] == t[0];
    EarlierAsymmetric(s[0], t[0]);
  }

  lemma {:induction false} OneOrder(s: seq<Intent>, t: seq<Intent>)
    requires InOrder(s) && InOrder(t) && multiset(s) == multiset(t)
    ensures s == t
  {
    SameMultisetMembers(s, t);
    if s != [] {
      SameHead(s, t);
      TailsKept(s, t);
      hide InOrder;
      OneOrder(s[1..], t[1..]);
    }
  }

  lemma TailsKept(s: seq<Intent>, t: seq<Intent>)
    requires InOrder(s) && InOrder(t) && multiset(s) == multiset(t) && s != [] && t != [] && s[0] == t[0]
    ensures InOrder(s[1..]) && InOrder(t[1..]) && multiset(s[1..]) == multiset(t[1..])
  {
    hide Earlier;
    assert s == [s[0]] + s[1..] && t == [t[0]] + t[1..];
    assert multiset(s[1..]) == multiset(s) - multiset{s[0]} == multiset(t[1..]);
  }

  lemma DistinctKept(a: seq<Run>, b: seq<Run>)
    requires multiset(a) == multiset(b)
    ensures Distinct(IdsOf(a)) <==> Distinct(IdsOf(b))
  {
    SameMultisetMembers(a, b);
    DistinctBySize(IdsOf(a));
    DistinctBySize(IdsOf(b));
    forall id ensures id in IdsOf(a) <==> id in IdsOf(b) {
      IdOfSome(a, id);
      IdOfSome(b, id);
    }
    assert Members(IdsOf(a)) == Members(IdsOf(b));
  }

  lemma IdOfSome(runs: seq<Run>, id: string)
    ensures id in IdsOf(runs) <==> exists r :: r in runs && r.id == id
  {
    if id in IdsOf(runs) {
      var k :| 0 <= k < |runs| && IdsOf(runs)[k] == id;
      assert runs[k] in runs;
    }
    if r: Run :| r in runs && r.id == id {
      var k :| 0 <= k < |runs| && runs[k] == r;
      assert IdsOf(runs)[k] == id;
    }
  }

  lemma PathsKept(a: seq<Intent>, b: seq<Intent>)
    requires multiset(a) == multiset(b)
    ensures Distinct(PathsOf(a)) <==> Distinct(PathsOf(b))
  {
    SameMultisetMembers(a, b);
    DistinctBySize(PathsOf(a));
    DistinctBySize(PathsOf(b));
    forall p ensures p in PathsOf(a) <==> p in PathsOf(b) {
      PathOfSome(a, p);
      PathOfSome(b, p);
    }
    assert Members(PathsOf(a)) == Members(PathsOf(b));
  }

  lemma SameCandidate(s: seq<Intent>, k: nat, a: seq<Run>, b: seq<Run>, observed: int)
    requires k < |s| && Distinct(IdsOf(a)) && Distinct(IdsOf(b)) && AtMostOneRun(s, k, a, observed) && AtMostOneRun(s, k, b, observed)
    requires forall r :: r in a <==> r in b
    ensures Candidates(s, k, a, observed) == Candidates(s, k, b, observed)
  {
    SoloIff(s, k, a, observed);
    SoloIff(s, k, b, observed);
    var c, d := Candidates(s, k, a, observed), Candidates(s, k, b, observed);
    assert forall r :: r in c <==> r in d;
    assert c != [] ==> c[0] in d;
    assert d != [] ==> d[0] in c;
  }

  lemma {:induction false} SameYield(s: seq<Intent>, n: nat, a: seq<Run>, b: seq<Run>, observed: int)
    requires n <= |s| && Distinct(IdsOf(a)) && Distinct(IdsOf(b)) && Pairs(s, a, observed) && Pairs(s, b, observed)
    requires forall r :: r in a <==> r in b
    ensures Assignments(s, n, a, observed) == Assignments(s, n, b, observed)
    ensures Unmatched(s, n, a, observed) == Unmatched(s, n, b, observed)
    decreases n
  {
    if n > 0 {
      SameYield(s, n - 1, a, b, observed);
      SameCandidate(s, n - 1, a, b, observed);
    }
  }

  /** Neither eligibility nor what is assigned depends on the order the intents or the runs come in. */
  lemma OrderIrrelevant(request: string, intents: seq<Intent>, intents': seq<Intent>, runs: seq<Run>, runs': seq<Run>, observed: int)
    requires multiset(intents) == multiset(intents') && multiset(runs) == multiset(runs')
    ensures Joinable(request, intents, runs, observed) <==> Joinable(request, intents', runs', observed)
    ensures Joinable(request, intents, runs, observed) ==>
              && Sort(intents) == Sort(intents')
              && Assignments(Sort(intents), |Sort(intents)|, runs, observed) == Assignments(Sort(intents'), |Sort(intents')|, runs', observed)
              && Unmatched(Sort(intents), |Sort(intents)|, runs, observed) == Unmatched(Sort(intents'), |Sort(intents')|, runs', observed)
  {
    SameMultisetMembers(intents, intents');
    SameMultisetMembers(runs, runs');
    DistinctKept(runs, runs');
    PathsKept(intents, intents');
    if Distinct(PathsOf(intents)) {
      SortInOrder(intents);
      SortInOrder(intents');
      OneOrder(Sort(intents), Sort(intents'));
      SameEligibility(Sort(intents), runs, runs', observed);
    }
    if Joinable(request, intents, runs, observed) {
      SameYield(Sort(intents), |Sort(intents)|, runs, runs', observed);
    }
  }

  lemma SameEligibility(s: seq<Intent>, a: seq<Run>, b: seq<Run>, observed: int)
    requires forall r :: r in a <==> r in b
    ensures Unambiguous(s, a, observed) <==> Unambiguous(s, b, observed)
    ensures Pairs(s, a, observed) <==> Pairs(s, b, observed)
  {
    hide OneIntent, Narrow, TakenOnce, Taken;
    assert forall k :: 0 <= k < |s| ==> (AtMostOneRun(s, k, a, observed) <==> AtMostOneRun(s, k, b, observed));
  }

  // ---------------------------------------------------------------- the last guard

  const LATEST := 6000

  /** With no intent issued more than six seconds after the observation, the guard against a run taken
      twice is never reached: the wide windows have ruled that out. */
  lemma GuardUnreachable(intents: seq<Intent>, runs: seq<Run>, observed: int)
    requires Distinct(PathsOf(intents)) && Unambiguous(Sort(intents), runs, observed)
    requires forall i :: i in intents ==> i.issued <= observed + LATEST
    ensures !RunTwice(Sort(intents), runs, observed)
  {
    var s := Sort(intents);
    SortInOrder(intents);
    SortedPaths(intents);
    forall r | r in runs ensures TakenOnce(s, r, observed) {
      forall i, j | 0 <= i < |s| && 0 <= j < |s| && Narrow(s, i, r, observed) && Narrow(s, j, r, observed) ensures i == j {
        if i < j {
          OneWindow(s, i, j, r, runs, observed);
        } else if j < i {
          OneWindow(s, j, i, r, runs, observed);
        }
      }
    }
  }

  lemma OneWindow(s: seq<Intent>, i: nat, j: nat, r: Run, runs: seq<Run>, observed: int)
    requires i < j < |s| && InOrder(s) && s[j].issued <= observed + LATEST && r in runs && Unambiguous(s, runs, observed)
    ensures !(Narrow(s, i, r, observed) && Narrow(s, j, r, observed))
  {
    assert i + 1 < j ==> Earlier(s[i + 1], s[j]);
    assert OneIntent(s, r, observed);
  }

  lemma SortedThree(a: Intent, b: Intent, c: Intent)
    requires a.issued < b.issued < c.issued
    ensures Sort([a, b, c]) == [a, b, c]
  {
    assert Sort([c]) == [c];
    assert [b, c][1..] == [c] && Sort([b, c]) == [b, c];
    assert [a, b, c][1..] == [b, c];
  }

  /** Later than that it can be reached: a run created exactly where one window ends and the next begins,
      after the observation, is taken by both. */
  lemma GuardReachable() returns (intents: seq<Intent>, runs: seq<Run>, observed: int)
    ensures (forall i :: i in intents ==> i.request == "r") && Distinct(PathsOf(intents)) && Distinct(IdsOf(runs))
    ensures NoTwins(Sort(intents)) && Unambiguous(Sort(intents), runs, observed)
    ensures forall k :: 0 <= k < |Sort(intents)| ==> AtMostOneRun(Sort(intents), k, runs, observed)
    ensures RunTwice(Sort(intents), runs, observed)
  {
    hide Sort, Insert;
    var a := Intent("r", "a", "c", 1, 1, 0, [], None);
    var b := a.(path := "b", issued := 7000);
    var c := a.(path := "c", issued := 8000);
    var run := Run("1", true, "c", 1, 1, Some(2000));
    intents, runs, observed := [a, b, c], [run], 0;
    SortedThree(a, b, c);
    var s := [a, b, c];
    assert Narrow(s, 0, run, observed) && Narrow(s, 1, run, observed);
    assert run in runs && !TakenOnce(s, run, observed);
  }

  /** Some run could belong to both: the same source, repository and workflow, and an identity that neither
      rules out. */
  predicate Share(a: Intent, b: Intent) {
    && a.source == b.source && a.repository == b.repository && a.workflow == b.workflow
    && (a.known.Some? && b.known.Some? ==> a.known == b.known)
    && (a.known.Some? ==> a.known.value !in a.prior && a.known.value !in b.prior)
    && (b.known.Some? ==> b.known.value !in a.prior && b.known.value !in b.prior)
  }

  /** The windows of i and j meet in one instant, out of reach of the wide windows: the one after i opens
      when j's does, more than six seconds after the observation, and j's is not the last. */
  predicate Meet(s: seq<Intent>, i: nat, j: nat, observed: int) {
    i < j && j + 1 < |s| && s[i + 1].issued == s[j].issued && s[j].issued > observed + LATEST && Share(s[i], s[j])
  }

  /** What the checks before the last guard let through. */
  ghost predicate Passes(s: seq<Intent>, runs: seq<Run>, observed: int) {
    Distinct(IdsOf(runs)) && Unambiguous(s, runs, observed) && forall k :: 0 <= k < |s| ==> AtMostOneRun(s, k, runs, observed)
  }

  lemma {:induction false} InOrderPair(s: seq<Intent>, i: nat, j: nat)
    requires InOrder(s) && i <= j < |s|
    ensures s[i].issued <= s[j].issued
  {
    if i < j {
      assert Earlier(s[i], s[j]);
    }
  }

  lemma TakenTwiceMeet(s: seq<Intent>, r: Run, observed: int, i: nat, j: nat)
    requires InOrder(s) && OneIntent(s, r, observed) && i < j < |s| && Narrow(s, i, r, observed) && Narrow(s, j, r, observed)
    ensures Meet(s, i, j, observed)
  {
    InOrderPair(s, i, j);
    InOrderPair(s, i + 1, j);
  }

  lemma {:induction false} Longer(ids: seq<string>) returns (id: string)
    ensures forall x :: x in ids ==> |x| < |id|
  {
    if ids == [] {
      id := "";
    } else {
      id := Longer(ids[1..]);
      id := if |id| > |ids[0]| then id else ids[0] + "0";
      assert forall x :: x in ids ==> x == ids[0] || x in ids[1..];
    }
  }

  lemma SharedId(a: Intent, b: Intent) returns (id: string)
    requires Share(a, b)
    ensures id !in a.prior && id !in b.prior && (a.known.Some? ==> a.known.value == id) && (b.known.Some? ==> b.known.value == id)
  {
    if a.known.Some? {
      id := a.known.value;
    } else if b.known.Some? {
      id := b.known.value;
    } else {
      id := Longer(a.prior + b.prior);
      assert forall x :: x in a.prior || x in b.prior ==> x in a.prior + b.prior;
    }
  }

  lemma MeetIsTakenTwice(s: seq<Intent>, i: nat, j: nat, observed: int) returns (runs: seq<Run>)
    requires InOrder(s) && Meet(s, i, j, observed)
    ensures Passes(s, runs, observed) && RunTwice(s, runs, observed)
  {
    var id := SharedId(s[i], s[j]);
    var r := Run(id, true, s[j].source, s[j].repository, s[j].workflow, Some(s[j].issued - SLACK));
    runs := [r];
    InOrderPair(s, i, j);
    InOrderPair(s, j, j + 1);
    assert Narrow(s, i, r, observed) && Narrow(s, j, r, observed);
    assert r in runs && !TakenOnce(s, r, observed);
    assert OneIntent(s, r, observed);
  }

  /** Whether any observation at all can reach the last guard is up to the intents alone: it takes two whose
      windows meet out of reach of the wide ones. */
  lemma GuardReachableIff(intents: seq<Intent>, observed: int)
    requires Distinct(PathsOf(intents))
    ensures (exists runs :: Passes(Sort(intents), runs, observed) && RunTwice(Sort(intents), runs, observed)) <==>
              exists i: nat, j: nat :: Meet(Sort(intents), i, j, observed)
  {
    hide Passes, RunTwice, Meet;
    var s := Sort(intents);
    SortInOrder(intents);
    SortedPaths(intents);
    forall runs | Passes(s, runs, observed) && RunTwice(s, runs, observed) ensures exists i: nat, j: nat :: Meet(s, i, j, observed) {
      var i, j := TakenTwice(s, runs, observed);
    }
    if i: nat, j: nat :| Meet(s, i, j, observed) {
      var runs := MeetIsTakenTwice(s, i, j, observed);
    }
  }

  lemma TakenTwice(s: seq<Intent>, runs: seq<Run>, observed: int) returns (i: nat, j: nat)
    requires InOrder(s) && Passes(s, runs, observed) && RunTwice(s, runs, observed)
    ensures Meet(s, i, j, observed)
  {
    hide Narrow, OneIntent, InOrder, Meet, AtMostOneRun;
    var r :| r in runs && !TakenOnce(s, r, observed);
    var a, b :| 0 <= a < |s| && 0 <= b < |s| && Narrow(s, a, r, observed) && Narrow(s, b, r, observed) && a != b;
    i, j := if a < b then a else b, if a < b then b else a;
    TakenTwiceMeet(s, r, observed, i, j);
  }

  /** Field by field: an assignment carries the source, repository and workflow that the intent with its path
      and the run with its id have in common. */
  lemma AssignmentFields(request: string, intents: seq<Intent>, runs: seq<Run>, observed: int, a: Assignment)
    requires Joinable(request, intents, runs, observed)
    requires a in Assignments(Sort(intents), |Sort(intents)|, runs, observed)
    ensures exists i :: i in intents && i.path == a.path && i.source == a.source && i.repository == a.repository && i.workflow == a.workflow
    ensures exists r :: r in runs && r.id == a.run && r.source == a.source && r.repository == a.repository && r.workflow == a.workflow
    ensures forall i, j :: i in intents && j in intents && i.path == a.path == j.path ==> i == j
    ensures forall r, q :: r in runs && q in runs && r.id == a.run == q.id ==> r == q
  {
    hide NoTwins, Unambiguous, Pairs, Sort;
    var s := Sort(intents);
    SortedPaths(intents);
    AssignmentsAre(s, |s|, runs, observed);
    assert IsAssignment(s, |s|, runs, observed, a);
    forall r, q | r in runs && q in runs && r.id == a.run == q.id ensures r == q {
      SameRun(runs, r, q);
    }
    forall i, j | i in intents && j in intents && i.path == a.path == j.path ensures i == j {
      SamePath(intents, i, j);
    }
  }

  lemma SamePath(intents: seq<Intent>, i: Intent, j: Intent)
    requires Distinct(PathsOf(intents)) && i in intents && j in intents && i.path == j.path
    ensures i == j
  {
    var k :| 0 <= k < |intents| && intents[k] == i;
    var l :| 0 <= l < |intents| && intents[l] == j;
    assert PathsOf(intents)[k] == PathsOf(intents)[l];
  }

  /** In fields and milliseconds: an actual run of the intent's source, repository and workflow, that was not
      there before and is the known one if one is known, created from five seconds before the issue to one
      second after the observation, or for the narrow window to five seconds before the next issue. */
  lemma WindowsSpelledOut(s: seq<Intent>, k: nat, r: Run, observed: int)
    requires k < |s|
    ensures Wide(s[k], r, observed) <==>
              && r.actual && r.source == s[k].source && r.repository == s[k].repository && r.workflow == s[k].workflow
              && r.id !in s[k].prior && (s[k].known.None? || s[k].known == Some(r.id))
              && r.created.Some? && s[k].issued <= r.created.value + 5000 && r.created.value <= observed + 1000
    ensures Narrow(s, k, r, observed) <==>
              && r.actual && r.source == s[k].source && r.repository == s[k].repository && r.workflow == s[k].workflow
              && r.id !in s[k].prior && (s[k].known.None? || s[k].known == Some(r.id))
              && r.created.Some? && s[k].issued <= r.created.value + 5000
              && (if k == |s| - 1 then r.created.value <= observed + 1000 else r.created.value + 5000 <= s[k + 1].issued)
  {
  }

  /** Neighbours that cannot be told apart: issued at once, for the same, and the first not bound to a run
      that the second is not bound to. */
  lemma TwinsSpelledOut(s: seq<Intent>)
    ensures NoTwins(s) <==>
              forall k :: 0 < k < |s| ==>
                || s[k - 1].issued != s[k].issued || s[k - 1].source != s[k].source || s[k - 1].repository != s[k].repository
                || s[k - 1].workflow != s[k].workflow || (s[k - 1].known.Some? && s[k - 1].known != s[k].known)
  {
    if NoTwins(s) {
      forall k | 0 < k < |s| ensures !Twins(s[k - 1], s[k]) {
        assert !Twins(s[k - 1], s[k - 1 + 1]);
      }
    }
    if forall k :: 0 < k < |s| ==> !Twins(s[k - 1], s[k]) {
      forall k | 0 <= k < |s| - 1 ensures !Twins(s[k], s[k + 1]) {
        assert !Twins(s[k + 1 - 1], s[k + 1]);
      }
    }
  }

  /** An eligible join assigns a run to an intent exactly when the run lies in the intent's own window. */
  lemma AssignedWithinWindow(request: string, intents: seq<Intent>, runs: seq<Run>, observed: int, k: nat, r: Run)
    requires Joinable(request, intents, runs, observed) && k < |Sort(intents)| && r in runs
    ensures var s := Sort(intents);
            (exists a :: a in Assignments(s, |s|, runs, observed) && a.path == s[k].path && a.run == r.id) <==>
              && r.actual && r.source == s[k].source && r.repository == s[k].repository && r.workflow == s[k].workflow
              && r.id !in s[k].prior && (s[k].known.None? || s[k].known == Some(r.id))
              && r.created.Some? && s[k].issued <= r.created.value + 5000
              && (if k == |s| - 1 then r.created.value <= observed + 1000 else r.created.value + 5000 <= s[k + 1].issued)
  {
    WindowsSpelledOut(Sort(intents), k, r, observed);
    hide Narrow, Wide, Assignments, Joinable;
    AssignedIffNarrow(request, intents, runs, observed, k, r);
  }

  lemma AssignedIffNarrow(request: string, intents: seq<Intent>, runs: seq<Run>, observed: int, k: nat, r: Run)
    requires Joinable(request, intents, runs, observed) && k < |Sort(intents)| && r in runs
    ensures var s := Sort(intents);
            (exists a :: a in Assignments(s, |s|, runs, observed) && a.path == s[k].path && a.run == r.id) <==> Narrow(s, k, r, observed)
  {
    var s := Sort(intents);
    SortedPaths(intents);
    AssignmentsAre(s, |s|, runs, observed);
    hide NoTwins, Unambiguous, Pairs, Sort, Narrow, Assignments;
    if Narrow(s, k, r, observed) {
      assert IsAssignment(s, |s|, runs, observed, Assign(s[k], r));
    }
    forall a | a in Assignments(s, |s|, runs, observed) && a.path == s[k].path && a.run == r.id ensures Narrow(s, k, r, observed) {
      assert IsAssignment(s, |s|, runs, observed, a);
      OnlyPair(s, runs, observed, a, k, r);
    }
  }

  lemma OnlyPair(s: seq<Intent>, runs: seq<Run>, observed: int, a: Assignment, k: nat, r: Run)
    requires Distinct(PathsOf(s)) && Distinct(IdsOf(runs)) && IsAssignment(s, |s|, runs, observed, a)
    requires k < |s| && r in runs && a.path == s[k].path && a.run == r.id
    ensures Narrow(s, k, r, observed)
  {
    hide Narrow;
    var j, q :| 0 <= j < |s| && q in runs && Narrow(s, j, q, observed) && a == Assign(s[j], q);
    SameRun(runs, q, r);
    assert PathsOf(s)[j] == PathsOf(s)[k];
  }
}
