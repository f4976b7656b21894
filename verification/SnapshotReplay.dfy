/** Closing a suspended workflow snapshot over its journal: the checks accept a snapshot exactly when it
    is the replay of the executable waves up to its suspended frontier. */
module SnapshotReplay {
  import opened Collections
  import opened Outcomes

  /** SHA-256, taken to be injective. */
  datatype Digest = Sha256(preimage: string)

  datatype Observation = Observation(action: string, issue: string, complete: bool, outputDigest: Digest, summary: string,
                                     hostAttempt: Option<string>)
  datatype Request = Request(action: string, wave: nat, body: string)
  datatype Item = Item(request: Request, issue: Option<string>, observation: Option<Observation>)

  datatype StepId = WaveId(index: nat) | OtherId(name: string)
  datatype JournalStep = JournalStep(id: StepId, items: seq<Item>)

  datatype Header = Header(work: string, attempt: nat, workflow: string, config: string, scope: string)
  datatype RunState = RunState(header: Header, selection: string, observations: seq<Observation>)

  datatype Status = Success | Suspended | OtherStatus

  /** One entry of the snapshot's context; a field it does not have is missing. */
  datatype Wave = Wave(status: Status, payload: Option<RunState>, resume: Option<seq<Observation>>, output: Option<RunState>,
                       suspended: Option<seq<Request>>)
  datatype Context = Context(input: RunState, waves: map<nat, Wave>)
  datatype Binding = Binding(header: Header, selection: string)

  /** What the configuration makes of a wave: its requests, from the observations before it. */
  type Projector = (nat, seq<Observation>) -> seq<Request>

  // ---------------------------------------------------------------- wave indices in order

  ghost predicate IsLeast(s: set<nat>, m: nat) {
    m in s && forall x :: x in s ==> m <= x
  }

  lemma {:induction false} LeastExists(s: set<nat>)
    requires s != {}
    ensures exists m :: IsLeast(s, m)
    decreases |s|
  {
    var m :| m in s;
    var rest := s - {m};
    assert forall x :: x in s <==> x == m || x in rest;
    if rest == {} {
      assert IsLeast(s, m);
    } else {
      LeastExists(rest);
      var n :| IsLeast(rest, n);
      assert IsLeast(s, if m < n then m else n);
    }
  }

  function Least(s: set<nat>): (m: nat)
    requires s != {}
    ensures m in s && forall x :: x in s ==> m <= x
  {
    assert exists m :: m in s && forall x :: x in s ==> m <= x by {
      LeastExists(s);
      var m :| IsLeast(s, m);
    }
    var m :| m in s && forall x :: x in s ==> m <= x;
    m
  }

  function Ascending(s: set<nat>): (r: seq<nat>) {
    if s == {} then [] else [Least(s)] + Ascending(s - {Least(s)})
  }

  lemma {:induction false} AscendingIs(s: set<nat>)
    ensures |Ascending(s)| == |s| && forall x :: x in Ascending(s) <==> x in s
    ensures forall i, j :: 0 <= i < j < |Ascending(s)| ==> Ascending(s)[i] < Ascending(s)[j]
    decreases |s|
  {
    if s != {} {
      var m := Least(s);
      var rest := Ascending(s - {m});
      AscendingIs(s - {m});
      forall k | 0 <= k < |rest| ensures m < rest[k] {
        assert rest[k] in rest;
      }
    }
  }

  function UpTo(waves: seq<nat>, frontier: nat): seq<nat> {
    if waves == [] then []
    else UpTo(waves[..|waves| - 1], frontier) + if waves[|waves| - 1] <= frontier then [waves[|waves| - 1]] else []
  }

  /** Element by element, in their order. */
  lemma {:induction false} UpToOfConcatenation(a: seq<nat>, b: seq<nat>, frontier: nat)
    ensures UpTo(a + b, frontier) == UpTo(a, frontier) + UpTo(b, frontier)
  {
    if b == [] {
      assert a + b == a;
    } else {
      var front := b[..|b| - 1];
      assert (a + b)[..|a + b| - 1] == a + front;
      UpToOfConcatenation(a, front, frontier);
    }
  }

  /** As often as they are there, when at most the frontier, and otherwise not at all. */
  lemma {:induction false} UpToCounts(waves: seq<nat>, frontier: nat, w: nat)
    ensures multiset(UpTo(waves, frontier))[w] == if w <= frontier then multiset(waves)[w] else 0
  {
    if waves != [] {
      var front, last := waves[..|waves| - 1], waves[|waves| - 1];
      UpToCounts(front, frontier, w);
      assert waves == front + [last];
      assert multiset(waves) == multiset(front) + multiset{last};
    }
  }

  predicate StrictlyAscending(s: seq<nat>) {
    forall i, j :: 0 <= i < j < |s| ==> s[i] < s[j]
  }

  lemma {:induction false} UpToAscends(waves: seq<nat>, frontier: nat)
    requires StrictlyAscending(waves)
    ensures StrictlyAscending(UpTo(waves, frontier)) && forall w :: w in UpTo(waves, frontier) <==> w in waves && w <= frontier
  {
    if waves != [] {
      var front := waves[..|waves| - 1];
      assert forall w :: w in waves <==> w in front || w == waves[|waves| - 1];
      UpToAscends(front, frontier);
      var r := UpTo(front, frontier);
      assert forall k :: 0 <= k < |r| ==> r[k] in r;
    }
  }

  /** Two strictly ascending lists with the same members are the same. */
  lemma {:induction false} OneAscending(a: seq<nat>, b: seq<nat>)
    requires StrictlyAscending(a) && StrictlyAscending(b) && forall w :: w in a <==> w in b
    ensures a == b
  {
    assert forall k :: 0 <= k < |b| ==> b[k] in b;
    assert b == [] || b[0] in a;
    if a != [] {
      assert a[0] in b;
      assert a[0] == b[0];
      assert forall w :: w in a <==> w == a[0] || w in a[1..];
      assert forall w :: w in b <==> w == b[0] || w in b[1..];
      assert a[0] !in a[1..] && b[0] !in b[1..];
      OneAscending(a[1..], b[1..]);
      assert a == [a[0]] + a[1..] && b == [b[0]] + b[1..];
    }
  }

  // ---------------------------------------------------------------- what a replay is

  function Actions(items: seq<Item>): (r: seq<string>)
    ensures |r| == |items| && forall k :: 0 <= k < |items| ==> r[k] == items[k].request.action
  {
    seq(|items|, k requires 0 <= k < |items| => items[k].request.action)
  }

  function ObservedActions(observations: seq<Observation>): (r: seq<string>)
    ensures |r| == |observations| && forall k :: 0 <= k < |observations| ==> r[k] == observations[k].action
  {
    seq(|observations|, k requires 0 <= k < |observations| => observations[k].action)
  }

  function RequestActions(requests: seq<Request>): (r: seq<string>)
    ensures |r| == |requests| && forall k :: 0 <= k < |requests| ==> r[k] == requests[k].action
  {
    seq(|requests|, k requires 0 <= k < |requests| => requests[k].action)
  }

  function Requests(items: seq<Item>): (r: seq<Request>)
    ensures |r| == |items| && forall k :: 0 <= k < |items| ==> r[k] == items[k].request
  {
    seq(|items|, k requires 0 <= k < |items| => items[k].request)
  }

  function StepIds(steps: seq<JournalStep>): (r: seq<StepId>)
    ensures |r| == |steps| && forall k :: 0 <= k < |steps| ==> r[k] == steps[k].id
  {
    seq(|steps|, k requires 0 <= k < |steps| => steps[k].id)
  }

  predicate ItemClosed(id: StepId, item: Item, frontier: nat) {
    id == WaveId(item.request.wave) && item.request.wave < frontier && item.issue.Some? && item.observation.Some?
  }

  /** The journal has one step for each completed wave, and only accepted items of that wave in it. */
  ghost predicate StepsClosed(steps: seq<JournalStep>, frontier: nat) {
    && Distinct(StepIds(steps))
    && forall s :: s in steps ==> s.items != [] && forall item :: item in s.items ==> ItemClosed(s.id, item, frontier)
  }

  ghost predicate StepOf(steps: seq<JournalStep>, wave: nat, items: seq<Item>) {
    JournalStep(WaveId(wave), items) in steps
  }

  function MatchesOf(group: seq<Item>, action: string): (r: seq<Item>)
    ensures forall x :: x in r <==> x in group && x.request.action == action
  {
    if group == [] then []
    else MatchesOf(group[..|group| - 1], action) + if group[|group| - 1].request.action == action then [group[|group| - 1]] else []
  }

  predicate ObservationClosed(o: Observation, group: seq<Item>) {
    var matches := MatchesOf(group, o.action);
    && o.complete && o.outputDigest == Sha256(o.summary) && o.hostAttempt.None?
    && |matches| == 1 && matches[0].issue == Some(o.issue) && matches[0].observation == Some(o)
  }

  predicate ObservationsClosed(observations: seq<Observation>, group: seq<Item>) {
    && |observations| == |group| && Distinct(ObservedActions(observations))
    && forall o :: o in observations ==> ObservationClosed(o, group)
  }

  predicate RequestClosed(request: Request, group: seq<Item>) {
    var matches := MatchesOf(group, request.action);
    |matches| == 1 && matches[0].request == request
  }

  predicate RequestsClosed(expected: seq<Request>, group: seq<Item>) {
    |expected| == |group| && forall request :: request in expected ==> RequestClosed(request, group)
  }

  predicate InputIs(state: RunState, prior: RunState, b: Binding) {
    state == prior && state.header == b.header && state.selection == b.selection
  }

  /** One completed wave, replayed from the state before it. */
  predicate WaveReplays(index: nat, wave: Wave, prior: RunState, group: seq<Item>, b: Binding, project: Projector) {
    && wave.payload.Some? && wave.resume.Some? && wave.output.Some? && wave.suspended.None?
    && InputIs(wave.payload.value, prior, b)
    && ObservationsClosed(wave.resume.value, group)
    && RequestsClosed(project(index, wave.payload.value.observations), group)
    && wave.output.value == wave.payload.value.(observations := wave.payload.value.observations + wave.resume.value)
  }

  predicate FrontierReplays(index: nat, wave: Wave, prior: RunState, current: seq<Item>, b: Binding, project: Projector) {
    && wave.status.Suspended? && current != [] && Distinct(Actions(current))
    && wave.suspended == Some(Requests(current)) && (forall item :: item in current ==> item.request.wave == index)
    && wave.payload.Some? && InputIs(wave.payload.value, prior, b)
    && project(index, wave.payload.value.observations) == Requests(current)
  }

  /** All observations of the first k waves, in the order of the waves. */
  function Earlier(c: Context, order: seq<nat>, k: nat): seq<Observation>
    requires k <= |order| && forall i :: 0 <= i < |order| ==> order[i] in c.waves
  {
    if k == 0 then []
    else
      var resume := c.waves[order[k - 1]].resume;
      Earlier(c, order, k - 1) + if resume.Some? then resume.value else []
  }

  /** The state before the k-th wave: the initial one, with everything observed since. */
  function StateBefore(c: Context, order: seq<nat>, k: nat): RunState
    requires k <= |order| && forall i :: 0 <= i < |order| ==> order[i] in c.waves
  {
    c.input.(observations := Earlier(c, order, k))
  }

  function Order(c: Context): (r: seq<nat>)
    ensures forall i :: 0 <= i < |r| ==> r[i] in c.waves
    ensures |r| == |c.waves.Keys|
  {
    AscendingIs(c.waves.Keys);
    assert forall i :: 0 <= i < |Ascending(c.waves.Keys)| ==> Ascending(c.waves.Keys)[i] in Ascending(c.waves.Keys);
    Ascending(c.waves.Keys)
  }

  /** The snapshot is a replay: the waves there are the executable ones up to the frontier, the frontier
      alone is suspended; every wave before it succeeded, on the input its predecessors' observations
      make, with the journal's items of that wave; and the frontier asks for what the journal has current. */
  ghost predicate IsReplay(c: Context, current: seq<Item>, steps: seq<JournalStep>, b: Binding, executable: seq<nat>, project: Projector) {
    var order := Order(c);
    var n := |order| - 1;
    && order != [] && UpTo(executable, order[n]) == order
    && c.input.header == b.header && c.input.observations == []
    && StepsClosed(steps, order[n]) && |steps| == n
    && (forall k :: 0 <= k < n ==> c.waves[order[k]].status.Success? && WaveClosed(c, order, k, steps, b, project))
    && FrontierReplays(order[n], c.waves[order[n]], StateBefore(c, order, n), current, b, project)
  }

  ghost predicate WaveClosed(c: Context, order: seq<nat>, k: nat, steps: seq<JournalStep>, b: Binding, project: Projector)
    requires k < |order| && forall i :: 0 <= i < |order| ==> order[i] in c.waves
  {
    exists items :: StepOf(steps, order[k], items) && WaveReplays(order[k], c.waves[order[k]], StateBefore(c, order, k), items, b, project)
  }

  // ---------------------------------------------------------------- grouping the journal

  ghost predicate ItemsClosed(steps: seq<JournalStep>, frontier: nat) {
    forall s :: s in steps ==> forall item :: item in s.items ==> ItemClosed(s.id, item, frontier)
  }

  /** The groups made of the first n steps, as far as their ids are distinct. */
  ghost predicate Grouped(groups: map<nat, seq<Item>>, steps: seq<JournalStep>) {
    && (forall w :: w in groups <==> exists s :: s in steps && s.id == WaveId(w) && s.items != [])
    && (Distinct(StepIds(steps)) ==> forall s :: s in steps && s.items != [] && s.id.WaveId? ==> groups[s.id.index] == s.items)
  }

  method AddStep(step: JournalStep, before: map<nat, seq<Item>>, frontier: nat) returns (ok: bool, groups: map<nat, seq<Item>>)
    ensures ok <==> forall item :: item in step.items ==> ItemClosed(step.id, item, frontier)
    ensures ok && step.items == [] ==> groups == before
    ensures ok && step.items != [] ==> step.id.WaveId? && groups == before[step.id.index := Had(before, step.id.index) + step.items]
  {
    groups := before;
    for m := 0 to |step.items|
      invariant forall j :: 0 <= j < m ==> ItemClosed(step.id, step.items[j], frontier)
      invariant m == 0 ==> groups == before
      invariant m > 0 ==> step.id.WaveId? && groups == before[step.id.index := Had(before, step.id.index) + step.items[..m]]
    {
      var item := step.items[m];
      if !ItemClosed(step.id, item, frontier) { return false, groups; }
      Pushed(before, groups, item.request.wave, step.items[..m], item);
      assert step.items[..m + 1] == step.items[..m] + [item];
      groups := groups[item.request.wave := Had(groups, item.request.wave) + [item]];
    }
    assert step.items[..|step.items|] == step.items;
    return true, groups;
  }

  lemma Pushed(before: map<nat, seq<Item>>, groups: map<nat, seq<Item>>, wave: nat, items: seq<Item>, item: Item)
    requires if items == [] then groups == before else groups == before[wave := Had(before, wave) + items]
    ensures groups[wave := Had(groups, wave) + [item]] == before[wave := Had(before, wave) + (items + [item])]
  {
    assert Had(before, wave) + items + [item] == Had(before, wave) + (items + [item]);
    if items == [] {
      assert Had(before, wave) + [item] == Had(before, wave) + (items + [item]);
    }
  }

  function Had(groups: map<nat, seq<Item>>, wave: nat): seq<Item> {
    if wave in groups then groups[wave] else []
  }

  lemma GroupedOneMore(steps: seq<JournalStep>, i: nat, before: map<nat, seq<Item>>, groups: map<nat, seq<Item>>)
    requires i < |steps| && Grouped(before, steps[..i])
    requires steps[i].items == [] ==> groups == before
    requires steps[i].items != [] ==> steps[i].id.WaveId? && groups == before[steps[i].id.index := Had(before, steps[i].id.index) + steps[i].items]
    ensures Grouped(groups, steps[..i + 1])
  {
    var front, all, step := steps[..i], steps[..i + 1], steps[i];
    assert forall s :: s in all <==> s in front || s == step;
    if Distinct(StepIds(all)) {
      assert forall k :: 0 <= k < i ==> StepIds(all)[k] == StepIds(front)[k];
      assert Distinct(StepIds(front));
      forall s | s in front ensures s.id != step.id {
        var k :| 0 <= k < i && front[k] == s;
        assert StepIds(all)[k] != StepIds(all)[i];
      }
    }
  }

  lemma {:induction false} WaveIdsSize(waves: set<nat>)
    ensures |set w | w in waves :: WaveId(w)| == |waves|
    decreases |waves|
  {
    if waves != {} {
      var w :| w in waves;
      WaveIdsSize(waves - {w});
      assert (set x | x in waves :: WaveId(x)) == (set x | x in waves - {w} :: WaveId(x)) + {WaveId(w)};
    }
  }

  function GroupIds(groups: map<nat, seq<Item>>): (r: set<StepId>)
    ensures |r| == |groups.Keys| && forall w :: w in groups <==> WaveId(w) in r
    ensures forall id :: id in r ==> id.WaveId?
  {
    WaveIdsSize(groups.Keys);
    set w | w in groups.Keys :: WaveId(w)
  }

  lemma GroupsHaveSteps(steps: seq<JournalStep>, groups: map<nat, seq<Item>>)
    requires Grouped(groups, steps)
    ensures GroupIds(groups) <= Members(StepIds(steps))
  {
    forall id | id in GroupIds(groups) ensures id in StepIds(steps) {
      var s :| s in steps && s.id == id && s.items != [];
      var k :| 0 <= k < |steps| && steps[k] == s;
      assert StepIds(steps)[k] == id;
    }
  }

  lemma StepsHaveGroups(steps: seq<JournalStep>, groups: map<nat, seq<Item>>, frontier: nat)
    requires Grouped(groups, steps) && ItemsClosed(steps, frontier) && forall s :: s in steps ==> s.items != []
    ensures Members(StepIds(steps)) <= GroupIds(groups)
  {
    forall id | id in StepIds(steps) ensures id in GroupIds(groups) {
      var k :| 0 <= k < |steps| && StepIds(steps)[k] == id;
      assert steps[k] in steps && steps[k].items[0] in steps[k].items;
      assert ItemClosed(steps[k].id, steps[k].items[0], frontier);
    }
  }

  lemma GroupedSteps(steps: seq<JournalStep>, groups: map<nat, seq<Item>>)
    requires Grouped(groups, steps) && Distinct(StepIds(steps)) && Members(StepIds(steps)) == GroupIds(groups)
    ensures forall s :: s in steps ==> s.items != []
  {
    forall s | s in steps ensures s.items != [] {
      var k :| 0 <= k < |steps| && steps[k] == s;
      assert StepIds(steps)[k] in Members(StepIds(steps));
      var t :| t in steps && t.id == s.id && t.items != [];
      SameStep(steps, s, t);
    }
  }

  /** Equal counts mean that no step is empty. */
  lemma NoStepEmpty(steps: seq<JournalStep>, groups: map<nat, seq<Item>>, frontier: nat)
    requires Grouped(groups, steps) && ItemsClosed(steps, frontier) && Distinct(StepIds(steps))
    ensures |steps| == |groups.Keys| <==> forall s :: s in steps ==> s.items != []
  {
    hide Grouped, ItemsClosed;
    SizeOfDistinct(StepIds(steps));
    GroupsHaveSteps(steps, groups);
    if forall s :: s in steps ==> s.items != [] {
      StepsHaveGroups(steps, groups, frontier);
      assert Members(StepIds(steps)) == GroupIds(groups);
    }
    if |steps| == |groups.Keys| {
      SameSizeSubset(GroupIds(groups), Members(StepIds(steps)));
      GroupedSteps(steps, groups);
    }
  }

  /** groupCompletedSnapshotItems */
  method GroupItems(steps: seq<JournalStep>, frontier: nat) returns (ok: bool, groups: map<nat, seq<Item>>)
    ensures ok <==> StepsClosed(steps, frontier)
    ensures ok ==> |groups.Keys| == |steps| && forall w, items :: w in groups && groups[w] == items <==> StepOf(steps, w, items)
  {
    hide Grouped, ItemClosed;
    groups := map[];
    assert Grouped(groups, steps[..0]) by { NothingGrouped(steps); }
    for i := 0 to |steps|
      invariant Grouped(groups, steps[..i])
      invariant forall k :: 0 <= k < i ==> forall item :: item in steps[k].items ==> ItemClosed(steps[k].id, item, frontier)
    {
      var before := groups;
      ok, groups := AddStep(steps[i], before, frontier);
      if !ok {
        assert steps[i] in steps;
        return false, groups;
      }
      GroupedOneMore(steps, i, before, groups);
    }
    assert steps[..|steps|] == steps;
    DistinctBySize(StepIds(steps));
    if |Members(StepIds(steps))| != |steps| { return false, groups; }
    NoStepEmpty(steps, groups, frontier);
    if |steps| != |groups.Keys| { return false, groups; }
    GroupsAreSteps(steps, groups, frontier);
    return true, groups;
  }

  lemma NothingGrouped(steps: seq<JournalStep>)
    ensures Grouped(map[], steps[..0])
  {
  }

  lemma GroupsAreSteps(steps: seq<JournalStep>, groups: map<nat, seq<Item>>, frontier: nat)
    requires Grouped(groups, steps) && StepsClosed(steps, frontier)
    ensures forall w, items :: w in groups && groups[w] == items <==> StepOf(steps, w, items)
  {
    forall w, items ensures w in groups && groups[w] == items <==> StepOf(steps, w, items) {
      if w in groups {
        var s :| s in steps && s.id == WaveId(w) && s.items != [];
        assert groups[w] == s.items;
        assert s == JournalStep(WaveId(w), s.items);
        if StepOf(steps, w, items) {
          SameStep(steps, s, JournalStep(WaveId(w), items));
        }
      }
    }
  }

  lemma SameStep(steps: seq<JournalStep>, s: JournalStep, t: JournalStep)
    requires Distinct(StepIds(steps)) && s in steps && t in steps && s.id == t.id
    ensures s == t
  {
    var k :| 0 <= k < |steps| && steps[k] == s;
    var l :| 0 <= l < |steps| && steps[l] == t;
    assert StepIds(steps)[k] == StepIds(steps)[l];
  }

  // ---------------------------------------------------------------- the checks, in their order

  /** requireCurrentSnapshotFrontier: the one suspended wave, and the requests it waits for. */
  method FindFrontier(c: Context, order: seq<nat>, current: seq<Item>) returns (ok: bool, frontier: nat)
    requires forall i :: 0 <= i < |order| ==> order[i] in c.waves
    ensures ok <==> current != [] && Distinct(Actions(current)) && exists k :: 0 <= k < |order| && FrontierAt(c, order, k, current)
    ensures ok ==> exists k :: 0 <= k < |order| && FrontierAt(c, order, k, current) && frontier == order[k]
  {
    DistinctBySize(Actions(current));
    frontier := 0;
    if current == [] || |Members(Actions(current))| != |current| { return false, frontier; }
    var found, at := 0, 0;
    for k := 0 to |order|
      invariant found == 0 <==> forall j :: 0 <= j < k ==> !c.waves[order[j]].status.Suspended?
      invariant found > 0 ==> at < k && c.waves[order[at]].status.Suspended?
      invariant found == 1 ==> forall j :: 0 <= j < k && j != at ==> !c.waves[order[j]].status.Suspended?
      invariant found > 1 ==> exists j :: 0 <= j < k && j != at && c.waves[order[j]].status.Suspended?
    {
      if c.waves[order[k]].status.Suspended? {
        found, at := found + 1, k;
      }
    }
    if found != 1 { return false, frontier; }
    assert OnlySuspended(c, order, at);
    frontier := order[at];
    ok := CurrentRequests(c.waves[frontier], frontier, current);
    assert ok ==> FrontierAt(c, order, at, current);
  }

  ghost predicate FrontierAt(c: Context, order: seq<nat>, k: nat, current: seq<Item>)
    requires k < |order| && forall i :: 0 <= i < |order| ==> order[i] in c.waves
  {
    OnlySuspended(c, order, k) && CurrentRequests(c.waves[order[k]], order[k], current)
  }

  ghost predicate OnlySuspended(c: Context, order: seq<nat>, k: nat)
    requires k < |order| && forall i :: 0 <= i < |order| ==> order[i] in c.waves
  {
    c.waves[order[k]].status.Suspended? && forall j :: 0 <= j < |order| && j != k ==> !c.waves[order[j]].status.Suspended?
  }

  predicate CurrentRequest(request: Request, wave: nat, current: seq<Item>) {
    request.wave == wave && exists item :: item in current && item.request == request
  }

  predicate CurrentRequests(wave: Wave, index: nat, current: seq<Item>) {
    var requests := if wave.suspended.Some? then wave.suspended.value else [];
    && |requests| == |current| && |Members(RequestActions(requests))| == |requests|
    && forall request :: request in requests ==> CurrentRequest(request, index, current)
  }

  /** The waves that succeeded, in order. */
  function Successful(c: Context, order: seq<nat>): (r: seq<nat>)
    requires forall i :: 0 <= i < |order| ==> order[i] in c.waves
    ensures forall x :: x in r <==> x in order && c.waves[x].status.Success?
    ensures |r| <= |order|
    ensures |r| == |order| ==> r == order
    decreases |order|
  {
    if order == [] then []
    else
      var front, last := order[..|order| - 1], order[|order| - 1];
      assert forall x :: x in order <==> x in front || x == last;
      Successful(c, front) + if c.waves[last].status.Success? then [last] else []
  }

  predicate ReplaysAt(c: Context, order: seq<nat>, k: nat, groups: map<nat, seq<Item>>, b: Binding, project: Projector)
    requires k < |order| && forall i :: 0 <= i < |order| ==> order[i] in c.waves
  {
    order[k] in groups && WaveReplays(order[k], c.waves[order[k]], StateBefore(c, order, k), groups[order[k]], b, project)
  }

  /** The successful waves one after the other, each on the output of the one before. */
  method ReplayWaves(c: Context, successful: seq<nat>, groups: map<nat, seq<Item>>, b: Binding, project: Projector)
    returns (ok: bool, prior: RunState)
    requires c.input.observations == [] && forall i :: 0 <= i < |successful| ==> successful[i] in c.waves
    ensures ok <==> forall k :: 0 <= k < |successful| ==> ReplaysAt(c, successful, k, groups, b, project)
    ensures ok ==> prior == StateBefore(c, successful, |successful|)
  {
    hide WaveReplays;
    prior := c.input;
    for k := 0 to |successful|
      invariant prior == StateBefore(c, successful, k)
      invariant forall j :: 0 <= j < k ==> ReplaysAt(c, successful, j, groups, b, project)
    {
      var index := successful[k];
      if index !in groups || !WaveReplays(index, c.waves[index], prior, groups[index], b, project) {
        assert !ReplaysAt(c, successful, k, groups, b, project);
        return false, prior;
      }
      OutputIsNext(c, successful, k, groups[index], b, project);
      prior := c.waves[index].output.value;
    }
    return true, prior;
  }

  lemma OutputIsNext(c: Context, order: seq<nat>, k: nat, group: seq<Item>, b: Binding, project: Projector)
    requires k < |order| && forall i :: 0 <= i < |order| ==> order[i] in c.waves
    requires WaveReplays(order[k], c.waves[order[k]], StateBefore(c, order, k), group, b, project)
    ensures c.waves[order[k]].output == Some(StateBefore(c, order, k + 1))
  {
  }

  lemma {:induction false} EarlierOfPrefix(c: Context, order: seq<nat>, n: nat, k: nat)
    requires k <= n <= |order| && forall i :: 0 <= i < |order| ==> order[i] in c.waves
    ensures StateBefore(c, order[..n], k) == StateBefore(c, order, k)
    decreases k
  {
    if k > 0 {
      EarlierOfPrefix(c, order, n, k - 1);
    }
  }

  lemma {:induction false} AllSuccessful(c: Context, order: seq<nat>)
    requires forall i :: 0 <= i < |order| ==> order[i] in c.waves && c.waves[order[i]].status.Success?
    ensures Successful(c, order) == order
  {
    if order != [] {
      AllSuccessful(c, order[..|order| - 1]);
    }
  }

  lemma SuccessfulBeforeFrontier(c: Context, order: seq<nat>)
    requires order != [] && forall i :: 0 <= i < |order| ==> order[i] in c.waves
    requires forall k :: 0 <= k < |order| - 1 ==> c.waves[order[k]].status.Success?
    requires c.waves[order[|order| - 1]].status.Suspended?
    ensures Successful(c, order) == order[..|order| - 1]
  {
    AllSuccessful(c, order[..|order| - 1]);
  }

  lemma RequestsAreCurrent(wave: Wave, index: nat, current: seq<Item>)
    requires wave.suspended == Some(Requests(current)) && Distinct(Actions(current))
    requires forall item :: item in current ==> item.request.wave == index
    ensures CurrentRequests(wave, index, current)
  {
    var requests := Requests(current);
    assert RequestActions(requests) == Actions(current);
    SizeOfDistinct(Actions(current));
    forall request | request in requests ensures CurrentRequest(request, index, current) {
      var k :| 0 <= k < |current| && requests[k] == request;
      assert current[k] in current;
    }
  }

  lemma CurrentWaves(wave: Wave, index: nat, current: seq<Item>)
    requires CurrentRequests(wave, index, current) && wave.suspended == Some(Requests(current))
    ensures forall item :: item in current ==> item.request.wave == index
  {
    forall item | item in current ensures item.request.wave == index {
      var k :| 0 <= k < |current| && current[k] == item;
      assert Requests(current)[k] in Requests(current);
      assert CurrentRequest(Requests(current)[k], index, current);
    }
  }

  lemma {:induction false} TwoUnsuccessful(c: Context, order: seq<nat>, i: nat, j: nat)
    requires i < j < |order| && forall k :: 0 <= k < |order| ==> order[k] in c.waves
    requires !c.waves[order[i]].status.Success? && !c.waves[order[j]].status.Success?
    ensures |Successful(c, order)| + 2 <= |order|
    decreases |order|
  {
    var front := order[..|order| - 1];
    if j == |order| - 1 {
      NotAllSuccessful(c, front, i);
    } else {
      TwoUnsuccessful(c, front, i, j);
    }
  }

  lemma CountSuccessful(c: Context, order: seq<nat>, at: nat)
    requires at < |order| && forall i :: 0 <= i < |order| ==> order[i] in c.waves
    requires OnlySuspended(c, order, at) && |Successful(c, order)| == |order| - 1
    ensures forall k :: 0 <= k < |order| && k != at ==> c.waves[order[k]].status.Success?
  {
    hide Successful;
    forall k | 0 <= k < |order| && k != at ensures c.waves[order[k]].status.Success? {
      if !c.waves[order[k]].status.Success? {
        TwoUnsuccessful(c, order, if k < at then k else at, if k < at then at else k);
      }
    }
  }

  lemma NotAllSuccessful(c: Context, order: seq<nat>, at: nat)
    requires at < |order| && forall i :: 0 <= i < |order| ==> order[i] in c.waves
    requires !c.waves[order[at]].status.Success?
    ensures |Successful(c, order)| < |order|
  {
    assert order[at] !in Successful(c, order);
    assert order[at] in order;
  }

  /** What a replay passes, in the terms of the checks. */
  lemma ReplayPasses(c: Context, current: seq<Item>, steps: seq<JournalStep>, b: Binding, executable: seq<nat>, project: Projector)
    requires IsReplay(c, current, steps, b, executable, project)
    ensures var order := Order(c); var n := |order| - 1;
            && order != [] && current != [] && Distinct(Actions(current)) && FrontierAt(c, order, n, current)
            && Successful(c, order) == order[..n]
            && StepsClosed(steps, order[n]) && |steps| == n && c.input.header == b.header && c.input.observations == []
  {
    hide WaveClosed, StepsClosed, Order;
    var order := Order(c);
    var n := |order| - 1;
    SuccessfulBeforeFrontier(c, order);
    RequestsAreCurrent(c.waves[order[n]], order[n], current);
  }

  lemma ReplayWavesPass(c: Context, order: seq<nat>, n: nat, current: seq<Item>, steps: seq<JournalStep>, b: Binding, executable: seq<nat>,
                        project: Projector, groups: map<nat, seq<Item>>)
    requires order == Order(c) && |order| == n + 1 && GroupsAre(groups, steps)
    requires IsReplay(c, current, steps, b, executable, project)
    ensures forall k :: 0 <= k < n ==> ReplaysAt(c, order[..n], k, groups, b, project)
    ensures UpTo(executable, order[n]) == order
    ensures FrontierReplays(order[n], c.waves[order[n]], StateBefore(c, order[..n], n), current, b, project)
  {
    hide StepsClosed, WaveClosed, ReplaysAt, FrontierReplays, Order, GroupsAre, StateBefore, Earlier, UpTo;
    EarlierOfPrefix(c, order, n, n);
    forall k | 0 <= k < n ensures ReplaysAt(c, order[..n], k, groups, b, project) {
      ClosedIsReplays(c, order, n, k, groups, steps, b, project);
    }
  }

  lemma ReplayHolds(c: Context, order: seq<nat>, at: nat, current: seq<Item>, steps: seq<JournalStep>, b: Binding, executable: seq<nat>,
                    project: Projector, groups: map<nat, seq<Item>>)
    requires order == Order(c) && |order| == at + 1 && GroupsAre(groups, steps)
    requires OnlySuspended(c, order, at) && |Successful(c, order)| == at
    requires StepsClosed(steps, order[at]) && |steps| == at && c.input.header == b.header && c.input.observations == []
    requires UpTo(executable, order[at]) == order
    requires forall k :: 0 <= k < at ==> ReplaysAt(c, order[..at], k, groups, b, project)
    requires FrontierReplays(order[at], c.waves[order[at]], StateBefore(c, order[..at], at), current, b, project)
    ensures IsReplay(c, current, steps, b, executable, project)
  {
    hide StepsClosed, WaveClosed, ReplaysAt, FrontierReplays, Order, GroupsAre, StateBefore, Earlier, UpTo;
    CountSuccessful(c, order, at);
    EarlierOfPrefix(c, order, at, at);
    forall k | 0 <= k < at ensures WaveClosed(c, order, k, steps, b, project) {
      ClosedIsReplays(c, order, at, k, groups, steps, b, project);
    }
  }

  lemma OneFrontier(c: Context, order: seq<nat>, i: nat, j: nat)
    requires i < |order| && j < |order| && forall k :: 0 <= k < |order| ==> order[k] in c.waves
    requires OnlySuspended(c, order, i) && OnlySuspended(c, order, j)
    ensures i == j
  {
  }

  ghost predicate GroupsAre(groups: map<nat, seq<Item>>, steps: seq<JournalStep>) {
    |groups.Keys| == |steps| && forall w, items :: w in groups && groups[w] == items <==> StepOf(steps, w, items)
  }

  lemma ClosedIsReplays(c: Context, order: seq<nat>, n: nat, k: nat, groups: map<nat, seq<Item>>, steps: seq<JournalStep>, b: Binding, project: Projector)
    requires k < n <= |order| && (forall i :: 0 <= i < |order| ==> order[i] in c.waves) && GroupsAre(groups, steps)
    ensures WaveClosed(c, order, k, steps, b, project) <==> ReplaysAt(c, order[..n], k, groups, b, project)
  {
    hide WaveReplays, StepOf;
    EarlierOfPrefix(c, order, n, k);
  }

  lemma GroupsFromSteps(groups: map<nat, seq<Item>>, steps: seq<JournalStep>)
    requires |groups.Keys| == |steps| && forall w, items :: w in groups && groups[w] == items <==> StepOf(steps, w, items)
    ensures GroupsAre(groups, steps)
  {
  }

  lemma SameFrontier(c: Context, order: seq<nat>, i: nat, j: nat, current: seq<Item>)
    requires i < |order| && j < |order| && forall k :: 0 <= k < |order| ==> order[k] in c.waves
    requires FrontierAt(c, order, i, current) && FrontierAt(c, order, j, current)
    ensures i == j
  {
    OneFrontier(c, order, i, j);
  }

  lemma LastSuspended(c: Context, order: seq<nat>, at: nat, current: seq<Item>)
    requires order != [] && at < |order| && forall k :: 0 <= k < |order| ==> order[k] in c.waves
    requires FrontierAt(c, order, at, current)
    ensures c.waves[order[|order| - 1]].status.Suspended? <==> at == |order| - 1
    ensures OnlySuspended(c, order, at) && CurrentRequests(c.waves[order[at]], order[at], current)
  {
  }

  /** assertSnapshotFrontierFollowsCompleted */
  method CheckFrontier(index: nat, wave: Wave, prior: RunState, current: seq<Item>, b: Binding, project: Projector) returns (ok: bool)
    requires wave.status.Suspended? && current != [] && Distinct(Actions(current)) && CurrentRequests(wave, index, current)
    ensures ok <==> FrontierReplays(index, wave, prior, current, b, project)
  {
    if wave.payload.None? || !InputIs(wave.payload.value, prior, b) { return false; }
    var expected := project(index, wave.payload.value.observations);
    if wave.suspended != Some(expected) || expected != Requests(current) { return false; }
    CurrentWaves(wave, index, current);
    return true;
  }

  /** The waves and the frontier, once the journal is grouped and the counts agree. */
  method CheckReplay(c: Context, order: seq<nat>, ghost at: nat, successful: seq<nat>, groups: map<nat, seq<Item>>, current: seq<Item>,
                     steps: seq<JournalStep>, b: Binding, executable: seq<nat>, project: Projector) returns (ok: bool)
    requires order == Order(c) && at < |order| && FrontierAt(c, order, at, current) && current != [] && Distinct(Actions(current))
    requires successful == Successful(c, order) && |order| == |successful| + 1 && |successful| == |groups.Keys| == |steps|
    requires StepsClosed(steps, order[at]) && GroupsAre(groups, steps)
    requires c.input.header == b.header && c.input.observations == []
    ensures ok <==> IsReplay(c, current, steps, b, executable, project)
  {
    hide StepsClosed, WaveClosed, ReplaysAt, Successful, StateBefore, IsReplay, FrontierAt, GroupsAre, FrontierReplays, OnlySuspended, CurrentRequests;
    if IsReplay(c, current, steps, b, executable, project) {
      ReplayPasses(c, current, steps, b, executable, project);
      SameFrontier(c, order, at, |order| - 1, current);
      ReplayWavesPass(c, order, |order| - 1, current, steps, b, executable, project, groups);
    }
    LastSuspended(c, order, at, current);
    assert forall i :: 0 <= i < |successful| ==> successful[i] in successful;
    var replayed, prior := ReplayWaves(c, successful, groups, b, project);
    if !replayed { return false; }
    var last := order[|order| - 1];
    if UpTo(executable, last) != order || !c.waves[last].status.Suspended? { return false; }
    LastIsPrefix(c, order, at);
    ok := CheckFrontier(last, c.waves[last], prior, current, b, project);
    if ok {
      ReplayHolds(c, order, at, current, steps, b, executable, project, groups);
    }
  }

  lemma LastIsPrefix(c: Context, order: seq<nat>, at: nat)
    requires order != [] && at == |order| - 1 && (forall k :: 0 <= k < |order| ==> order[k] in c.waves)
    requires OnlySuspended(c, order, at) && |Successful(c, order)| == at
    ensures Successful(c, order) == order[..at]
  {
    CountSuccessful(c, order, at);
    SuccessfulBeforeFrontier(c, order);
  }

  /** Accepts a snapshot if and only if it is a replay. */
  method Accept(c: Context, current: seq<Item>, steps: seq<JournalStep>, b: Binding, executable: seq<nat>, project: Projector) returns (ok: bool)
    ensures ok <==> IsReplay(c, current, steps, b, executable, project)
    ensures ok && StrictlyAscending(executable) ==>
              forall f: nat :: Largest(c, f) ==> f in executable && forall w :: w in c.waves <==> w in executable && w <= f
  {
    if StrictlyAscending(executable) {
      forall f: nat | Largest(c, f) && IsReplay(c, current, steps, b, executable, project)
        ensures f in executable && forall w :: w in c.waves <==> w in executable && w <= f
      {
        WavesOfReplay(c, current, steps, b, executable, project, f);
      }
    }
    hide StepsClosed, WaveClosed, ReplaysAt, FrontierAt, GroupsAre, Successful, StateBefore, IsReplay;
    var order := Order(c);
    if IsReplay(c, current, steps, b, executable, project) {
      ReplayPasses(c, current, steps, b, executable, project);
    }
    var found, frontier := FindFrontier(c, order, current);
    if !found { return false; }
    ghost var at: nat :| at < |order| && FrontierAt(c, order, at, current) && frontier == order[at];
    if IsReplay(c, current, steps, b, executable, project) {
      SameFrontier(c, order, at, |order| - 1, current);
    }
    var grouped, groups := GroupItems(steps, frontier);
    if !grouped { return false; }
    GroupsFromSteps(groups, steps);
    var successful := Successful(c, order);
    if |order| != |successful| + 1 || |successful| != |groups.Keys| { return false; }
    if c.input.header != b.header || c.input.observations != [] { return false; }
    ok := CheckReplay(c, order, at, successful, groups, current, steps, b, executable, project);
  }

  // ---------------------------------------------------------------- what a replay implies

  lemma {:induction false} OneMatch(group: seq<Item>, action: string, i: nat, j: nat)
    requires i < j < |group| && group[i].request.action == action == group[j].request.action
    ensures |MatchesOf(group, action)| >= 2
    decreases |group|
  {
    var front := group[..|group| - 1];
    if j < |group| - 1 {
      OneMatch(front, action, i, j);
    } else {
      assert front[i] in front && front[i] in MatchesOf(front, action);
    }
  }

  lemma MatchIsItem(observations: seq<Observation>, group: seq<Item>, o: Observation)
    requires ObservationsClosed(observations, group) && o in observations
    ensures exists k :: 0 <= k < |group| && group[k].request.action == o.action && group[k].observation == Some(o) && group[k].issue == Some(o.issue)
  {
    assert ObservationClosed(o, group);
    var m := MatchesOf(group, o.action)[0];
    assert m in MatchesOf(group, o.action);
    var k :| 0 <= k < |group| && group[k] == m;
  }

  lemma ActionsCovered(observations: seq<Observation>, group: seq<Item>)
    requires ObservationsClosed(observations, group)
    ensures Members(ObservedActions(observations)) == Members(Actions(group)) && Distinct(Actions(group))
  {
    var observed, acted := ObservedActions(observations), Actions(group);
    forall a | a in observed ensures a in acted {
      var k :| 0 <= k < |observations| && observed[k] == a;
      MatchIsItem(observations, group, observations[k]);
      var m :| 0 <= m < |group| && group[m].request.action == a;
      assert acted[m] == a;
    }
    SizeOfDistinct(observed);
    MembersAtMost(acted);
    SubsetSize(Members(observed), Members(acted));
    DistinctBySize(acted);
    SameSizeSubset(Members(observed), Members(acted));
  }

  /** In a completed wave journal items and observations are in one-to-one correspondence, by action,
      issue and content. */
  lemma ObservationsBiject(observations: seq<Observation>, group: seq<Item>)
    requires ObservationsClosed(observations, group)
    ensures |observations| == |group| && Distinct(ObservedActions(observations)) && Distinct(Actions(group))
    ensures forall item :: item in group ==>
              item.observation.Some? && item.observation.value in observations && item.observation.value.action == item.request.action
              && item.issue == Some(item.observation.value.issue)
    ensures forall o :: o in observations ==> exists item :: item in group && item.observation == Some(o)
  {
    ActionsCovered(observations, group);
    forall item | item in group
      ensures item.observation.Some? && item.observation.value in observations && item.observation.value.action == item.request.action
              && item.issue == Some(item.observation.value.issue)
    {
      var k :| 0 <= k < |group| && group[k] == item;
      assert Actions(group)[k] in Actions(group) && Actions(group)[k] in Members(Actions(group));
      assert Actions(group)[k] in ObservedActions(observations);
      var n :| 0 <= n < |observations| && ObservedActions(observations)[n] == item.request.action;
      MatchIsItem(observations, group, observations[n]);
      var m :| 0 <= m < |group| && group[m].request.action == item.request.action && group[m].observation == Some(observations[n])
               && group[m].issue == Some(observations[n].issue);
      assert Actions(group)[m] == Actions(group)[k];
    }
    forall o | o in observations ensures exists item :: item in group && item.observation == Some(o) {
      MatchIsItem(observations, group, o);
      var m :| 0 <= m < |group| && group[m].observation == Some(o);
      assert group[m] in group;
    }
  }

  lemma ExpectedInGroup(expected: seq<Request>, group: seq<Item>)
    requires RequestsClosed(expected, group)
    ensures forall r :: r in expected ==> r in Requests(group)
  {
    forall r | r in expected ensures r in Requests(group) {
      assert RequestClosed(r, group);
      var m := MatchesOf(group, r.action)[0];
      assert m in MatchesOf(group, r.action);
      var k :| 0 <= k < |group| && group[k] == m;
      assert Requests(group)[k] == r;
    }
  }

  /** Everything expected of a wave is in the journal. That the journal has nothing else holds exactly
      when the configuration names no action of the wave twice. */
  lemma RequestsBiject(expected: seq<Request>, observations: seq<Observation>, group: seq<Item>)
    requires RequestsClosed(expected, group) && ObservationsClosed(observations, group)
    ensures forall r :: r in expected ==> r in Requests(group)
    ensures Distinct(RequestActions(expected)) <==> forall r :: r in Requests(group) ==> r in expected
  {
    ExpectedInGroup(expected, group);
    ActionsCovered(observations, group);
    var wanted, issued := RequestActions(expected), Actions(group);
    forall a | a in wanted ensures a in issued {
      var k :| 0 <= k < |expected| && wanted[k] == a;
      assert expected[k] in Requests(group);
      var m :| 0 <= m < |group| && Requests(group)[m] == expected[k];
      assert issued[m] == a;
    }
    if Distinct(wanted) {
      DistinctCount(wanted, Members(issued));
      SizeOfDistinct(issued);
      forall r | r in Requests(group) ensures r in expected {
        var m :| 0 <= m < |group| && Requests(group)[m] == r;
        assert issued[m] in issued && issued[m] in wanted;
        var k :| 0 <= k < |expected| && wanted[k] == issued[m];
        assert expected[k] in Requests(group);
        var l :| 0 <= l < |group| && Requests(group)[l] == expected[k];
        assert issued[l] == issued[m];
      }
    }
    if forall r :: r in Requests(group) ==> r in expected {
      forall a | a in issued ensures a in wanted {
        var m :| 0 <= m < |group| && issued[m] == a;
        assert Requests(group)[m] in Requests(group);
        var k :| 0 <= k < |expected| && expected[k] == Requests(group)[m];
        assert wanted[k] == a;
      }
      assert Members(wanted) == Members(issued);
      SizeOfDistinct(issued);
      DistinctBySize(wanted);
    }
  }

  /** Each wave takes the output of the one before it, and the frontier has every earlier wave's
      observations, in order. */
  lemma ReplayIsAChain(c: Context, current: seq<Item>, steps: seq<JournalStep>, b: Binding, executable: seq<nat>, project: Projector)
    requires IsReplay(c, current, steps, b, executable, project)
    ensures var order := Order(c); var n := |order| - 1;
            && n >= 0
            && (forall k :: 0 <= k < n ==> c.waves[order[k]].output.Some? && c.waves[order[k + 1]].payload == c.waves[order[k]].output)
            && c.waves[order[n]].payload == Some(RunState(b.header, b.selection, Earlier(c, order, n)))
  {
    hide StepsClosed, Order, UpTo;
    var order := Order(c);
    var n := |order| - 1;
    forall k | 0 <= k < n ensures c.waves[order[k]].output.Some? && c.waves[order[k + 1]].payload == c.waves[order[k]].output {
      assert WaveClosed(c, order, k, steps, b, project);
      var items :| StepOf(steps, order[k], items) && WaveReplays(order[k], c.waves[order[k]], StateBefore(c, order, k), items, b, project);
      OutputIsNext(c, order, k, items, b, project);
      if k + 1 < n {
        assert WaveClosed(c, order, k + 1, steps, b, project);
      }
    }
  }

  lemma WaveHasStep(c: Context, order: seq<nat>, k: nat, steps: seq<JournalStep>, b: Binding, project: Projector)
    requires k < |order| && forall i :: 0 <= i < |order| ==> order[i] in c.waves
    requires WaveClosed(c, order, k, steps, b, project)
    ensures WaveId(order[k]) in Members(StepIds(steps))
  {
    hide WaveReplays;
    var items :| StepOf(steps, order[k], items) && WaveReplays(order[k], c.waves[order[k]], StateBefore(c, order, k), items, b, project);
    var m :| 0 <= m < |steps| && steps[m] == JournalStep(WaveId(order[k]), items);
    assert StepIds(steps)[m] == WaveId(order[k]);
  }

  /** As many distinct waves as steps, each with a step, leave no step without a wave. */
  lemma NoOtherStep(waves: seq<nat>, steps: seq<JournalStep>)
    requires |waves| == |steps| && Distinct(StepIds(steps)) && Distinct(waves)
    requires forall k :: 0 <= k < |waves| ==> WaveId(waves[k]) in Members(StepIds(steps))
    ensures forall s :: s in steps ==> exists k :: 0 <= k < |waves| && s.id == WaveId(waves[k])
  {
    var ids := seq(|waves|, k requires 0 <= k < |waves| => WaveId(waves[k]));
    SizeOfDistinct(StepIds(steps));
    DistinctCount(ids, Members(StepIds(steps)));
    forall s | s in steps ensures exists k :: 0 <= k < |waves| && s.id == WaveId(waves[k]) {
      var m :| 0 <= m < |steps| && steps[m] == s;
      assert StepIds(steps)[m] in Members(StepIds(steps));
      assert s.id in ids;
      var k :| 0 <= k < |waves| && ids[k] == s.id;
    }
  }

  /** The journal has no completed step but those of the waves before the frontier. */
  lemma StepsAreWaves(c: Context, current: seq<Item>, steps: seq<JournalStep>, b: Binding, executable: seq<nat>, project: Projector)
    requires IsReplay(c, current, steps, b, executable, project)
    ensures forall s :: s in steps ==> exists k :: 0 <= k < |Order(c)| - 1 && s.id == WaveId(Order(c)[k])
  {
    hide WaveClosed, FrontierReplays, UpTo;
    var order := Order(c);
    var n := |order| - 1;
    AscendingIs(c.waves.Keys);
    forall k | 0 <= k < n ensures WaveId(order[k]) in Members(StepIds(steps)) {
      WaveHasStep(c, order, k, steps, b, project);
    }
    NoOtherStep(order[..n], steps);
  }

  /** The largest wave there is. */
  ghost predicate Largest(c: Context, f: nat) {
    f in c.waves && forall w :: w in c.waves ==> w <= f
  }

  lemma LargestIsLast(order: seq<nat>, f: nat)
    requires StrictlyAscending(order) && f in order && forall w :: w in order ==> w <= f
    ensures order[|order| - 1] == f
  {
    var k :| 0 <= k < |order| && order[k] == f;
    assert order[|order| - 1] in order;
  }

  lemma PrefixIff(order: seq<nat>, executable: seq<nat>, f: nat)
    requires StrictlyAscending(order) && StrictlyAscending(executable) && f in order && forall w :: w in order ==> w <= f
    ensures UpTo(executable, f) == order <==> f in executable && forall w :: w in order <==> w in executable && w <= f
  {
    UpToAscends(executable, f);
    var upTo := UpTo(executable, f);
    hide UpTo, StrictlyAscending;
    if forall w :: w in order <==> w in executable && w <= f {
      OneAscending(upTo, order);
    }
  }

  /** The waves there are, in order, are the executable ones up to the last exactly when that one is
      executable and the waves there are just those that are executable and at most it. */
  lemma OrderIsPrefixIff(c: Context, executable: seq<nat>, f: nat)
    requires StrictlyAscending(executable) && Largest(c, f)
    ensures Order(c) != [] && Order(c)[|Order(c)| - 1] == f
    ensures UpTo(executable, f) == Order(c) <==> f in executable && forall w :: w in c.waves <==> w in executable && w <= f
  {
    hide Order, UpTo, StrictlyAscending;
    OrderAscends(c);
    LargestIsLast(Order(c), f);
    PrefixIff(Order(c), executable, f);
  }

  /** So a snapshot is refused unless its waves are the executable ones up to the largest; and if they are,
      nothing more is asked of the executable waves. */
  lemma WavesOfReplay(c: Context, current: seq<Item>, steps: seq<JournalStep>, b: Binding, executable: seq<nat>, project: Projector, f: nat)
    requires StrictlyAscending(executable) && Largest(c, f)
    ensures IsReplay(c, current, steps, b, executable, project) ==>
              f in executable && forall w :: w in c.waves <==> w in executable && w <= f
    ensures (f in executable && forall w :: w in c.waves <==> w in executable && w <= f) ==>
              (IsReplay(c, current, steps, b, executable, project) <==> IsReplay(c, current, steps, b, Order(c), project))
  {
    OrderIsPrefixIff(c, executable, f);
    OrderAscends(c);
    OrderIsPrefixIff(c, Order(c), f);
    hide IsReplay, Order, UpTo, StrictlyAscending;
    SameButExecutable(c, current, steps, b, executable, Order(c), project, f);
  }

  lemma OrderAscends(c: Context)
    ensures StrictlyAscending(Order(c)) && forall w :: w in Order(c) <==> w in c.waves
  {
    AscendingIs(c.waves.Keys);
  }

  lemma SameButExecutable(c: Context, current: seq<Item>, steps: seq<JournalStep>, b: Binding, executable: seq<nat>, other: seq<nat>,
                          project: Projector, f: nat)
    requires Order(c) != [] && Order(c)[|Order(c)| - 1] == f
    ensures IsReplay(c, current, steps, b, executable, project) ==> UpTo(executable, f) == Order(c)
    ensures UpTo(executable, f) == Order(c) == UpTo(other, f) ==>
              (IsReplay(c, current, steps, b, executable, project) <==> IsReplay(c, current, steps, b, other, project))
  {
    hide WaveClosed, StepsClosed, FrontierReplays, Order, UpTo, StateBefore;
  }

  // ---------------------------------------------------------------- what the checks say, field by field

  lemma {:induction false} MatchesAre(group: seq<Item>, action: string)
    requires Distinct(Actions(group))
    ensures |MatchesOf(group, action)| <= 1
    decreases |group|
  {
    if group != [] {
      var front := group[..|group| - 1];
      assert Actions(front) == Actions(group)[..|group| - 1];
      MatchesAre(front, action);
      forall x | x in front ensures x.request.action != group[|group| - 1].request.action {
        var k :| 0 <= k < |front| && front[k] == x;
        assert Actions(group)[k] != Actions(group)[|group| - 1];
      }
      assert MatchesOf(front, action) != [] ==> MatchesOf(front, action)[0] in MatchesOf(front, action);
    }
  }

  lemma TheMatch(group: seq<Item>, item: Item)
    requires Distinct(Actions(group)) && item in group
    ensures MatchesOf(group, item.request.action) == [item]
  {
    MatchesAre(group, item.request.action);
    var m := MatchesOf(group, item.request.action);
    assert item in m;
    assert m[0] == item;
  }

  /** As many observations as items, each of another action, and each action an item's, leave no two items of
      one action. */
  lemma ItemsApart(observations: seq<Observation>, group: seq<Item>)
    requires |observations| == |group| && Distinct(ObservedActions(observations))
    requires forall o :: o in observations ==> exists item :: item in group && item.request.action == o.action
    ensures Distinct(Actions(group))
  {
    var observed, acted := ObservedActions(observations), Actions(group);
    forall a | a in observed ensures a in acted {
      var k :| 0 <= k < |observations| && observed[k] == a;
      assert observations[k] in observations;
      var item :| item in group && item.request.action == a;
      var m :| 0 <= m < |group| && group[m] == item;
      assert acted[m] == a;
    }
    SizeOfDistinct(observed);
    MembersAtMost(acted);
    SubsetSize(Members(observed), Members(acted));
    DistinctBySize(acted);
  }

  /** The observations of a completed wave and its journal items, one by one. */
  lemma ObservationsSpelledOut(observations: seq<Observation>, group: seq<Item>)
    ensures ObservationsClosed(observations, group) <==>
              && |observations| == |group|
              && (forall i, j :: 0 <= i < j < |observations| ==> observations[i].action != observations[j].action)
              && forall o :: o in observations ==>
                   && o.complete && o.outputDigest == Sha256(o.summary) && o.hostAttempt.None?
                   && exists item :: item in group && item.request.action == o.action && item.issue == Some(o.issue) && item.observation == Some(o)
  {
    if ObservationsClosed(observations, group) {
      forall o | o in observations
        ensures exists item :: item in group && item.request.action == o.action && item.issue == Some(o.issue) && item.observation == Some(o)
      {
        assert ObservationClosed(o, group);
        assert MatchesOf(group, o.action)[0] in MatchesOf(group, o.action);
      }
      assert forall i, j :: 0 <= i < j < |observations| ==> ObservedActions(observations)[i] != ObservedActions(observations)[j];
    }
    if && |observations| == |group|
       && (forall i, j :: 0 <= i < j < |observations| ==> observations[i].action != observations[j].action)
       && forall o :: o in observations ==>
            && o.complete && o.outputDigest == Sha256(o.summary) && o.hostAttempt.None?
            && exists item :: item in group && item.request.action == o.action && item.issue == Some(o.issue) && item.observation == Some(o)
    {
      ItemsApart(observations, group);
      forall o | o in observations ensures ObservationClosed(o, group) {
        var item :| item in group && item.request.action == o.action && item.issue == Some(o.issue) && item.observation == Some(o);
        TheMatch(group, item);
      }
    }
  }

  /** The requests of a completed wave and its journal items, once no two items are of one action. */
  lemma RequestsSpelledOut(expected: seq<Request>, group: seq<Item>)
    requires Distinct(Actions(group))
    ensures RequestsClosed(expected, group) <==>
              |expected| == |group| && forall r :: r in expected ==> exists item :: item in group && item.request == r
  {
    if RequestsClosed(expected, group) {
      forall r | r in expected ensures exists item :: item in group && item.request == r {
        assert RequestClosed(r, group);
        assert MatchesOf(group, r.action)[0] in MatchesOf(group, r.action);
      }
    }
    if |expected| == |group| && forall r :: r in expected ==> exists item :: item in group && item.request == r {
      forall r | r in expected ensures RequestClosed(r, group) {
        var item :| item in group && item.request == r;
        TheMatch(group, item);
      }
    }
  }

  /** A completed wave starts from the state before it, which is of this work, configuration and selection,
      gets one accepted observation for every item of the journal, was asked for what the configuration makes
      of it, and ends with its observations added. */
  lemma WaveSpelledOut(index: nat, wave: Wave, prior: RunState, group: seq<Item>, b: Binding, project: Projector)
    ensures WaveReplays(index, wave, prior, group, b, project) <==>
              && wave.payload == Some(prior) && prior.header == b.header && prior.selection == b.selection
              && wave.resume.Some? && wave.suspended.None?
              && wave.output == Some(RunState(prior.header, prior.selection, prior.observations + wave.resume.value))
              && ObservationsClosed(wave.resume.value, group)
              && RequestsClosed(project(index, prior.observations), group)
  {
  }

  /** The frontier is suspended on exactly the current requests, starts from the state the waves before it
      leave, and the configuration makes just those requests of it. */
  lemma FrontierSpelledOut(index: nat, wave: Wave, prior: RunState, current: seq<Item>, b: Binding, project: Projector)
    ensures FrontierReplays(index, wave, prior, current, b, project) <==>
              && wave.status.Suspended? && current != []
              && (forall i, j :: 0 <= i < j < |current| ==> current[i].request.action != current[j].request.action)
              && (forall item :: item in current ==> item.request.wave == index)
              && wave.payload == Some(prior) && prior.header == b.header && prior.selection == b.selection
              && wave.suspended == Some(project(index, prior.observations))
              && |project(index, prior.observations)| == |current|
              && forall k :: 0 <= k < |current| ==> project(index, prior.observations)[k] == current[k].request
  {
    assert Distinct(Actions(current)) <==> forall i, j :: 0 <= i < j < |current| ==> Actions(current)[i] != Actions(current)[j];
    RequestsAre(project(index, prior.observations), current);
    hide Requests, Distinct;
  }

  lemma RequestsAre(requests: seq<Request>, items: seq<Item>)
    ensures requests == Requests(items) <==> |requests| == |items| && forall k :: 0 <= k < |requests| ==> requests[k] == items[k].request
  {
  }

  /** The journal has one step a wave, none of them empty, with accepted items of that wave alone, and none
      of the frontier or after. */
  lemma StepsSpelledOut(steps: seq<JournalStep>, frontier: nat)
    ensures StepsClosed(steps, frontier) <==>
              && (forall i, j :: 0 <= i < j < |steps| ==> steps[i].id != steps[j].id)
              && forall s :: s in steps ==>
                   && s.id.WaveId? && s.id.index < frontier && s.items != []
                   && forall item :: item in s.items ==> item.request.wave == s.id.index && item.issue.Some? && item.observation.Some?
  {
    assert Distinct(StepIds(steps)) <==> forall i, j :: 0 <= i < j < |steps| ==> StepIds(steps)[i] != StepIds(steps)[j];
    forall s | s in steps && s.items != [] ensures s.items[0] in s.items {
    }
  }
}
