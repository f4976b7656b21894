/** The formation pointer of the local release: which built results a release is formed from. */
module Formation {
  import opened Outcomes

  type Content = string

  /** SHA-256, taken to be injective. */
  datatype Digest = Sha256(preimage: Content)

  datatype Version = Version(major: nat, minor: nat, patch: nat)
  datatype Key = Key(operation: string, request: string)
  datatype Target = Target(request: string, run: string, result: Digest)
  datatype Pointer = Pointer(pair: bool, operation: string, version: Version, source: string, targets: seq<Target>)

  /** One delivered result, and what is formed from one or two of them. */
  datatype Delivery = Delivery(request: string, run: string, bytes: Content)
  datatype Formed = Formed(pair: bool, operation: string, version: Version, source: string, deliveries: seq<Delivery>)

  datatype Store = Store(results: map<Key, Content>, pointer: Option<Pointer>)

  /** compareVersion(a, b) < 0 */
  predicate Below(a: Version, b: Version) {
    if a.major != b.major then a.major < b.major
    else if a.minor != b.minor then a.minor < b.minor
    else a.patch < b.patch
  }

  /** Lexicographic: by major, then minor, then patch. */
  lemma BelowIsLexicographic(a: Version, b: Version)
    ensures Below(a, b) <==>
              || a.major < b.major
              || (a.major == b.major && a.minor < b.minor)
              || (a.major == b.major && a.minor == b.minor && a.patch < b.patch)
  {
  }

  function PointerOf(f: Formed): Pointer {
    Pointer(f.pair, f.operation, f.version, f.source,
            seq(|f.deliveries|, k requires 0 <= k < |f.deliveries| =>
              Target(f.deliveries[k].request, f.deliveries[k].run, Sha256(f.deliveries[k].bytes))))
  }

  /** readConfirmedCIDeliveryFormation finds every result pointed to, with the recorded digest. */
  predicate Confirmed(s: Store) {
    s.pointer.Some? ==> forall t :: t in s.pointer.value.targets ==> Named(s.results, s.pointer.value.operation, t)
  }

  predicate Named(results: map<Key, Content>, operation: string, t: Target) {
    Key(operation, t.request) in results && Sha256(results[Key(operation, t.request)]) == t.result
  }

  predicate Present(results: map<Key, Content>, f: Formed, n: nat)
    requires n <= |f.deliveries|
  {
    forall k :: 0 <= k < n ==> Key(f.operation, f.deliveries[k].request) in results
                               && results[Key(f.operation, f.deliveries[k].request)] == f.deliveries[k].bytes
  }

  /** No result is there with other bytes. */
  predicate Fits(results: map<Key, Content>, f: Formed) {
    forall d :: d in f.deliveries && Key(f.operation, d.request) in results ==> results[Key(f.operation, d.request)] == d.bytes
  }

  /** Whether the pointer may be moved: nowhere back, and for its own operation not at all. */
  predicate MayPoint(pointer: Option<Pointer>, f: Formed) {
    pointer.Some? ==>
      if pointer.value.operation == f.operation then pointer.value == PointerOf(f) else Below(pointer.value.version, f.version)
  }

  predicate OneEach(f: Formed) {
    f.deliveries != [] && forall i, j :: 0 <= i < j < |f.deliveries| ==> f.deliveries[i].request != f.deliveries[j].request
  }

  // ---------------------------------------------------------------- one write

  predicate Written(before: map<Key, Content>, key: Key, bytes: Content, written: Content, after: map<Key, Content>) {
    written <= bytes && after == before[key := written]
  }

  /** A result is created, with its bytes or, when the process stops within, as far as they were written. */
  ghost predicate Delivers(a: Store, f: Formed, d: Delivery, b: Store) {
    && d in f.deliveries && Key(f.operation, d.request) !in a.results && b.pointer == a.pointer
    && exists written :: Written(a.results, Key(f.operation, d.request), d.bytes, written, b.results)
  }

  ghost predicate Points(a: Store, f: Formed, b: Store) {
    && Confirmed(a) && MayPoint(a.pointer, f) && Present(a.results, f, |f.deliveries|)
    && b == a.(pointer := Some(PointerOf(f)))
  }

  ghost predicate Write(a: Store, f: Formed, b: Store) {
    (exists d :: Delivers(a, f, d, b)) || Points(a, f, b)
  }

  /** Any sequence of formations, each of them possibly cut short anywhere, write by write. */
  ghost predicate IsRun(trace: seq<Store>, formed: seq<Formed>) {
    && |trace| == |formed| + 1 && trace[0] == Store(map[], None)
    && forall i :: 0 <= i < |formed| ==> Write(trace[i], formed[i], trace[i + 1])
  }

  lemma RunGrows(trace: seq<Store>, formed: seq<Formed>, f: Formed, b: Store)
    requires IsRun(trace, formed) && Write(trace[|formed|], f, b)
    ensures IsRun(trace + [b], formed + [f])
  {
    hide Write;
    var longer, all := trace + [b], formed + [f];
    forall i | 0 <= i < |all| ensures Write(longer[i], all[i], longer[i + 1]) {
      if i < |formed| {
        assert Write(trace[i], formed[i], trace[i + 1]);
      }
    }
  }

  class Repository {
    var results: map<Key, Content>
    var pointer: Option<Pointer>
    ghost var history: seq<Store>
    ghost var formed: seq<Formed>

    function State(): Store
      reads this
    {
      Store(results, pointer)
    }

    ghost predicate Running()
      reads this
    {
      IsRun(history, formed) && |history| == |formed| + 1 && history[|formed|] == State()
    }

    constructor ()
      ensures Running() && State() == Store(map[], None)
    {
      results, pointer := map[], None;
      history, formed := [Store(map[], None)], [];
    }

    ghost method Log(before: Store, f: Formed)
      requires IsRun(history, formed) && history[|formed|] == before && Write(before, f, State())
      modifies this`history, this`formed
      ensures Running() && formed == old(formed) + [f]
    {
      hide Write;
      RunGrows(history, formed, f, State());
      history, formed := history + [State()], formed + [f];
    }

    /** Creates a result file exclusively, then fills it. A crash within leaves as much as was written. */
    method WriteResult(f: Formed, d: Delivery, uninterrupted: bool) returns (r: Outcome<()>)
      requires Running() && d in f.deliveries && Key(f.operation, d.request) !in results
      modifies this`results, this`history, this`formed
      ensures Running() && Only(old(formed), formed, f)
      ensures !r.Refused? && (r.Crashed? ==> !uninterrupted)
      ensures r.Done? ==> results == old(results)[Key(f.operation, d.request) := d.bytes]
      ensures r.Crashed? ==>
                results == old(results) || exists written :: Written(old(results), Key(f.operation, d.request), d.bytes, written, results)
    {
      hide IsRun;
      ghost var before := State();
      var stop := *;
      if !uninterrupted && stop { return Crashed; }
      var count: int := *;
      if uninterrupted || count < 0 || |d.bytes| < count {
        count := |d.bytes|;
      }
      results := results[Key(f.operation, d.request) := d.bytes[..count]];
      assert Written(before.results, Key(f.operation, d.request), d.bytes, d.bytes[..count], results);
      assert Delivers(before, f, d, State());
      Log(before, f);
      stop := *;
      if !uninterrupted && (stop || count < |d.bytes|) { return Crashed; }
      assert d.bytes[..count] == d.bytes;
      return Done(());
    }

    /** saveReceipt: the pointer is replaced in one step. */
    method SavePointer(f: Formed, uninterrupted: bool) returns (r: Outcome<Pointer>)
      requires Running() && Confirmed(State()) && MayPoint(pointer, f) && Present(results, f, |f.deliveries|)
      modifies this`pointer, this`history, this`formed
      ensures Running() && Only(old(formed), formed, f)
      ensures !r.Refused? && (r.Crashed? ==> !uninterrupted && pointer == old(pointer))
      ensures r.Done? ==> pointer == Some(PointerOf(f)) && r.value == PointerOf(f)
    {
      hide IsRun, Confirmed, MayPoint, Present;
      ghost var before := State();
      var stop := *;
      if !uninterrupted && stop { return Crashed; }
      pointer := Some(PointerOf(f));
      Log(before, f);
      return Done(PointerOf(f));
    }

    /** Decides whether a formation is already the current one, or may become it. */
    method CheckPointer(f: Formed) returns (r: Outcome<bool>)
      ensures !r.Crashed?
      ensures r.Done? <==> Confirmed(State()) && MayPoint(pointer, f)
      ensures r.Done? ==> (r.value ==> pointer == Some(PointerOf(f)))
      ensures r.Done? ==> (pointer == Some(PointerOf(f)) ==> r.value)
    {
      if !Confirmed(State()) { return Refused; }
      if pointer.Some? && pointer.value.operation == f.operation {
        if pointer.value != PointerOf(f) { return Refused; }
        return Done(true);
      }
      if pointer.Some? && !Below(pointer.value.version, f.version) { return Refused; }
      return Done(false);
    }

    /** What a pointer says is what was formed, delivery by delivery. */
    static ghost predicate SaysAll(p: Pointer, f: Formed) {
      && p.pair == f.pair && p.operation == f.operation && p.version == f.version && p.source == f.source
      && |p.targets| == |f.deliveries|
      && forall k :: 0 <= k < |f.deliveries| ==>
           && p.targets[k].request == f.deliveries[k].request && p.targets[k].run == f.deliveries[k].run
           && p.targets[k].result == Sha256(f.deliveries[k].bytes)
    }

    /** persistCIDeliveryFormation: the result first, then the pointer. */
    method Persist(f: Formed, uninterrupted: bool) returns (r: Outcome<Pointer>)
      requires Running() && |f.deliveries| == 1
      modifies this
      ensures Running() && Only(old(formed), formed, f)
      ensures r.Done? ==> pointer == Some(r.value) && SaysAll(r.value, f)
      ensures r.Done? ==> Key(f.operation, f.deliveries[0].request) in results
                          && results[Key(f.operation, f.deliveries[0].request)] == f.deliveries[0].bytes
      ensures r.Crashed? ==> !uninterrupted
      ensures r.Refused? ==> !Fits(old(results), f) || !MayPoint(old(pointer), f)
      ensures !Fits(old(results), f) || !MayPoint(old(pointer), f) ==> !r.Done? && pointer == old(pointer)
    {
      hide IsRun, Confirmed, MayPoint;
      var delivery := f.deliveries[0];
      var key := Key(f.operation, delivery.request);
      if key in results {
        if results[key] != delivery.bytes {
          assert delivery in f.deliveries;
          return Refused;
        }
      } else {
        var _ :- WriteResult(f, delivery, uninterrupted);
      }
      assert Present(results, f, 1);
      RunConfirmed(history, formed, |formed|);
      var current :- CheckPointer(f);
      if current { return Done(PointerOf(f)); }
      r := SavePointer(f, uninterrupted);
    }

    /** The locked part of verifyCIDeliveryFormationPair: the pointer is checked first, then the results that
        are missing are written, then the pointer. */
    method PersistPair(f: Formed, uninterrupted: bool) returns (r: Outcome<Pointer>)
      requires Running() && OneEach(f)
      modifies this
      ensures Running() && Only(old(formed), formed, f)
      ensures r.Done? ==> pointer == Some(r.value) && SaysAll(r.value, f)
      ensures r.Done? ==> forall d :: d in f.deliveries ==> Key(f.operation, d.request) in results && results[Key(f.operation, d.request)] == d.bytes
      ensures r.Crashed? ==> !uninterrupted
      ensures r.Refused? ==> State() == old(State())
      ensures r.Refused? <==> !Fits(old(results), f) || !MayPoint(old(pointer), f)
    {
      hide IsRun, Confirmed, MayPoint;
      if exists d :: d in f.deliveries && Key(f.operation, d.request) in results && results[Key(f.operation, d.request)] != d.bytes {
        return Refused;
      }
      RunConfirmed(history, formed, |formed|);
      var current :- CheckPointer(f);
      if current {
        PointedIsThere(State(), f);
        return Done(PointerOf(f));
      }
      for k := 0 to |f.deliveries|
        invariant Running() && Only(old(formed), formed, f) && pointer == old(pointer)
        invariant Present(results, f, k) && FitsFrom(results, f, k)
      {
        if Key(f.operation, f.deliveries[k].request) !in results {
          var outcome := WriteResult(f, f.deliveries[k], uninterrupted);
          if !outcome.Done? { return Crashed; }
        }
      }
      RunConfirmed(history, formed, |formed|);
      r := SavePointer(f, uninterrupted);
    }
  }

  lemma PointedIsThere(s: Store, f: Formed)
    requires Confirmed(s) && s.pointer == Some(PointerOf(f))
    ensures forall d :: d in f.deliveries ==> Key(f.operation, d.request) in s.results && s.results[Key(f.operation, d.request)] == d.bytes
  {
    forall d | d in f.deliveries ensures Key(f.operation, d.request) in s.results && s.results[Key(f.operation, d.request)] == d.bytes {
      var k :| 0 <= k < |f.deliveries| && f.deliveries[k] == d;
      assert PointerOf(f).targets[k] in PointerOf(f).targets;
    }
  }

  /** Everything added was written for one formation. */
  ghost predicate Only(before: seq<Formed>, after: seq<Formed>, f: Formed) {
    before <= after && forall k :: |before| <= k < |after| ==> after[k] == f
  }

  predicate FitsFrom(results: map<Key, Content>, f: Formed, n: nat) {
    forall k :: n <= k < |f.deliveries| && Key(f.operation, f.deliveries[k].request) in results ==>
                  results[Key(f.operation, f.deliveries[k].request)] == f.deliveries[k].bytes
  }

  // ---------------------------------------------------------------- over whole runs

  predicate Extends(a: map<Key, Content>, b: map<Key, Content>) {
    forall k :: k in a ==> k in b && b[k] == a[k]
  }

  /** A write changes no result there was, and leaves the pointer on results that are there. */
  lemma WriteExtends(a: Store, f: Formed, b: Store)
    requires Write(a, f, b)
    ensures Extends(a.results, b.results) && (Confirmed(a) ==> Confirmed(b))
  {
  }

  lemma {:induction false} RunConfirmed(trace: seq<Store>, formed: seq<Formed>, i: nat)
    requires IsRun(trace, formed) && i < |trace|
    ensures Confirmed(trace[i])
    decreases i
  {
    hide Write, Confirmed;
    if i > 0 {
      RunConfirmed(trace, formed, i - 1);
      WriteExtends(trace[i - 1], formed[i - 1], trace[i]);
    } else {
      assert Confirmed(Store(map[], None)) by { NothingNamed(); }
    }
  }

  lemma NothingNamed()
    ensures Confirmed(Store(map[], None))
  {
  }

  lemma {:induction false} ResultsStay(trace: seq<Store>, formed: seq<Formed>, i: nat, j: nat)
    requires IsRun(trace, formed) && i <= j < |trace|
    ensures Extends(trace[i].results, trace[j].results)
    decreases j
  {
    hide Write, Confirmed;
    if i < j {
      ResultsStay(trace, formed, i, j - 1);
      WriteExtends(trace[j - 1], formed[j - 1], trace[j]);
    }
  }

  /** An operation is of one version: the pending release it belongs to says which. */
  ghost predicate OneVersion(formed: seq<Formed>) {
    forall i, j :: 0 <= i < |formed| && 0 <= j < |formed| && formed[i].operation == formed[j].operation ==> formed[i].version == formed[j].version
  }

  /** The pointer was saved for one of the formations so far. */
  ghost predicate SavedBy(trace: seq<Store>, formed: seq<Formed>, i: nat, k: nat)
    requires i < |trace|
  {
    k < i && k < |formed| && trace[i].pointer == Some(PointerOf(formed[k]))
  }

  lemma {:induction false} PointerWasSaved(trace: seq<Store>, formed: seq<Formed>, i: nat) returns (k: nat)
    requires IsRun(trace, formed) && i < |trace| && trace[i].pointer.Some?
    ensures SavedBy(trace, formed, i, k)
    decreases i
  {
    assert Write(trace[i - 1], formed[i - 1], trace[i]);
    if Points(trace[i - 1], formed[i - 1], trace[i]) {
      k := i - 1;
    } else {
      k := PointerWasSaved(trace, formed, i - 1);
    }
  }

  /** What the pointer may become from p on. */
  predicate Onward(p: Pointer, q: Pointer) {
    if p.operation == q.operation then p == q else Below(p.version, q.version)
  }

  lemma BelowTransitive(a: Version, b: Version, c: Version)
    requires Below(a, b) && Below(b, c)
    ensures Below(a, c)
  {
  }

  lemma NeverBelowItself(a: Version)
    ensures !Below(a, a)
  {
  }

  /** Throughout, what is pointed to is there with the recorded digests; for one operation it
      never changes; and whenever the operation changes its version has risen. */
  lemma PointerIsMonotone(trace: seq<Store>, formed: seq<Formed>, i: nat, j: nat)
    requires IsRun(trace, formed) && OneVersion(formed) && i <= j < |trace| && trace[i].pointer.Some?
    ensures Confirmed(trace[j]) && trace[j].pointer.Some?
    ensures var p, q := trace[i].pointer.value, trace[j].pointer.value;
            && (p.operation == q.operation ==> p == q)
            && (p.operation != q.operation ==>
                  || p.version.major < q.version.major
                  || (p.version.major == q.version.major && p.version.minor < q.version.minor)
                  || (p.version.major == q.version.major && p.version.minor == q.version.minor && p.version.patch < q.version.patch))
  {
    PointerGoesOnward(trace, formed, i, j);
    BelowIsLexicographic(trace[i].pointer.value.version, trace[j].pointer.value.version);
  }

  lemma {:induction false} PointerGoesOnward(trace: seq<Store>, formed: seq<Formed>, i: nat, j: nat)
    requires IsRun(trace, formed) && OneVersion(formed) && i <= j < |trace| && trace[i].pointer.Some?
    ensures Confirmed(trace[j]) && trace[j].pointer.Some? && Onward(trace[i].pointer.value, trace[j].pointer.value)
    decreases j
  {
    hide Below, Confirmed;
    RunConfirmed(trace, formed, j);
    if i < j {
      PointerGoesOnward(trace, formed, i, j - 1);
      var a := PointerWasSaved(trace, formed, i);
      var b := PointerWasSaved(trace, formed, j - 1);
      assert Write(trace[j - 1], formed[j - 1], trace[j]);
      if Points(trace[j - 1], formed[j - 1], trace[j]) {
        OnwardAgain(PointerOf(formed[a]), PointerOf(formed[b]), formed[j - 1]);
      }
    }
  }

  lemma OnwardAgain(p: Pointer, q: Pointer, f: Formed)
    requires Onward(p, q) && MayPoint(Some(q), f) && (p.operation == f.operation ==> p.version == f.version)
    ensures Onward(p, PointerOf(f))
  {
    if p.operation != q.operation && q.operation != f.operation {
      BelowTransitive(p.version, q.version, f.version);
      NeverBelowItself(p.version);
    }
  }

  /** A result that a crash left short of its bytes stays so: no formation that holds the result is ever the
      current one afterwards, and every attempt at one is refused. */
  lemma TornForGood(trace: seq<Store>, formed: seq<Formed>, i: nat, j: nat, f: Formed, d: Delivery)
    requires IsRun(trace, formed) && i <= j < |trace| && d in f.deliveries
    requires Key(f.operation, d.request) in trace[i].results && trace[i].results[Key(f.operation, d.request)] != d.bytes
    ensures !Fits(trace[j].results, f) && trace[j].pointer != Some(PointerOf(f))
  {
    ResultsStay(trace, formed, i, j);
    RunConfirmed(trace, formed, j);
    hide IsRun;
    var k :| 0 <= k < |f.deliveries| && f.deliveries[k] == d;
    assert PointerOf(f).targets[k] in PointerOf(f).targets;
    assert !Named(trace[j].results, f.operation, PointerOf(f).targets[k]);
  }

  /** And a crash can leave any part of the bytes. */
  lemma TornIsReached(f: Formed, d: Delivery, written: Content)
    requires d in f.deliveries && written <= d.bytes
    ensures IsRun([Store(map[], None), Store(map[Key(f.operation, d.request) := written], None)], [f])
  {
    var a, b := Store(map[], None), Store(map[Key(f.operation, d.request) := written], None);
    assert Written(a.results, Key(f.operation, d.request), d.bytes, written, b.results);
    assert Delivers(a, f, d, b);
  }
}
