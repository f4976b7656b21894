/** Directory listings derived from a list of paths: the names directly below each directory. */
module Listings {
  import opened Collections
  import opened Paths

  /** The last part of a path that has a parent. */
  function Leaf(path: string): string {
    path[LastSlash(path) + 1..]
  }

  predicate ChildOf(path: string, directory: string) {
    LastSlash(path) >= 0 && Dirname(path) == directory
  }

  ghost predicate ChildNamed(paths: seq<string>, directory: string, name: string) {
    exists p :: p in paths && ChildOf(p, directory) && Leaf(p) == name
  }

  /** The names directly below a directory, in the order of the paths. */
  function Names(paths: seq<string>, directory: string): (r: seq<string>)
    ensures forall n :: n in r <==> ChildNamed(paths, directory, n)
  {
    if paths == [] then []
    else
      var front, last := paths[..|paths| - 1], paths[|paths| - 1];
      assert forall p :: p in paths <==> p in front || p == last;
      Names(front, directory) + if ChildOf(last, directory) then [Leaf(last)] else []
  }

  // ---------------------------------------------------------------- sorting names

  function InsertName(name: string, sorted: seq<string>): (r: seq<string>)
    ensures forall n :: n in r <==> n == name || n in sorted
  {
    if sorted == [] then [name]
    else if LexLess(sorted[0], name) then [sorted[0]] + InsertName(name, sorted[1..])
    else [name] + sorted
  }

  function SortNames(names: seq<string>): (r: seq<string>)
    ensures forall n :: n in r <==> n in names
  {
    if names == [] then [] else InsertName(names[0], SortNames(names[1..]))
  }

  lemma {:induction false} InsertOrdered(name: string, sorted: seq<string>)
    requires Ordered(sorted) && name !in sorted
    ensures Ordered(InsertName(name, sorted))
  {
    if sorted != [] {
      LexTotal(name, sorted[0]);
      if LexLess(sorted[0], name) {
        var rest := sorted[1..];
        InsertOrdered(name, rest);
        var r := InsertName(name, rest);
        assert r[0] == name || r[0] == rest[0];
      }
    }
  }

  lemma {:induction false} SortOrdered(names: seq<string>)
    requires Distinct(names)
    ensures Ordered(SortNames(names))
  {
    if names != [] {
      SortOrdered(names[1..]);
      assert names[0] !in names[1..];
      InsertOrdered(names[0], SortNames(names[1..]));
    }
  }

  lemma OrderedHead(a: seq<string>, b: seq<string>)
    requires Ordered(a) && Ordered(b) && a != [] && b != [] && a[0] in b && b[0] in a
    ensures a[0] == b[0]
  {
    var i :| 0 <= i < |b| && b[i] == a[0];
    var j :| 0 <= j < |a| && a[j] == b[0];
    if i > 0 && j > 0 {
      OrderedPairs(b, 0, i);
      OrderedPairs(a, 0, j);
      LexLessTransitive(a[0], b[0], a[0]);
      LexLessIrreflexive(a[0]);
    }
  }

  lemma HeadNotInTail(a: seq<string>)
    requires Ordered(a) && a != []
    ensures a[0] !in a[1..] && Ordered(a[1..])
  {
    forall j | 0 < j < |a| ensures a[j] != a[0] {
      OrderedPairs(a, 0, j);
      LexLessIrreflexive(a[0]);
    }
  }

  lemma {:induction false} OneOrderedList(a: seq<string>, b: seq<string>)
    requires Ordered(a) && Ordered(b) && forall n :: n in a <==> n in b
    ensures a == b
  {
    assert forall k :: 0 <= k < |b| ==> b[k] in b;
    if a != [] {
      assert a[0] in b;
      assert b[0] in a;
      OrderedHead(a, b);
      HeadNotInTail(a);
      HeadNotInTail(b);
      assert forall n :: n in a <==> n == a[0] || n in a[1..];
      assert forall n :: n in b <==> n == b[0] || n in b[1..];
      OneOrderedList(a[1..], b[1..]);
    }
  }

  lemma SplitPath(path: string)
    requires LastSlash(path) >= 0
    ensures path == Dirname(path) + "/" + Leaf(path)
  {
    var k := LastSlash(path);
    assert path == path[..k] + [path[k]] + path[k + 1..];
  }

  lemma LeavesDiffer(a: string, b: string, directory: string)
    requires ChildOf(a, directory) && ChildOf(b, directory) && a != b
    ensures Leaf(a) != Leaf(b)
  {
    SplitPath(a);
    SplitPath(b);
  }

  lemma {:induction false} NamesDistinct(paths: seq<string>, directory: string)
    requires Distinct(paths)
    ensures Distinct(Names(paths, directory))
  {
    if paths != [] {
      var n := |paths| - 1;
      var front, last := paths[..n], paths[n];
      NamesDistinct(front, directory);
      forall p | p in front && ChildOf(p, directory) && ChildOf(last, directory) ensures Leaf(p) != Leaf(last) {
        LeavesDiffer(p, last, directory);
      }
      assert ChildOf(last, directory) ==> Leaf(last) !in Names(front, directory);
    }
  }

  /** Comparing with the sorted names is listing exactly them in order. */
  lemma ListedIsSorted(paths: seq<string>, directory: string, children: seq<string>)
    requires Distinct(paths)
    ensures children == SortNames(Names(paths, directory)) <==>
              Ordered(children) && forall n :: n in children <==> n in Names(paths, directory)
  {
    NamesDistinct(paths, directory);
    SortOrdered(Names(paths, directory));
    if Ordered(children) && forall n :: n in children <==> n in Names(paths, directory) {
      OneOrderedList(children, SortNames(Names(paths, directory)));
    }
  }

  function Listed(directChildren: map<string, seq<string>>, directory: string): seq<string> {
    if directory in directChildren then directChildren[directory] else []
  }

  /** Collects the names below every directory in one pass. */
  method DirectChildren(paths: seq<string>) returns (directChildren: map<string, seq<string>>)
    ensures forall d :: Listed(directChildren, d) == Names(paths, d)
  {
    directChildren := map[];
    for i := 0 to |paths|
      invariant forall d :: Listed(directChildren, d) == Names(paths[..i], d)
    {
      var path := paths[i];
      assert paths[..i + 1][..i] == paths[..i];
      if LastSlash(path) >= 0 {
        directChildren := directChildren[Dirname(path) := Listed(directChildren, Dirname(path)) + [Leaf(path)]];
      }
    }
    assert paths[..|paths|] == paths;
  }
}
