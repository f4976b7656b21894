/** Repository-relative paths as the clean-initialization journals write them:
    strings of parts separated by '/', compared after folding letter case. */
module Paths {
  import opened Collections

  function FoldChar(c: char): char {
    if 'A' <= c <= 'Z' then (c as int + 32) as char else c
  }

  /** toLowerCase on ASCII text. */
  function Fold(s: string): (r: string)
    ensures |r| == |s|
    ensures forall i :: 0 <= i < |s| ==> r[i] == FoldChar(s[i])
  {
    seq(|s|, i requires 0 <= i < |s| => FoldChar(s[i]))
  }

  /** child === parent || child.startsWith(parent + '/') */
  predicate Contains(parent: string, child: string) {
    child == parent || parent + "/" <= child
  }

  predicate Overlap(a: string, b: string) {
    Contains(a, b) || Contains(b, a)
  }

  function FirstSlash(s: string): (r: int)
    ensures -1 <= r < |s|
    ensures r >= 0 ==> s[r] == '/' && '/' !in s[..r]
    ensures r < 0 ==> '/' !in s
  {
    if s == [] then -1
    else if s[0] == '/' then 0
    else
      var rest := FirstSlash(s[1..]);
      assert s == [s[0]] + s[1..];
      if rest < 0 then -1 else assert s[..rest + 1] == [s[0]] + s[1..][..rest]; rest + 1
  }

  function LastSlash(s: string): (r: int)
    ensures -1 <= r < |s|
    ensures r >= 0 ==> s[r] == '/'
    ensures forall i :: r < i < |s| ==> s[i] != '/'
  {
    if s == [] then -1
    else if s[|s| - 1] == '/' then |s| - 1
    else LastSlash(s[..|s| - 1])
  }

  /** path.posix.dirname for a relative path with no trailing separator. */
  function Dirname(s: string): string {
    if LastSlash(s) < 0 then "." else s[..LastSlash(s)]
  }

  /** s.split('/') */
  function Split(s: string): (parts: seq<string>)
    ensures |parts| >= 1
    decreases |s|
  {
    var k := FirstSlash(s);
    if k < 0 then [s] else [s[..k]] + Split(s[k + 1..])
  }

  predicate HasControlCharacters(s: string) {
    exists i :: 0 <= i < |s| && (s[i] as int < 32 || s[i] as int == 127)
  }

  predicate SafePath(s: string, allowDot: bool) {
    && s != ""
    && |s| <= 4096
    && '\\' !in s
    && ':' !in s
    && !HasControlCharacters(s)
    && (if s == "." then allowDot
        else forall i :: 0 <= i < |Split(s)| ==> Split(s)[i] != "" && Split(s)[i] != "." && Split(s)[i] != "..")
  }

  /** The shape of every ancestor of a path: cut it at one of its separators. */
  predicate CutAt(s: string, k: int) {
    0 <= k < |s| && s[k] == '/'
  }

  /** A path lies strictly below another exactly when the other is one of its cuts. */
  lemma AncestorsAreCuts(parent: string, child: string)
    ensures (Contains(parent, child) && parent != child) <==> (CutAt(child, |parent|) && child[..|parent|] == parent)
  {
    if CutAt(child, |parent|) && child[..|parent|] == parent {
      assert child[..|parent| + 1] == parent + "/";
    }
  }

  ghost predicate NoneOverlap(paths: seq<string>) {
    forall i, j :: 0 <= i < |paths| && 0 <= j < |paths| && i != j ==> !Contains(Fold(paths[i]), Fold(paths[j]))
  }

  ghost predicate FoldedDistinct(paths: seq<string>) {
    forall i, j :: 0 <= i < j < |paths| ==> Fold(paths[i]) != Fold(paths[j])
  }

  lemma FoldsContain(a: string, b: string)
    requires Contains(a, b)
    ensures Contains(Fold(a), Fold(b))
  {
    if a != b {
      assert forall i :: 0 <= i < |a| ==> Fold(b)[i] == FoldChar(b[i]) && b[i] == (a + "/")[i];
      assert b[|a|] == (a + "/")[|a|];
      assert Fold(a) + "/" == Fold(b)[..|a| + 1];
    }
  }

  lemma FoldedIsDistinct(paths: seq<string>)
    requires FoldedDistinct(paths)
    ensures Distinct(paths)
  {
    forall i, j | 0 <= i < j < |paths| ensures paths[i] != paths[j] {
      assert Fold(paths[i]) != Fold(paths[j]);
    }
  }

  ghost predicate AllSafe(paths: seq<string>, allowDot: bool) {
    forall i :: 0 <= i < |paths| ==> SafePath(paths[i], allowDot)
  }

  /** Climbs from a path to its ancestors, one lookup a step. */
  method Climb(item: string, seen: set<string>) returns (found: bool)
    ensures found <==> exists q :: q in seen && q != item && Contains(q, item)
  {
    var parent := item;
    while LastSlash(parent) >= 0
      invariant |parent| <= |item| && parent == item[..|parent|]
      invariant |parent| == |item| || CutAt(item, |parent|)
      invariant forall k :: |parent| <= k < |item| && CutAt(item, k) ==> item[..k] !in seen
      decreases |parent|
    {
      var k := LastSlash(parent);
      assert parent[..k] == item[..k];
      parent := parent[..k];
      if parent in seen {
        AncestorsAreCuts(parent, item);
        return true;
      }
    }
    forall q | q in seen && q != item ensures !Contains(q, item) {
      AncestorsAreCuts(q, item);
      if |q| < |parent| { assert item[|q|] == parent[|q|] != '/'; }
    }
    return false;
  }

  /** uniquePaths: the hash-and-climb check accepts exactly the safe, case-insensitively distinct
      and, where asked, non-nested path lists. */
  method UniquePaths(paths: seq<string>, disjoint: bool, allowDot: bool) returns (ok: bool)
    ensures ok <==> AllSafe(paths, allowDot) && FoldedDistinct(paths) && (disjoint ==> NoneOverlap(paths))
  {
    var seen: set<string> := {};
    var keys: seq<string> := [];
    for i := 0 to |paths|
      invariant |keys| == i && forall j :: 0 <= j < i ==> keys[j] == Fold(paths[j])
      invariant forall q :: q in seen <==> q in keys
      invariant AllSafe(paths[..i], allowDot) && FoldedDistinct(paths[..i])
    {
      if !SafePath(paths[i], allowDot) {
        return false;
      }
      var key := Fold(paths[i]);
      if key in seen {
        assert exists j :: 0 <= j < i && Fold(paths[j]) == key;
        return false;
      }
      seen := seen + {key};
      keys := keys + [key];
    }
    assert paths[..|paths|] == paths;
    if disjoint {
      for i := 0 to |keys|
        invariant forall a, b :: 0 <= a < |paths| && 0 <= b < i && a != b ==> !Contains(Fold(paths[a]), Fold(paths[b]))
      {
        var overlapping := Climb(keys[i], seen);
        if overlapping {
          ghost var q :| q in seen && q != keys[i] && Contains(q, keys[i]);
          ghost var a :| 0 <= a < |keys| && keys[a] == q;
          assert !NoneOverlap(paths) by { assert Contains(Fold(paths[a]), Fold(paths[i])); }
          return false;
        }
        forall a | 0 <= a < |paths| && a != i ensures !Contains(Fold(paths[a]), Fold(paths[i])) {
          assert keys[a] in seen;
        }
      }
    }
    return true;
  }

  /** A component prefix of a path: the whole of it, or one of its ancestors. */
  ghost predicate ComponentPrefix(p: string, path: string) {
    p == path || (CutAt(path, |p|) && path[..|p|] == p)
  }

  ghost predicate Relative(path: string) {
    path != "" ==> path[0] != '/'
  }

  lemma SafePathIsRelative(path: string, allowDot: bool)
    requires SafePath(path, allowDot)
    ensures Relative(path)
  {
    if FirstSlash(path) == 0 { assert Split(path)[0] == ""; }
  }

  /** Two case-equal component prefixes anywhere in the list are spelled the same. */
  ghost predicate ConsistentSpelling(paths: seq<string>) {
    forall a, b, p, q ::
      0 <= a < |paths| && 0 <= b < |paths| && ComponentPrefix(p, paths[a]) && ComponentPrefix(q, paths[b]) && Fold(p) == Fold(q)
      ==> p == q
  }

  /** The spelling map holds each prefix walked so far under its folded key, and nothing else. */
  ghost predicate Recorded(spellings: map<string, string>, walked: set<string>) {
    && (forall key :: key in spellings ==> spellings[key] in walked && Fold(spellings[key]) == key)
    && (forall p :: p in walked ==> Fold(p) in spellings && spellings[Fold(p)] == p)
  }

  lemma RecordedAfter(spellings: map<string, string>, walked: set<string>, prefix: string)
    requires Recorded(spellings, walked)
    requires Fold(prefix) in spellings ==> spellings[Fold(prefix)] == prefix
    ensures Recorded(spellings[Fold(prefix) := prefix], walked + {prefix})
  {
    var after := spellings[Fold(prefix) := prefix];
    forall p | p in walked + {prefix} ensures Fold(p) in after && after[Fold(p)] == p {
      if p != prefix { assert p in walked; }
    }
  }

  ghost predicate PrefixOfSome(p: string, paths: seq<string>) {
    exists a :: 0 <= a < |paths| && ComponentPrefix(p, paths[a])
  }

  lemma SpelledTwice(p: string, q: string, paths: seq<string>)
    requires PrefixOfSome(p, paths) && PrefixOfSome(q, paths) && Fold(p) == Fold(q) && p != q
    ensures !ConsistentSpelling(paths)
  {
  }

  ghost predicate HoldsPrefixes(walked: set<string>, path: string) {
    forall p :: ComponentPrefix(p, path) ==> p in walked
  }

  /** A walk along the parts of a path: lead has been read, rest is still to come as todo. */
  ghost predicate Standing(path: string, prefix: string, lead: string, rest: string, todo: seq<string>) {
    && path == lead + rest
    && todo == Split(rest)
    && lead == if prefix != "" then prefix + "/" else ""
  }

  lemma NextPart(path: string, lead: string, rest: string, part: string, k: int)
    requires path == lead + rest && k == FirstSlash(rest)
    requires part == if k < 0 then rest else rest[..k]
    ensures k < 0 ==> lead + part == path
    ensures k >= 0 ==> path == (lead + part + "/") + rest[k + 1..]
    ensures ComponentPrefix(lead + part, path)
    ensures forall p :: ComponentPrefix(p, path) && |p| < |lead + part| ==> |p| < |lead|
  {
    var longer := lead + part;
    assert k >= 0 ==> path[|longer|] == rest[k] && path[..|longer|] == longer;
    forall i | |lead| <= i < |longer| ensures path[i] != '/' {
      assert path[i] == rest[i - |lead|] == part[i - |lead|];
    }
  }

  /** The component prefixes up to the new one are those walked before and the new one. */
  lemma WalkedSoFar(path: string, prefix: string, lead: string, longer: string, walked: set<string>)
    requires lead == (if prefix != "" then prefix + "/" else "") && ComponentPrefix(longer, path) && Relative(path)
    requires forall p :: ComponentPrefix(p, path) && |p| < |longer| ==> |p| < |lead|
    requires prefix != "" ==> forall p :: ComponentPrefix(p, path) && |p| <= |prefix| ==> p in walked
    ensures forall p :: ComponentPrefix(p, path) && |p| <= |longer| ==> p in walked + {longer}
  {
    forall p | ComponentPrefix(p, path) && |p| <= |longer| ensures p in walked + {longer} {
      assert p == path[..|p|] && longer == path[..|longer|];
    }
  }

  ghost predicate Walking(path: string, prefix: string, lead: string, rest: string, todo: seq<string>, walked: set<string>) {
    && (if todo != [] then Standing(path, prefix, lead, rest, todo) else prefix == path)
    && (prefix != "" || todo == [] ==> forall p :: ComponentPrefix(p, path) && |p| <= |prefix| ==> p in walked)
  }

  lemma WalkOn(path: string, prefix: string, lead: string, rest: string, todo: seq<string>, walked: set<string>)
    returns (lead': string, rest': string)
    requires Relative(path) && todo != [] && Walking(path, prefix, lead, rest, todo, walked)
    ensures ComponentPrefix(lead + todo[0], path)
    ensures lead + todo[0] == if prefix != "" then prefix + "/" + todo[0] else todo[0]
    ensures Walking(path, lead + todo[0], lead', rest', todo[1..], walked + {lead + todo[0]})
  {
    var k := FirstSlash(rest);
    NextPart(path, lead, rest, todo[0], k);
    WalkedSoFar(path, prefix, lead, lead + todo[0], walked);
    lead', rest' := lead, rest;
    if k >= 0 {
      lead', rest' := lead + todo[0] + "/", rest[k + 1..];
    }
  }

  ghost predicate AllPrefixes(walked: set<string>, paths: seq<string>) {
    forall p :: p in walked ==> PrefixOfSome(p, paths)
  }

  /** Walks the parts of one path, recording each prefix unless it is spelled differently elsewhere. */
  method RecordPath(path: string, spellings: map<string, string>, ghost walked: set<string>, ghost paths: seq<string>)
    returns (ok: bool, after: map<string, string>, ghost walked': set<string>)
    requires path in paths && Relative(path)
    requires Recorded(spellings, walked) && AllPrefixes(walked, paths)
    ensures ok ==> Recorded(after, walked') && AllPrefixes(walked', paths)
    ensures ok ==> walked <= walked' && HoldsPrefixes(walked', path)
    ensures !ok ==> !ConsistentSpelling(paths)
  {
    var todo := Split(path);
    var prefix := "";
    ghost var lead, rest := "", path;
    after, walked' := spellings, walked;
    while todo != []
      invariant Walking(path, prefix, lead, rest, todo, walked')
      invariant Recorded(after, walked') && AllPrefixes(walked', paths) && walked <= walked'
      decreases |todo|
    {
      ghost var lead', rest' := WalkOn(path, prefix, lead, rest, todo, walked');
      prefix := if prefix != "" then prefix + "/" + todo[0] else todo[0];
      todo, lead, rest := todo[1..], lead', rest';
      assert PrefixOfSome(prefix, paths);
      var key := Fold(prefix);
      if key in after && after[key] != prefix {
        SpelledTwice(prefix, after[key], paths);
        return false, after, walked';
      }
      RecordedAfter(after, walked', prefix);
      after := after[key := prefix];
      walked' := walked' + {prefix};
    }
    ok := true;
  }

  /** consistentPathCase: the spelling map accepts exactly the consistently spelled lists. */
  method ConsistentPathCase(paths: seq<string>) returns (ok: bool)
    requires forall i :: 0 <= i < |paths| ==> Relative(paths[i])
    ensures ok <==> ConsistentSpelling(paths)
  {
    var spellings: map<string, string> := map[];
    ghost var walked: set<string> := {};
    for i := 0 to |paths|
      invariant Recorded(spellings, walked) && AllPrefixes(walked, paths)
      invariant forall a :: 0 <= a < i ==> HoldsPrefixes(walked, paths[a])
    {
      ok, spellings, walked := RecordPath(paths[i], spellings, walked, paths);
      if !ok {
        return;
      }
    }
    ok := true;
  }

  /** JavaScript's < on strings: code units, left to right. */
  predicate LexLess(a: string, b: string) {
    if b == "" then false
    else if a == "" then true
    else if a[0] != b[0] then a[0] < b[0]
    else LexLess(a[1..], b[1..])
  }

  ghost predicate Ordered(paths: seq<string>) {
    forall i :: 0 < i < |paths| ==> LexLess(paths[i - 1], paths[i])
  }

  lemma {:induction false} LexLessTransitive(a: string, b: string, c: string)
    requires LexLess(a, b) && LexLess(b, c)
    ensures LexLess(a, c)
  {
    if a != "" && a[0] == b[0] == c[0] {
      LexLessTransitive(a[1..], b[1..], c[1..]);
    }
  }

  lemma {:induction false} LexTotal(a: string, b: string)
    requires a != b
    ensures LexLess(a, b) || LexLess(b, a)
  {
    if a != "" && b != "" && a[0] == b[0] {
      LexTotal(a[1..], b[1..]);
    }
  }

  lemma {:induction false} LexLessIrreflexive(a: string)
    ensures !LexLess(a, a)
  {
    if a != "" { LexLessIrreflexive(a[1..]); }
  }

  lemma {:induction false} OrderedPairs(paths: seq<string>, i: nat, j: nat)
    requires Ordered(paths) && i < j < |paths|
    ensures LexLess(paths[i], paths[j])
    decreases j
  {
    if i + 1 < j {
      OrderedPairs(paths, i, j - 1);
      LexLessTransitive(paths[i], paths[j - 1], paths[j]);
    }
  }

  lemma {:induction false} ProperPrefixIsLess(a: string, b: string)
    requires a < b
    ensures LexLess(a, b)
  {
    if a != "" {
      assert a[1..] < b[1..];
      ProperPrefixIsLess(a[1..], b[1..]);
    }
  }

  method CheckOrdered(paths: seq<string>) returns (ok: bool)
    ensures ok <==> Ordered(paths)
  {
    for i := 0 to |paths|
      invariant forall j :: 0 < j < i ==> LexLess(paths[j - 1], paths[j])
    {
      if i > 0 && !LexLess(paths[i - 1], paths[i]) {
        return false;
      }
    }
    return true;
  }

  /** In a lexicographically ordered list an ancestor always stands before what it contains. */
  lemma AncestorComesFirst(paths: seq<string>, i: nat, j: nat)
    requires Ordered(paths) && i < |paths| && j < |paths|
    requires Contains(paths[i], paths[j]) && paths[i] != paths[j]
    ensures i < j
  {
    ProperPrefixIsLess(paths[i], paths[j]);
    if j < i {
      OrderedPairs(paths, j, i);
      LexLessTransitive(paths[i], paths[j], paths[i]);
    }
    LexLessIrreflexive(paths[i]);
  }
}
