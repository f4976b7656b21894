/** The functions on paths in elementary terms: what is folded to what, what the parts of a path are, and
    which of two strings comes first. */
module PathTerms {
  import opened Listings
  import opened Paths

  /** Folding takes each of the 26 capital letters to its small letter and leaves everything else. */
  lemma FoldLetters(c: char)
    ensures var capitals, small := "ABCDEFGHIJKLMNOPQRSTUVWXYZ", "abcdefghijklmnopqrstuvwxyz";
            && (forall k :: 0 <= k < 26 && capitals[k] == c ==> FoldChar(c) == small[k])
            && (c !in capitals ==> FoldChar(c) == c)
  {
    var capitals, small := "ABCDEFGHIJKLMNOPQRSTUVWXYZ", "abcdefghijklmnopqrstuvwxyz";
    assert |capitals| == 26 == |small|;
    assert forall k :: 0 <= k < 26 ==> capitals[k] as int == 'A' as int + k && small[k] as int == 'a' as int + k;
    if 'A' <= c <= 'Z' {
      assert capitals[c as int - 'A' as int] == c;
    }
  }

  /** A stretch of a path between two separators, or up to an end. */
  predicate IsPart(s: string, i: int, j: int) {
    0 <= i <= j <= |s| && (i == 0 || s[i - 1] == '/') && (j == |s| || s[j] == '/') && '/' !in s[i..j]
  }

  lemma LaterPart(s: string, k: int, i: int, j: int)
    requires k == FirstSlash(s) && k >= 0 && 0 <= i <= j
    ensures IsPart(s[k + 1..], i, j) <==> IsPart(s, i + k + 1, j + k + 1)
    ensures IsPart(s[k + 1..], i, j) ==> s[k + 1..][i..j] == s[i + k + 1..j + k + 1]
  {
    if j + k + 1 <= |s| {
      assert s[k + 1..][i..j] == s[i + k + 1..j + k + 1];
    }
  }

  lemma FirstPart(s: string, i: int, j: int)
    requires IsPart(s, i, j)
    ensures FirstSlash(s) < 0 ==> i == 0 && j == |s|
    ensures FirstSlash(s) >= 0 ==> (i == 0 && j == FirstSlash(s)) || i > FirstSlash(s)
  {
    var k := FirstSlash(s);
    assert forall n :: 0 <= n < k ==> s[n] == s[..k][n];
    assert forall n :: i <= n < j ==> s[n] == s[i..j][n - i];
  }

  ghost predicate HasPart(s: string, part: string) {
    exists i, j :: IsPart(s, i, j) && s[i..j] == part
  }

  lemma PartsOfTail(s: string, k: int, part: string)
    requires k == FirstSlash(s) && k >= 0
    ensures HasPart(s, part) <==> part == s[..k] || HasPart(s[k + 1..], part)
  {
    hide FirstSlash;
    if HasPart(s, part) {
      var i, j :| IsPart(s, i, j) && s[i..j] == part;
      FirstPart(s, i, j);
      if i > k {
        LaterPart(s, k, i - k - 1, j - k - 1);
      }
    }
    if HasPart(s[k + 1..], part) {
      var i, j :| IsPart(s[k + 1..], i, j) && s[k + 1..][i..j] == part;
      LaterPart(s, k, i, j);
      assert IsPart(s, i + k + 1, j + k + 1);
    }
    assert IsPart(s, 0, k) && s[0..k] == s[..k];
  }

  lemma OnlyPart(s: string, part: string)
    requires FirstSlash(s) < 0
    ensures HasPart(s, part) <==> part == s
  {
    assert IsPart(s, 0, |s|) && s[0..|s|] == s;
    forall i, j | IsPart(s, i, j) ensures i == 0 && j == |s| { FirstPart(s, i, j); }
  }

  lemma {:induction false} PartIn(s: string, part: string)
    ensures part in Split(s) <==> HasPart(s, part)
    decreases |s|
  {
    hide IsPart, HasPart;
    var k := FirstSlash(s);
    if k < 0 {
      OnlyPart(s, part);
    } else {
      PartIn(s[k + 1..], part);
      PartsOfTail(s, k, part);
    }
  }

  /** Splitting gives the parts of a path, and nothing else. */
  lemma SplitParts(s: string, part: string)
    ensures part in Split(s) <==> exists i, j :: IsPart(s, i, j) && s[i..j] == part
  {
    PartIn(s, part);
  }

  lemma PlainChars(s: string)
    ensures '\\' !in s && ':' !in s && !HasControlCharacters(s) <==>
            forall c :: c in s ==> c != '\\' && c != ':' && c as int > 31 && c as int != 127
  {
    assert forall i :: 0 <= i < |s| ==> s[i] in s;
  }

  /** A safe path is not too long, has no backslash, colon or control character, and no part that is empty or
      made of one or two dots; a single dot alone passes where it is asked for. */
  lemma SafePathIff(s: string, allowDot: bool)
    ensures SafePath(s, allowDot) <==>
            && 0 < |s| < 4097
            && (forall c :: c in s ==> c != '\\' && c != ':' && c as int > 31 && c as int != 127)
            && ((s == "." && allowDot) || (s != "." && forall i, j :: IsPart(s, i, j) ==> s[i..j] != "" && s[i..j] != "." && s[i..j] != ".."))
  {
    PlainChars(s);
    PartIn(s, "");
    PartIn(s, ".");
    PartIn(s, "..");
    var parts := Split(s);
    assert (forall i :: 0 <= i < |parts| ==> parts[i] != "" && parts[i] != "." && parts[i] != "..")
      <==> "" !in parts && "." !in parts && ".." !in parts;
    assert (forall i, j :: IsPart(s, i, j) ==> s[i..j] != "" && s[i..j] != "." && s[i..j] != "..")
      <==> !HasPart(s, "") && !HasPart(s, ".") && !HasPart(s, "..");
    hide Split, IsPart, HasPart, HasControlCharacters;
  }

  /** A path is its directory, a separator and its last part. */
  lemma DirnameAndLeaf(path: string)
    ensures '/' in path ==> path == Dirname(path) + "/" + Leaf(path)
    ensures '/' !in path ==> Dirname(path) == "." && Leaf(path) == path
    ensures '/' !in Leaf(path)
  {
  }

  /** The first difference decides, and a proper prefix comes first. */
  lemma {:induction false} LexLessIff(a: string, b: string)
    ensures LexLess(a, b) <==>
            exists k :: 0 <= k <= |a| && k < |b| && a[..k] == b[..k] && (k == |a| || a[k] < b[k])
  {
    if a != "" && b != "" && a[0] == b[0] {
      var a', b' := a[1..], b[1..];
      LexLessIff(a', b');
      if LexLess(a', b') {
        var k :| 0 <= k <= |a'| && k < |b'| && a'[..k] == b'[..k] && (k == |a'| || a'[k] < b'[k]);
        assert a[..k + 1] == [a[0]] + a'[..k] && b[..k + 1] == [b[0]] + b'[..k];
      }
      if k :| 0 <= k <= |a| && k < |b| && a[..k] == b[..k] && (k == |a| || a[k] < b[k]) {
        assert k > 0 && a'[..k - 1] == a[..k][1..] && b'[..k - 1] == b[..k][1..];
      }
    } else if LexLess(a, b) {
      assert a[..0] == b[..0];
    }
    assert forall k :: 0 < k <= |a| ==> a[..k][0] == a[0];
    assert forall k :: 0 < k <= |b| ==> b[..k][0] == b[0];
  }
}
