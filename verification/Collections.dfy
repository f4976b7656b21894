/** Counting the members of lists and sets. */
module Collections {
  predicate Distinct<T(==)>(items: seq<T>) {
    forall i, j :: 0 <= i < j < |items| ==> items[i] != items[j]
  }

  function Members<T>(items: seq<T>): set<T> {
    set x | x in items
  }

  lemma {:induction false} SizeOfDistinct<T>(items: seq<T>)
    requires Distinct(items)
    ensures |Members(items)| == |items|
  {
    if items != [] {
      var last := items[|items| - 1];
      var front := items[..|items| - 1];
      SizeOfDistinct(front);
      assert Members(items) == Members(front) + {last};
    }
  }

  lemma SubsetSize<T>(a: set<T>, b: set<T>)
    requires a <= b
    ensures |a| <= |b|
  {
    assert b == a + (b - a);
  }

  lemma {:induction false} MembersAtMost<T>(items: seq<T>)
    ensures |Members(items)| <= |items|
  {
    if items != [] {
      var front := items[..|items| - 1];
      MembersAtMost(front);
      assert Members(items) == Members(front) + {items[|items| - 1]};
    }
  }

  /** new Set(items).size === items.length */
  lemma {:induction false} DistinctBySize<T>(items: seq<T>)
    ensures |Members(items)| == |items| <==> Distinct(items)
  {
    if Distinct(items) {
      SizeOfDistinct(items);
    } else {
      var i, j :| 0 <= i < j < |items| && items[i] == items[j];
      var rest := items[..j] + items[j + 1..];
      forall x | x in items ensures x in rest {
        var k :| 0 <= k < |items| && items[k] == x;
        if k < j {
          assert rest[k] == x;
        } else if k > j {
          assert rest[k - 1] == x;
        } else {
          assert rest[i] == x;
        }
      }
      assert Members(items) == Members(rest);
      MembersAtMost(rest);
    }
  }

  lemma {:induction false} DistinctCount<T>(items: seq<T>, owned: set<T>)
    requires Distinct(items) && forall i :: 0 <= i < |items| ==> items[i] in owned
    ensures |items| <= |owned|
    ensures |items| == |owned| ==> forall x :: x in owned ==> x in items
  {
    if items != [] {
      var last := items[|items| - 1];
      DistinctCount(items[..|items| - 1], owned - {last});
      forall x | |items| == |owned| && x in owned ensures x in items {
        if x != last { assert x in items[..|items| - 1]; }
      }
    }
  }

  /** Comparing sizes and looking members up one way compares the sets. */
  lemma SameMembers<T>(items: seq<T>, owned: set<T>)
    requires Distinct(items)
    ensures (|items| == |owned| && forall x :: x in items ==> x in owned) <==> (forall x :: x in items <==> x in owned)
  {
    if |items| == |owned| && forall x :: x in items ==> x in owned {
      DistinctCount(items, owned);
    }
    if forall x :: x in items <==> x in owned {
      assert Members(items) == owned;
      SizeOfDistinct(items);
    }
  }

  lemma SameMultisetMembers<T>(a: seq<T>, b: seq<T>)
    requires multiset(a) == multiset(b)
    ensures |a| == |b| && forall x :: x in a <==> x in b
  {
    assert |multiset(a)| == |a| && |multiset(b)| == |b|;
    forall x ensures x in a <==> x in b {
      assert x in a <==> x in multiset(a);
      assert x in b <==> x in multiset(b);
    }
  }

  lemma SameSizeSubset<T>(a: set<T>, b: set<T>)
    requires a <= b && |a| == |b|
    ensures a == b
  {
    assert b == a + (b - a);
  }

  /** The sizes of the items, added up. */
  function Sum<T>(items: seq<T>, size: T -> nat): nat {
    if items == [] then 0 else Sum(items[..|items| - 1], size) + size(items[|items| - 1])
  }

  lemma {:induction false} SumGrows<T>(items: seq<T>, size: T -> nat, i: nat)
    requires i <= |items|
    ensures Sum(items[..i], size) <= Sum(items, size)
    decreases |items| - i
  {
    if i < |items| {
      assert items[..i + 1][..i] == items[..i];
      SumGrows(items, size, i + 1);
    } else {
      assert items[..i] == items;
    }
  }
}
