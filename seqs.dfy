/**
 * Sequence operations the viewer relies on: de-duplication that keeps
 * first occurrences (a JavaScript Set), filtering out excluded values
 * (Array.prototype.filter with includes / !==) and flattening (Array.prototype.flat).
 */
module Seqs {

  predicate NoDuplicates<T(==,!new)>(s: seq<T>) {
    forall i, j :: 0 <= i < j < |s| ==> s[i] != s[j]
  }

  function Elements<T(!new)>(s: seq<T>): set<T> {
    set x | x in s
  }

  /** The position of the first occurrence of x in s. */
  function FirstIndex<T(==,!new)>(s: seq<T>, x: T): (k: nat)
    requires x in s
    ensures k < |s| && s[k] == x
    ensures forall j :: 0 <= j < k ==> s[j] != x
  {
    if s[0] == x then 0 else 1 + FirstIndex(s[1..], x)
  }

  lemma FirstIndexIsUnique<T(!new)>(s: seq<T>, x: T, k: nat)
    requires k < |s| && s[k] == x
    requires forall j :: 0 <= j < k ==> s[j] != x
    ensures FirstIndex(s, x) == k
  {
  }

  /**
   * The distinct values of s in the order they first occur: each value is
   * added when it is met and not yet present, as a JavaScript Set does.
   */
  function Distinct<T(==,!new)>(s: seq<T>): (r: seq<T>)
    ensures forall x :: x in r <==> x in s
    ensures NoDuplicates(r)
    ensures |r| <= |s|
    decreases |s|
  {
    if s == [] then []
    else
      var d := Distinct(s[..|s| - 1]);
      assert s == s[..|s| - 1] + [s[|s| - 1]];
      if s[|s| - 1] in d then d else d + [s[|s| - 1]]
  }

  /** Distinct lists values in the order of their first occurrence in s. */
  lemma {:induction false} DistinctKeepsFirstOccurrenceOrder<T(!new)>(s: seq<T>)
    ensures forall i, j :: 0 <= i < j < |Distinct(s)| ==>
      FirstIndex(s, Distinct(s)[i]) < FirstIndex(s, Distinct(s)[j])
  {
    if s != [] {
      var p, y := s[..|s| - 1], s[|s| - 1];
      assert s == p + [y];
      var d := Distinct(p);
      DistinctKeepsFirstOccurrenceOrder(p);
      forall x | x in p
        ensures FirstIndex(s, x) == FirstIndex(p, x)
      {
        FirstIndexIsUnique(s, x, FirstIndex(p, x));
      }
      if y !in d {
        assert y !in p;
        FirstIndexIsUnique(s, y, |p|);
        var r := Distinct(s);
        assert r == d + [y];
        forall i, j | 0 <= i < j < |r|
          ensures FirstIndex(s, r[i]) < FirstIndex(s, r[j])
        {
          assert r[i] == d[i] && r[i] in p;
          if j < |d| {
            assert r[j] == d[j] && r[j] in p;
          } else {
            assert r[j] == y;
          }
        }
      } else {
        assert Distinct(s) == d;
        forall i, j | 0 <= i < j < |d|
          ensures FirstIndex(s, d[i]) < FirstIndex(s, d[j])
        {
          assert d[i] in p && d[j] in p;
        }
      }
    }
  }

  lemma DistinctOfEmpty<T(!new)>()
    ensures Distinct<T>([]) == []
  {
  }

  /** The values of s that are not in excluded, in their original order. */
  function Without<T(==,!new)>(s: seq<T>, excluded: seq<T>): (r: seq<T>)
    ensures |r| <= |s|
  {
    if s == [] then []
    else (if s[0] in excluded then [] else [s[0]]) + Without(s[1..], excluded)
  }

  /** The filter keeps exactly the values of s that are not excluded. */
  lemma {:induction false} WithoutMembers<T(!new)>(s: seq<T>, excluded: seq<T>)
    ensures forall x :: x in Without(s, excluded) <==> x in s && x !in excluded
  {
    if s != [] {
      WithoutMembers(s[1..], excluded);
      assert s == [s[0]] + s[1..];
    }
  }

  /** Filtering distributes over concatenation: relative order is kept. */
  lemma {:induction false} WithoutAppend<T(!new)>(a: seq<T>, b: seq<T>, excluded: seq<T>)
    ensures Without(a + b, excluded) == Without(a, excluded) + Without(b, excluded)
  {
    if a == [] {
      assert a + b == b;
    } else {
      var ab := a + b;
      assert ab != [] && ab[0] == a[0] && ab[1..] == a[1..] + b;
      WithoutAppend(a[1..], b, excluded);
    }
  }

  /** r can be obtained from s by deleting elements. */
  predicate IsSubsequence<T(==,!new)>(r: seq<T>, s: seq<T>)
    decreases |s|
  {
    r == [] || (s != [] && ((r[0] == s[0] && IsSubsequence(r[1..], s[1..])) || IsSubsequence(r, s[1..])))
  }

  lemma {:induction false} WithoutIsSubsequence<T(!new)>(s: seq<T>, excluded: seq<T>)
    ensures IsSubsequence(Without(s, excluded), s)
  {
    if s != [] {
      WithoutIsSubsequence(s[1..], excluded);
      var r := Without(s, excluded);
      if s[0] !in excluded {
        assert r[0] == s[0] && r[1..] == Without(s[1..], excluded);
      } else {
        assert r == Without(s[1..], excluded);
      }
    }
  }

  lemma {:induction false} WithoutKeepsNoDuplicates<T(!new)>(s: seq<T>, excluded: seq<T>)
    requires NoDuplicates(s)
    ensures NoDuplicates(Without(s, excluded))
  {
    if s != [] {
      assert NoDuplicates(s[1..]) by {
        forall i, j | 0 <= i < j < |s[1..]| ensures s[1..][i] != s[1..][j] {
          assert s[1..][i] == s[i + 1] && s[1..][j] == s[j + 1];
        }
      }
      WithoutKeepsNoDuplicates(s[1..], excluded);
      assert s[0] !in s[1..];
      WithoutMembers(s[1..], excluded);
    }
  }

  /** Removing one value from a duplicate-free sequence that holds it shortens it by one. */
  lemma {:induction false} WithoutOneOfDistinct<T(!new)>(s: seq<T>, x: T)
    requires NoDuplicates(s) && x in s
    ensures |Without(s, [x])| == |s| - 1
  {
    if s[0] == x {
      assert x !in s[1..];
      WithoutNothingExcluded(s[1..], [x]);
    } else {
      assert NoDuplicates(s[1..]) by {
        forall i, j | 0 <= i < j < |s[1..]| ensures s[1..][i] != s[1..][j] {
          assert s[1..][i] == s[i + 1] && s[1..][j] == s[j + 1];
        }
      }
      WithoutOneOfDistinct(s[1..], x);
    }
  }

  lemma {:induction false} WithoutNothingExcluded<T(!new)>(s: seq<T>, excluded: seq<T>)
    requires forall k :: 0 <= k < |s| ==> s[k] !in excluded
    ensures Without(s, excluded) == s
  {
    if s != [] {
      WithoutNothingExcluded(s[1..], excluded);
      assert s == [s[0]] + s[1..];
    }
  }

  /** The concatenation of lists, in list order, keeping duplicates. */
  function Flatten<T(!new)>(lists: seq<seq<T>>): (r: seq<T>)
    ensures forall x :: x in r <==> exists i :: 0 <= i < |lists| && x in lists[i]
  {
    if lists == [] then []
    else
      var rest := Flatten(lists[1..]);
      assert forall i :: 0 <= i < |lists[1..]| ==> lists[1..][i] == lists[i + 1];
      lists[0] + rest
  }

  /** Flattening distributes over concatenation of the list of lists. */
  lemma {:induction false} FlattenAppend<T(!new)>(a: seq<seq<T>>, b: seq<seq<T>>)
    ensures Flatten(a + b) == Flatten(a) + Flatten(b)
  {
    if a != [] {
      assert (a + b)[0] == a[0] && (a + b)[1..] == a[1..] + b;
      FlattenAppend(a[1..], b);
      calc {
        Flatten(a + b);
        a[0] + Flatten(a[1..] + b);
        a[0] + (Flatten(a[1..]) + Flatten(b));
        (a[0] + Flatten(a[1..])) + Flatten(b);
      }
    } else {
      assert a + b == b;
    }
  }

  /** Every occurrence in every list survives flattening, duplicates included. */
  lemma {:induction false} FlattenKeepsDuplicates<T(!new)>(a: seq<seq<T>>)
    ensures multiset(Flatten(a)) == MultisetSum(a)
  {
    if a != [] {
      FlattenKeepsDuplicates(a[1..]);
    }
  }

  function MultisetSum<T(!new)>(a: seq<seq<T>>): multiset<T> {
    if a == [] then multiset{} else multiset(a[0]) + MultisetSum(a[1..])
  }
}
