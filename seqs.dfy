/** Sequence operations behind the store's `where`/`orderBy` queries and the handlers' `filter`/`sort`. */
module Seqs {

  /** `s.filter(p)`: the elements of `s` satisfying `p`, in their original order. */
  function Filter<T>(s: seq<T>, p: T -> bool): (r: seq<T>)
    ensures |r| <= |s|
    ensures forall x :: x in r ==> x in s && p(x)
  {
    if s == [] then [] else (if p(s[0]) then [s[0]] else []) + Filter(s[1..], p)
  }

  /** Filtering keeps every occurrence of an accepted value and none of a rejected one. */
  lemma {:induction false} FilterCount<T>(s: seq<T>, p: T -> bool, x: T)
    ensures multiset(Filter(s, p))[x] == if p(x) then multiset(s)[x] else 0
  {
    if s != [] {
      FilterCount(s[1..], p, x);
      assert s == [s[0]] + s[1..];
    }
  }

  /** Filtering two arrangements of the same elements yields two arrangements of the same elements. */
  lemma FilterPermutation<T>(s: seq<T>, t: seq<T>, p: T -> bool)
    requires multiset(s) == multiset(t)
    ensures forall x :: multiset(Filter(s, p))[x] == multiset(Filter(t, p))[x]
  {
    forall x ensures multiset(Filter(s, p))[x] == multiset(Filter(t, p))[x] {
      FilterCount(s, p, x);
      FilterCount(t, p, x);
      assert multiset(s)[x] == multiset(t)[x];
    }
  }

  /** Filtering distributes over concatenation. */
  lemma {:induction false} FilterConcat<T>(s: seq<T>, t: seq<T>, p: T -> bool)
    ensures Filter(s + t, p) == Filter(s, p) + Filter(t, p)
  {
    if s != [] {
      FilterConcat(s[1..], t, p);
      assert (s + t)[1..] == s[1..] + t;
    } else {
      assert s + t == t;
    }
  }

  /** Filtering twice is filtering once by the conjunction `both` of the two predicates. */
  lemma {:induction false} FilterFilter<T>(s: seq<T>, p: T -> bool, q: T -> bool, both: T -> bool)
    requires forall x :: both(x) == (p(x) && q(x))
    ensures Filter(Filter(s, p), q) == Filter(s, both)
  {
    if s != [] {
      FilterFilter(s[1..], p, q, both);
      var head := if p(s[0]) then [s[0]] else [];
      FilterConcat(head, Filter(s[1..], p), q);
    }
  }

  /** Filters by pointwise-equal predicates agree. */
  lemma {:induction false} FilterSame<T>(s: seq<T>, p: T -> bool, q: T -> bool)
    requires forall x :: p(x) == q(x)
    ensures Filter(s, p) == Filter(s, q)
  {
    if s != [] {
      FilterSame(s[1..], p, q);
    }
  }

  /** `s` is ordered by `key`, smallest first. */
  ghost predicate SortedBy<T>(s: seq<T>, key: T -> int)
  {
    forall i, j :: 0 <= i < j < |s| ==> key(s[i]) <= key(s[j])
  }

  /** No two positions of `s` share a key. */
  ghost predicate UniqueBy<T>(s: seq<T>, key: T -> int)
  {
    forall i, j :: 0 <= i < j < |s| ==> key(s[i]) != key(s[j])
  }

  /** A filtered sorted sequence is still sorted. */
  lemma {:induction false} FilterSorted<T>(s: seq<T>, p: T -> bool, key: T -> int)
    requires SortedBy(s, key)
    ensures SortedBy(Filter(s, p), key)
  {
    if s != [] {
      FilterSorted(s[1..], p, key);
      var rest := Filter(s[1..], p);
      forall y | y in rest ensures key(s[0]) <= key(y) {
        var k :| 0 <= k < |s[1..]| && s[1..][k] == y;
        assert s[k + 1] == y;
      }
    }
  }

  /** In a sorted sequence the first element's key is a lower bound for the rest. */
  lemma HeadIsLeast<T>(s: seq<T>, key: T -> int)
    requires SortedBy(s, key) && s != []
    ensures forall y :: y in s[1..] ==> key(s[0]) <= key(y)
  {
  }

  /** Putting an element no larger than any other in front of a sorted sequence keeps it sorted. */
  lemma SortedCons<T>(h: T, t: seq<T>, key: T -> int)
    requires SortedBy(t, key)
    requires forall y :: y in t ==> key(h) <= key(y)
    ensures SortedBy([h] + t, key)
  {
    var r := [h] + t;
    forall i, j | 0 <= i < j < |r| ensures key(r[i]) <= key(r[j]) {
      assert r[j] == t[j - 1];
      if i > 0 {
        assert r[i] == t[i - 1];
      }
    }
  }

  /** Places `x` before the first element whose key is not smaller. */
  function Insert<T>(x: T, s: seq<T>, key: T -> int): (r: seq<T>)
    ensures multiset(r) == multiset(s) + multiset{x}
  {
    if s == [] || key(x) <= key(s[0]) then
      [x] + s
    else
      assert s == [s[0]] + s[1..];
      [s[0]] + Insert(x, s[1..], key)
  }

  /** Inserting into a sorted sequence keeps it sorted. */
  lemma {:induction false} InsertSorted<T>(x: T, s: seq<T>, key: T -> int)
    requires SortedBy(s, key)
    ensures SortedBy(Insert(x, s, key), key)
  {
    if s == [] {
    } else if key(x) <= key(s[0]) {
      HeadIsLeast(s, key);
      assert s == [s[0]] + s[1..];
      SortedCons(x, s, key);
    } else {
      var tail := Insert(x, s[1..], key);
      InsertSorted(x, s[1..], key);
      HeadIsLeast(s, key);
      forall y | y in tail ensures key(s[0]) <= key(y) {
        assert y in multiset(s[1..]) + multiset{x};
      }
      SortedCons(s[0], tail, key);
    }
  }

  /** A stable insertion sort: the store's `orderBy` and `Array.prototype.sort` by an integer key. */
  function SortBy<T>(s: seq<T>, key: T -> int): (r: seq<T>)
    ensures multiset(r) == multiset(s)
    ensures SortedBy(r, key)
  {
    if s == [] then []
    else
      assert s == [s[0]] + s[1..];
      InsertSorted(s[0], SortBy(s[1..], key), key);
      Insert(s[0], SortBy(s[1..], key), key)
  }

  /** Rearranging a sequence keeps its length and its elements. */
  lemma PermutationSameElements<T>(s: seq<T>, t: seq<T>)
    requires multiset(s) == multiset(t)
    ensures |s| == |t|
    ensures forall x :: x in s <==> x in t
  {
    assert |multiset(s)| == |s| && |multiset(t)| == |t|;
    forall x ensures x in s <==> x in t {
      assert x in s <==> x in multiset(s);
      assert x in t <==> x in multiset(t);
    }
  }

  /** Inserting a key not yet present keeps the keys distinct. */
  lemma {:induction false} InsertUnique<T>(x: T, s: seq<T>, key: T -> int)
    requires UniqueBy(s, key)
    requires forall y :: y in s ==> key(y) != key(x)
    ensures UniqueBy(Insert(x, s, key), key)
  {
    if s != [] && key(x) > key(s[0]) {
      InsertUnique(x, s[1..], key);
      var tail := Insert(x, s[1..], key);
      forall y | y in tail ensures key(y) != key(s[0]) {
        assert y in multiset(s[1..]) + multiset{x};
        if y != x {
          var k :| 0 <= k < |s[1..]| && s[1..][k] == y;
          assert s[k + 1] == y;
        }
      }
      assert Insert(x, s, key) == [s[0]] + tail;
    }
  }

  /** Sorting keeps keys distinct. */
  lemma {:induction false} SortUnique<T>(s: seq<T>, key: T -> int)
    requires UniqueBy(s, key)
    ensures UniqueBy(SortBy(s, key), key)
  {
    if s != [] {
      SortUnique(s[1..], key);
      var sorted := SortBy(s[1..], key);
      PermutationSameElements(sorted, s[1..]);
      forall y | y in sorted ensures key(y) != key(s[0]) {
        assert y in multiset(sorted);
        assert y in s[1..];
        var k :| 0 <= k < |s[1..]| && s[1..][k] == y;
        assert s[k + 1] == y;
      }
      InsertUnique(s[0], sorted, key);
    }
  }
}
