/**
  * `Collections.sort` as the player uses it: a sort of a list by a real-valued key
  * (the `compareTo` of BlockPosition and of Intersection), as an insertion sort that
  * puts each element after those with an equal key.
  */
module Sorting {

  ghost predicate SortedBy<T>(s: seq<T>, key: T -> real) {
    forall i, j :: 0 <= i < j < |s| ==> key(s[i]) <= key(s[j])
  }

  ghost predicate Distinct<T>(s: seq<T>) {
    forall i, j :: 0 <= i < j < |s| ==> s[i] != s[j]
  }

  /** Inserts `x` before the first element whose key is larger than its own. */
  function InsertByKey<T>(s: seq<T>, x: T, key: T -> real): (r: seq<T>)
    ensures |r| == |s| + 1
  {
    if s == [] then [x]
    else if key(x) < key(s[0]) then [x] + s
    else [s[0]] + InsertByKey(s[1..], x, key)
  }

  /** A head no larger than any element of a sorted tail gives a sorted list. */
  lemma SortedCons<T>(h: T, t: seq<T>, key: T -> real)
    requires SortedBy(t, key)
    requires forall j :: 0 <= j < |t| ==> key(h) <= key(t[j])
    ensures SortedBy([h] + t, key)
  {
    var r := [h] + t;
    forall i, j | 0 <= i < j < |r|
      ensures key(r[i]) <= key(r[j])
    {
      assert r[j] == t[j - 1];
      if i > 0 {
        assert r[i] == t[i - 1];
      }
    }
  }

  /** Insertion adds exactly `x`. */
  lemma {:induction false} InsertByKeyPermutes<T>(s: seq<T>, x: T, key: T -> real)
    ensures multiset(InsertByKey(s, x, key)) == multiset(s) + multiset{x}
  {
    if s != [] && key(x) >= key(s[0]) {
      InsertByKeyPermutes(s[1..], x, key);
      assert s == [s[0]] + s[1..];
    }
  }

  /** Insertion into a sorted list keeps it sorted. */
  lemma {:induction false} InsertByKeySorted<T>(s: seq<T>, x: T, key: T -> real)
    requires SortedBy(s, key)
    ensures SortedBy(InsertByKey(s, x, key), key)
  {
    if s == [] {
    } else if key(x) < key(s[0]) {
      SortedCons(x, s, key);
    } else {
      var rest := InsertByKey(s[1..], x, key);
      InsertByKeySorted(s[1..], x, key);
      InsertByKeyPermutes(s[1..], x, key);
      forall j | 0 <= j < |rest|
        ensures key(s[0]) <= key(rest[j])
      {
        assert rest[j] in multiset(rest);
        if rest[j] != x {
          assert rest[j] in multiset(s[1..]);
          var k :| 0 <= k < |s[1..]| && s[1..][k] == rest[j];
          assert s[k + 1] == rest[j];
        }
      }
      SortedCons(s[0], rest, key);
    }
  }

  /** The list sorted non-decreasingly by `key`: each element inserted after those with an equal key. */
  function SortByKey<T>(s: seq<T>, key: T -> real): (r: seq<T>)
    ensures |r| == |s|
  {
    if s == [] then []
    else InsertByKey(SortByKey(s[..|s| - 1], key), s[|s| - 1], key)
  }

  /** The sorted list is ordered by `key` and a permutation of the input. */
  lemma {:induction false} SortByKeySpec<T>(s: seq<T>, key: T -> real)
    ensures SortedBy(SortByKey(s, key), key)
    ensures multiset(SortByKey(s, key)) == multiset(s)
    ensures |SortByKey(s, key)| == |s|
  {
    if s != [] {
      var init := s[..|s| - 1];
      assert s == init + [s[|s| - 1]];
      SortByKeySpec(init, key);
      InsertByKeySorted(SortByKey(init, key), s[|s| - 1], key);
      InsertByKeyPermutes(SortByKey(init, key), s[|s| - 1], key);
      var r := SortByKey(s, key);
      assert |multiset(r)| == |multiset(s)|;
    }
  }

  lemma {:induction false} DistinctCount<T>(s: seq<T>, v: T)
    requires Distinct(s)
    ensures multiset(s)[v] <= 1
  {
    if s != [] {
      assert s == [s[0]] + s[1..];
      DistinctCount(s[1..], v);
      if v == s[0] {
        assert v !in s[1..];
      }
    }
  }

  /** A permutation of a list without repetitions has none either. */
  lemma DistinctPermutation<T>(s: seq<T>, r: seq<T>)
    requires Distinct(s) && multiset(r) == multiset(s)
    ensures Distinct(r)
  {
    forall i, j | 0 <= i < j < |r|
      ensures r[i] != r[j]
    {
      if r[i] == r[j] {
        var v := r[i];
        assert r == r[..j] + [r[j]] + r[j + 1..];
        assert v in r[..j];
        assert multiset(r)[v] >= 2;
        DistinctCount(s, v);
        assert false;
      }
    }
  }
}
