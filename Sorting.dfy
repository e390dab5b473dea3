/**
 * `Array.prototype.sort` with a comparator `(a, b) => rank(b) - rank(a)`: a stable sort
 * that puts the largest rank first. The model is insertion sort, whose result is the
 * unique stable ordering by rank.
 */
module Sorting {

  /** Non-increasing by rank. */
  ghost predicate SortedDesc<T>(s: seq<T>, rank: T -> int) {
    forall i, j :: 0 <= i < j < |s| ==> rank(s[i]) >= rank(s[j])
  }

  /** No two positions share a key. */
  ghost predicate DistinctBy<T, K>(s: seq<T>, key: T -> K) {
    forall i, j :: 0 <= i < j < |s| ==> key(s[i]) != key(s[j])
  }

  /** Insert `x` into a sorted sequence before every element of equal or smaller rank. */
  function Insert<T(==)>(x: T, s: seq<T>, rank: T -> int): (r: seq<T>)
    requires SortedDesc(s, rank)
    ensures SortedDesc(r, rank)
    ensures multiset(r) == multiset(s) + multiset{x}
    ensures |r| == |s| + 1
    ensures r[0] == x || (s != [] && r[0] == s[0])
  {
    if s == [] then [x]
    else if rank(s[0]) <= rank(x) then
      ConsSorted(x, s, rank);
      [x] + s
    else
      TailSorted(s, rank);
      var t := Insert(x, s[1..], rank);
      InsertBehind(s, x, t, rank);
      [s[0]] + t
  }

  /** The tail of a sorted sequence is sorted. */
  lemma TailSorted<T>(s: seq<T>, rank: T -> int)
    requires s != [] && SortedDesc(s, rank)
    ensures SortedDesc(s[1..], rank)
  {
    forall i, j | 0 <= i < j < |s[1..]| ensures rank(s[1..][i]) >= rank(s[1..][j]) {
      assert s[1..][i] == s[i + 1] && s[1..][j] == s[j + 1];
    }
  }

  /** Putting the head back in front of the tail with `x` inserted. */
  lemma InsertBehind<T>(s: seq<T>, x: T, t: seq<T>, rank: T -> int)
    requires s != [] && SortedDesc(s, rank) && rank(s[0]) > rank(x)
    requires SortedDesc(t, rank) && multiset(t) == multiset(s[1..]) + multiset{x} && |t| == |s|
    requires t[0] == x || (s[1..] != [] && t[0] == s[1..][0])
    ensures SortedDesc([s[0]] + t, rank)
    ensures multiset([s[0]] + t) == multiset(s) + multiset{x}
  {
    assert s == [s[0]] + s[1..];
    if t[0] != x {
      assert t[0] == s[1];
    }
    ConsSorted(s[0], t, rank);
  }

  /** An element ranked at least as high as the head of a sorted sequence can go in front. */
  lemma ConsSorted<T>(y: T, t: seq<T>, rank: T -> int)
    requires SortedDesc(t, rank) && (t != [] ==> rank(y) >= rank(t[0]))
    ensures SortedDesc([y] + t, rank)
  {
    var r := [y] + t;
    forall i, j | 0 <= i < j < |r| ensures rank(r[i]) >= rank(r[j]) {
      assert r[j] == t[j - 1];
      if i == 0 { assert rank(t[0]) >= rank(t[j - 1]); } else { assert r[i] == t[i - 1]; }
    }
  }

  /** The stable descending sort of `s` by rank. */
  function SortDesc<T(==)>(s: seq<T>, rank: T -> int): (r: seq<T>)
    ensures SortedDesc(r, rank)
    ensures multiset(r) == multiset(s)
    ensures |r| == |s|
  {
    if s == [] then []
    else
      assert s == [s[0]] + s[1..];
      Insert(s[0], SortDesc(s[1..], rank), rank)
  }

  /** Inserting an element whose key is new keeps the keys distinct. */
  lemma {:induction false} InsertKeepsDistinct<T, K>(x: T, s: seq<T>, rank: T -> int, key: T -> K)
    requires SortedDesc(s, rank) && DistinctBy(s, key)
    requires forall i :: 0 <= i < |s| ==> key(s[i]) != key(x)
    ensures DistinctBy(Insert(x, s, rank), key)
  {
    if s == [] {
    } else if rank(s[0]) <= rank(x) {
      ConsDistinct(x, s, key);
    } else {
      TailSorted(s, rank);
      TailDistinct(s, key);
      InsertKeepsDistinct(x, s[1..], rank, key);
      var t := Insert(x, s[1..], rank);
      forall j | 0 <= j < |t| ensures key(t[j]) != key(s[0]) {
        assert t[j] in multiset(t);
        if t[j] != x {
          var m :| 0 <= m < |s[1..]| && s[1..][m] == t[j];
          assert s[m + 1] == t[j];
        }
      }
      ConsDistinct(s[0], t, key);
    }
  }

  /** The tail of a sequence with distinct keys has distinct keys. */
  lemma TailDistinct<T, K>(s: seq<T>, key: T -> K)
    requires s != [] && DistinctBy(s, key)
    ensures DistinctBy(s[1..], key)
  {
    forall i, j | 0 <= i < j < |s[1..]| ensures key(s[1..][i]) != key(s[1..][j]) {
      assert s[1..][i] == s[i + 1] && s[1..][j] == s[j + 1];
    }
  }

  /** An element whose key is new can go in front of a sequence with distinct keys. */
  lemma ConsDistinct<T, K>(y: T, t: seq<T>, key: T -> K)
    requires DistinctBy(t, key) && forall j :: 0 <= j < |t| ==> key(t[j]) != key(y)
    ensures DistinctBy([y] + t, key)
  {
    var r := [y] + t;
    forall i, j | 0 <= i < j < |r| ensures key(r[i]) != key(r[j]) {
      assert r[j] == t[j - 1];
      if i > 0 { assert r[i] == t[i - 1]; }
    }
  }

  /** Sorting keeps keys distinct. */
  lemma {:induction false} SortKeepsDistinct<T, K>(s: seq<T>, rank: T -> int, key: T -> K)
    requires DistinctBy(s, key)
    ensures DistinctBy(SortDesc(s, rank), key)
  {
    if s != [] {
      var t := SortDesc(s[1..], rank);
      TailDistinct(s, key);
      SortKeepsDistinct(s[1..], rank, key);
      forall i | 0 <= i < |t| ensures key(t[i]) != key(s[0]) {
        assert t[i] in multiset(s[1..]);
        var m :| 0 <= m < |s[1..]| && s[1..][m] == t[i];
        assert s[m + 1] == t[i];
      }
      InsertKeepsDistinct(s[0], t, rank, key);
    }
  }
}
