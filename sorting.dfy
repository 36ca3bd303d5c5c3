/**
 * `Array.prototype.sort` called with a comparator that subtracts one number computed per element
 * (`(a, b) => key(a) - key(b)`, or `key(b) - key(a)` for a descending order). JavaScript's sort is
 * stable, so it is modelled as a stable insertion sort by a rank: the key, or its negation for a
 * descending order.
 */
module Sorting {
  /** Ranks never decrease from left to right. */
  predicate SortedBy<T>(s: seq<T>, rank: T -> int) {
    forall i, j :: 0 <= i < j < |s| ==> rank(s[i]) <= rank(s[j])
  }

  /** Puts `x` in front of the first element whose rank is not below its own. */
  function InsertBy<T>(x: T, t: seq<T>, rank: T -> int): (r: seq<T>)
    ensures |r| == |t| + 1
    ensures multiset(r) == multiset(t) + multiset{x}
  {
    if t == [] then [x]
    else if rank(x) <= rank(t[0]) then [x] + t
    else
      assert t == [t[0]] + t[1..];
      [t[0]] + InsertBy(x, t[1..], rank)
  }

  /** Inserting into a sorted sequence keeps it sorted. */
  lemma {:induction false} InsertKeepsSorted<T>(x: T, t: seq<T>, rank: T -> int)
    requires SortedBy(t, rank)
    ensures SortedBy(InsertBy(x, t, rank), rank)
  {
    if t != [] && rank(x) > rank(t[0]) {
      var rest := InsertBy(x, t[1..], rank);
      InsertKeepsSorted(x, t[1..], rank);
      forall k | 0 <= k < |rest|
        ensures rank(t[0]) <= rank(rest[k])
      {
        assert rest[k] in multiset(rest);
        if rest[k] != x {
          assert rest[k] in multiset(t[1..]);
          var m :| 0 <= m < |t[1..]| && t[1..][m] == rest[k];
          assert t[m + 1] == rest[k];
        }
      }
    }
  }

  /** The elements of rank `v`, in order. */
  function WithRank<T>(s: seq<T>, rank: T -> int, v: int): (r: seq<T>)
    ensures |r| <= |s|
  {
    if s == [] then []
    else (if rank(s[0]) == v then [s[0]] else []) + WithRank(s[1..], rank, v)
  }

  lemma WithRankCons<T>(y: T, t: seq<T>, rank: T -> int, v: int)
    ensures WithRank([y] + t, rank, v) == (if rank(y) == v then [y] else []) + WithRank(t, rank, v)
  {
    assert ([y] + t)[1..] == t;
  }

  /** An element of lower rank than `x` does not change where `x` stands among its own rank. */
  lemma PassesLowerRank<T>(y: T, x: T, r: seq<T>, t: seq<T>, rank: T -> int, v: int)
    requires rank(y) < rank(x)
    requires WithRank(r, rank, v) == (if rank(x) == v then [x] else []) + WithRank(t, rank, v)
    ensures WithRank([y] + r, rank, v) == (if rank(x) == v then [x] else []) + WithRank([y] + t, rank, v)
  {
    WithRankCons(y, r, rank, v);
    WithRankCons(y, t, rank, v);
  }

  /** `x` goes in front of every element of its own rank. */
  lemma {:induction false} InsertWithRank<T>(x: T, t: seq<T>, rank: T -> int, v: int)
    ensures WithRank(InsertBy(x, t, rank), rank, v) == (if rank(x) == v then [x] else []) + WithRank(t, rank, v)
  {
    if t == [] {
      WithRankCons(x, t, rank, v);
    } else if rank(x) <= rank(t[0]) {
      WithRankCons(x, t, rank, v);
    } else {
      InsertWithRank(x, t[1..], rank, v);
      PassesLowerRank(t[0], x, InsertBy(x, t[1..], rank), t[1..], rank, v);
      assert t == [t[0]] + t[1..];
    }
  }

  /** The stable sort by rank. */
  function SortBy<T>(s: seq<T>, rank: T -> int): (r: seq<T>)
    ensures |r| == |s|
    ensures multiset(r) == multiset(s)
  {
    if s == [] then []
    else
      assert s == [s[0]] + s[1..];
      InsertBy(s[0], SortBy(s[1..], rank), rank)
  }

  /** The result is ordered by rank. */
  lemma {:induction false} SortBySorts<T>(s: seq<T>, rank: T -> int)
    ensures SortedBy(SortBy(s, rank), rank)
  {
    if s != [] {
      SortBySorts(s[1..], rank);
      InsertKeepsSorted(s[0], SortBy(s[1..], rank), rank);
    }
  }

  /** Elements of equal rank keep their relative order. */
  lemma {:induction false} SortByIsStable<T>(s: seq<T>, rank: T -> int, v: int)
    ensures WithRank(SortBy(s, rank), rank, v) == WithRank(s, rank, v)
  {
    if s != [] {
      SortByIsStable(s[1..], rank, v);
      InsertWithRank(s[0], SortBy(s[1..], rank), rank, v);
    }
  }

  /** The same elements, sorted and with ties in their original order. */
  lemma SortByFacts<T>(s: seq<T>, rank: T -> int)
    ensures multiset(SortBy(s, rank)) == multiset(s)
    ensures SortedBy(SortBy(s, rank), rank)
    ensures forall v :: WithRank(SortBy(s, rank), rank, v) == WithRank(s, rank, v)
  {
    SortBySorts(s, rank);
    forall v
      ensures WithRank(SortBy(s, rank), rank, v) == WithRank(s, rank, v)
    {
      SortByIsStable(s, rank, v);
    }
  }

  /** A prefix of a sorted sequence holds the lowest ranks: nothing left out ranks below anything kept. */
  lemma PrefixHoldsLowestRanks<T>(s: seq<T>, rank: T -> int, n: nat)
    requires SortedBy(s, rank) && n <= |s|
    ensures forall x, y :: x in s[..n] && y in multiset(s) - multiset(s[..n]) ==> rank(x) <= rank(y)
  {
    assert s == s[..n] + s[n..];
    assert multiset(s) == multiset(s[..n]) + multiset(s[n..]);
    forall x, y | x in s[..n] && y in multiset(s) - multiset(s[..n])
      ensures rank(x) <= rank(y)
    {
      var i :| 0 <= i < n && s[..n][i] == x;
      assert y in multiset(s[n..]);
      var j :| 0 <= j < |s[n..]| && s[n..][j] == y;
      assert s[i] == x && s[n + j] == y;
    }
  }
}
