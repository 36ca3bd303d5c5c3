/**
 * Order-preserving selection on sequences (JavaScript `Array.prototype.filter`), with the facts the
 * models of the list screens and message filters need: what is kept, that order is preserved, and
 * how many elements are kept.
 */
module Seqs {
  /** `idx` picks the elements of `r` out of `s`, at strictly increasing positions. */
  ghost predicate Embeds<T>(idx: seq<nat>, r: seq<T>, s: seq<T>) {
    |idx| == |r|
    && (forall k :: 0 <= k < |idx| ==> idx[k] < |s| && r[k] == s[idx[k]])
    && (forall k, l :: 0 <= k < l < |idx| ==> idx[k] < idx[l])
  }

  /** `r` is `s` with some elements left out and the rest in their original order. */
  ghost predicate IsSubsequence<T>(r: seq<T>, s: seq<T>) {
    exists idx :: Embeds(idx, r, s)
  }

  /** The prefix one longer is the prefix and the next element. */
  lemma SliceCons<T>(s: seq<T>, i: nat, m: nat)
    requires i < m <= |s|
    ensures s[i..m] == [s[i]] + s[i + 1..m]
  {
  }

  lemma PrefixOfRest<T>(s: seq<T>, a: nat, k: nat)
    requires a + k <= |s|
    ensures s[..a + k] == s[..a] + s[a..][..k]
  {
  }

  /** A suffix of all but the last element, followed by the last element, is a suffix of the whole. */
  lemma ExtendSuffix<T>(s: seq<T>, r: seq<T>)
    requires s != [] && |r| < |s| && s[..|s| - 1][|s| - 1 - |r|..] == r
    ensures s[|s| - (|r| + 1)..] == r + [s[|s| - 1]]
    ensures |r| + 1 < |s| ==> s[|s| - (|r| + 1) - 1] == s[..|s| - 1][|s| - 1 - |r| - 1]
  {
    assert s[|s| - (|r| + 1)..] == s[..|s| - 1][|s| - 1 - |r|..] + [s[|s| - 1]];
  }

  lemma PrefixSnoc<T>(s: seq<T>, j: nat)
    requires j < |s|
    ensures s[..j + 1] == s[..j] + [s[j]]
  {
  }

  /** `s.filter(p)`. */
  function Filter<T(==,!new)>(s: seq<T>, p: T -> bool): (r: seq<T>)
    ensures |r| <= |s|
    ensures forall k :: 0 <= k < |r| ==> p(r[k])
    ensures forall x :: x in r <==> x in s && p(x)
  {
    if s == [] then []
    else
      var front := Filter(s[..|s| - 1], p);
      assert forall x :: x in s <==> x in s[..|s| - 1] || x == s[|s| - 1];
      front + (if p(s[|s| - 1]) then [s[|s| - 1]] else [])
  }

  /** Number of elements that `p` accepts. */
  function Count<T>(s: seq<T>, p: T -> bool): (n: nat)
    ensures n <= |s|
  {
    if s == [] then 0 else Count(s[..|s| - 1], p) + (if p(s[|s| - 1]) then 1 else 0)
  }

  /** An embedding into a prefix is one into the whole, and extends by the element after the prefix. */
  lemma EmbedsInLonger<T>(idx: seq<nat>, r: seq<T>, s: seq<T>, n: nat)
    requires n < |s| && Embeds(idx, r, s[..n])
    ensures Embeds(idx, r, s) && Embeds(idx + [n], r + [s[n]], s)
  {
    forall k | 0 <= k < |idx| ensures idx[k] < n && r[k] == s[idx[k]] {
      assert r[k] == s[..n][idx[k]];
    }
  }

  /** Filtering keeps the order of what it keeps. */
  lemma {:induction false} FilterIsSubsequence<T(!new)>(s: seq<T>, p: T -> bool)
    ensures IsSubsequence(Filter(s, p), s)
  {
    if s == [] {
      assert Embeds([], Filter(s, p), s);
    } else {
      var n := |s| - 1;
      var front := Filter(s[..n], p);
      FilterIsSubsequence(s[..n], p);
      var idx: seq<nat> :| Embeds(idx, front, s[..n]);
      EmbedsInLonger(idx, front, s, n);
      if p(s[n]) {
        assert Embeds(idx + [n], Filter(s, p), s);
      } else {
        assert Embeds(idx, Filter(s, p), s);
      }
    }
  }

  /** A filter that accepts everything changes nothing. */
  lemma {:induction false} FilterAll<T(!new)>(s: seq<T>, p: T -> bool)
    requires forall i :: 0 <= i < |s| ==> p(s[i])
    ensures Filter(s, p) == s
  {
    if s != [] {
      var n := |s| - 1;
      FilterAll(s[..n], p);
      assert Filter(s, p) == Filter(s[..n], p) + [s[n]];
      assert s[..n] + [s[n]] == s;
    }
  }

  /** Filtering keeps as many elements as the predicate accepts. */
  lemma {:induction false} FilterLength<T(!new)>(s: seq<T>, p: T -> bool)
    ensures |Filter(s, p)| == Count(s, p)
  {
    if s != [] {
      FilterLength(s[..|s| - 1], p);
    }
  }

  /** What a predicate accepts and what it rejects add up to the whole sequence. */
  lemma {:induction false} CountSplit<T>(s: seq<T>, p: T -> bool, q: T -> bool)
    requires forall x :: q(x) == !p(x)
    ensures Count(s, p) + Count(s, q) == |s|
  {
    if s != [] {
      CountSplit(s[..|s| - 1], p, q);
    }
  }

  /** Counting with predicates that agree on every element gives the same number. */
  lemma {:induction false} CountSame<T>(s: seq<T>, p: T -> bool, q: T -> bool)
    requires forall i :: 0 <= i < |s| ==> p(s[i]) == q(s[i])
    ensures Count(s, p) == Count(s, q)
  {
    if s != [] {
      CountSame(s[..|s| - 1], p, q);
    }
  }

  /** No element occurs twice. */
  predicate NoDuplicates<T(==,!new)>(s: seq<T>) {
    forall i, j :: 0 <= i < j < |s| ==> s[i] != s[j]
  }

  /** `Array.from(new Set(s))`: each distinct element once, where it first occurs. */
  function Distinct<T(==,!new)>(s: seq<T>): (r: seq<T>)
    ensures forall x :: x in r <==> x in s
    ensures NoDuplicates(r)
    ensures |r| <= |s|
  {
    if s == [] then []
    else
      var front := Distinct(s[..|s| - 1]);
      assert forall x :: x in s <==> x in s[..|s| - 1] || x == s[|s| - 1];
      if s[|s| - 1] in front then front else front + [s[|s| - 1]]
  }

  /** The position where `x` first occurs in `s`. */
  function FirstIndex<T(==,!new)>(s: seq<T>, x: T): (i: nat)
    requires x in s
    ensures i < |s| && s[i] == x && forall j :: 0 <= j < i ==> s[j] != x
  {
    if s[0] == x then 0 else 1 + FirstIndex(s[1..], x)
  }

  /** An element of a prefix first occurs in the whole sequence where it first occurs in the prefix. */
  lemma FirstIndexPrefix<T(!new)>(s: seq<T>, n: nat, x: T)
    requires n <= |s| && x in s[..n]
    ensures FirstIndex(s, x) == FirstIndex(s[..n], x)
  {
    var i := FirstIndex(s[..n], x);
    var j := FirstIndex(s, x);
    assert s[i] == x;
    forall m | 0 <= m < i
      ensures s[m] != x
    {
      assert s[m] == s[..n][m];
    }
  }

  /** The distinct elements come in the order of their first occurrences. */
  lemma {:induction false} DistinctKeepsFirstOrder<T(!new)>(s: seq<T>)
    ensures forall i, j :: 0 <= i < j < |Distinct(s)| ==> FirstIndex(s, Distinct(s)[i]) < FirstIndex(s, Distinct(s)[j])
  {
    if s != [] {
      var n := |s| - 1;
      var front := Distinct(s[..n]);
      DistinctKeepsFirstOrder(s[..n]);
      var r := Distinct(s);
      forall i, j | 0 <= i < j < |r|
        ensures FirstIndex(s, r[i]) < FirstIndex(s, r[j])
      {
        assert r[i] == front[i] && r[i] in s[..n];
        FirstIndexPrefix(s, n, r[i]);
        if j < |front| {
          assert r[j] == front[j] && r[j] in s[..n];
          FirstIndexPrefix(s, n, r[j]);
        } else {
          assert r[j] == s[n] && s[n] !in s[..n];
          forall m | 0 <= m < n
            ensures s[m] != s[n]
          {
            assert s[m] == s[..n][m];
          }
        }
      }
    }
  }

  /** `s.slice(0, n)`: the first `n` elements, or all of them when there are fewer. */
  function Take<T>(s: seq<T>, n: nat): (r: seq<T>)
    ensures |r| == if |s| <= n then |s| else n
    ensures r == s[..|r|]
  {
    if |s| <= n then s else s[..n]
  }

  /** The elements among the first `n` whose positions `keep` accepts, in order (a filter that looks at positions). */
  function Select<T>(s: seq<T>, keep: nat -> bool, n: nat): (r: seq<T>)
    requires n <= |s|
    ensures |r| <= n
  {
    if n == 0 then [] else Select(s, keep, n - 1) + (if keep(n - 1) then [s[n - 1]] else [])
  }

  /** The positions below `n` that `keep` accepts, in increasing order. */
  function Positions(keep: nat -> bool, n: nat): (idx: seq<nat>)
    ensures forall k :: 0 <= k < |idx| ==> idx[k] < n
  {
    if n == 0 then [] else Positions(keep, n - 1) + (if keep(n - 1) then [n - 1] else [])
  }

  /** Every listed position is accepted, and the positions increase. */
  lemma {:induction false} PositionsSound(keep: nat -> bool, n: nat)
    ensures forall k :: 0 <= k < |Positions(keep, n)| ==> keep(Positions(keep, n)[k])
    ensures forall k, l :: 0 <= k < l < |Positions(keep, n)| ==> Positions(keep, n)[k] < Positions(keep, n)[l]
  {
    if n > 0 {
      PositionsSound(keep, n - 1);
      var front, idx := Positions(keep, n - 1), Positions(keep, n);
      assert forall k :: 0 <= k < |front| ==> idx[k] == front[k];
    }
  }

  /** Every accepted position below `n` is listed. */
  lemma {:induction false} PositionsComplete(keep: nat -> bool, n: nat, i: nat)
    requires i < n && keep(i)
    ensures i in Positions(keep, n)
  {
    var front, idx := Positions(keep, n - 1), Positions(keep, n);
    if i < n - 1 {
      PositionsComplete(keep, n - 1, i);
      var k :| 0 <= k < |front| && front[k] == i;
      assert idx[k] == i;
    } else {
      assert idx[|front|] == i;
    }
  }

  /** The selection holds the elements at the listed positions. */
  lemma {:induction false} SelectAtPositions<T>(s: seq<T>, keep: nat -> bool, n: nat)
    requires n <= |s|
    ensures |Select(s, keep, n)| == |Positions(keep, n)|
    ensures forall k :: 0 <= k < |Positions(keep, n)| ==> Select(s, keep, n)[k] == s[Positions(keep, n)[k]]
  {
    if n > 0 {
      SelectAtPositions(s, keep, n - 1);
      var r0, front := Select(s, keep, n - 1), Positions(keep, n - 1);
      var r, idx := Select(s, keep, n), Positions(keep, n);
      assert forall k :: 0 <= k < |front| ==> idx[k] == front[k] && r[k] == r0[k];
    }
  }

  /** A selection is embedded in the sequence at exactly the accepted positions, in order. */
  lemma SelectPositions<T>(s: seq<T>, keep: nat -> bool, n: nat) returns (idx: seq<nat>)
    requires n <= |s|
    ensures Embeds(idx, Select(s, keep, n), s)
    ensures forall k :: 0 <= k < |idx| ==> idx[k] < n && keep(idx[k])
    ensures forall i :: 0 <= i < n && keep(i) ==> i in idx
  {
    idx := Positions(keep, n);
    PositionsSound(keep, n);
    SelectAtPositions(s, keep, n);
    forall i | 0 <= i < n && keep(i)
      ensures i in idx
    {
      PositionsComplete(keep, n, i);
    }
  }
}
