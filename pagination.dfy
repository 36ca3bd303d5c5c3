/**
 * The pagination the session lists share: `Math.ceil(n / size)` pages, and page `p` (counted
 * from 1) as `list.slice((p - 1) * size, (p - 1) * size + size)`.
 */
module Pagination {
  /** Where a `slice` bound lands: a negative bound counts from the end, and bounds are clamped to the length. */
  function SliceBound(i: int, n: nat): (b: nat)
    ensures b <= n
    ensures 0 <= i <= n ==> b == i
    ensures i > n ==> b == n
  {
    if i < 0 then (if n + i < 0 then 0 else n + i)
    else if i > n then n
    else i
  }

  /** `s.slice(start, end)`. */
  function Slice<T>(s: seq<T>, start: int, end: int): (r: seq<T>)
    ensures SliceBound(start, |s|) < SliceBound(end, |s|) ==> r == s[SliceBound(start, |s|)..SliceBound(end, |s|)]
    ensures SliceBound(start, |s|) >= SliceBound(end, |s|) ==> r == []
  {
    var from := SliceBound(start, |s|);
    var to := SliceBound(end, |s|);
    if from < to then s[from..to] else []
  }

  /** `Math.ceil(n / size)`. */
  function TotalPages(n: nat, size: nat): (pages: nat)
    requires size > 0
    ensures pages * size >= n
    ensures pages > 0 ==> (pages - 1) * size < n
  {
    (n + size - 1) / size
  }

  /** The items on page `page` (the first page is 1). */
  function Page<T>(s: seq<T>, page: int, size: nat): (r: seq<T>)
    requires size > 0
    ensures page >= 1 ==> var start := (page - 1) * size;
              && (start < |s| ==> r == s[start..if start + size <= |s| then start + size else |s|])
              && (start >= |s| ==> r == [])
  {
    var start := (page - 1) * size;
    StartBound(page, size);
    Slice(s, start, start + size)
  }

  lemma StartBound(page: int, size: nat)
    ensures page >= 1 ==> (page - 1) * size >= 0
  {
    if page >= 1 {
      MulMonotone(0, page - 1, size);
    }
  }

  /** Multiplying by a non-negative number keeps an order. */
  lemma MulMonotone(a: int, b: int, c: nat)
    requires a <= b
    ensures a * c <= b * c
  {
    assert b * c - a * c == (b - a) * c;
  }

  /** Item `m` of page `q + 1` is item `q * size + m` of the list. */
  lemma ItemOnPage<T>(s: seq<T>, size: nat, q: nat, m: nat)
    requires m < size && q * size + m < |s|
    ensures m < |Page(s, q + 1, size)| && Page(s, q + 1, size)[m] == s[q * size + m]
  {
    var start := q * size;
    assert (q + 1 - 1) * size == start;
    var end := if start + size <= |s| then start + size else |s|;
    assert Page(s, q + 1, size) == s[start..end];
  }

  /** Item `k` is item `k % size` of page `k / size + 1`. */
  lemma PageOfItem<T>(s: seq<T>, size: nat, k: nat)
    requires size > 0 && k < |s|
    ensures k % size < |Page(s, k / size + 1, size)| && Page(s, k / size + 1, size)[k % size] == s[k]
  {
    var q, m := k / size, k % size;
    assert q * size + m == k;
    ItemOnPage(s, size, q, m);
  }

  /** Pages before the last one are full. */
  lemma FullPage<T>(s: seq<T>, size: nat, p: int)
    requires size > 0 && 1 <= p < TotalPages(|s|, size)
    ensures |Page(s, p, size)| == size
  {
    var n, start := TotalPages(|s|, size), (p - 1) * size;
    MulMonotone(p, n - 1, size);
    assert start + size == p * size;
    assert start + size <= |s|;
    assert Page(s, p, size) == s[start..start + size];
  }

  /** Pages after the last one are empty. */
  lemma EmptyPage<T>(s: seq<T>, size: nat, p: int)
    requires size > 0 && p > TotalPages(|s|, size)
    ensures Page(s, p, size) == []
  {
    MulMonotone(TotalPages(|s|, size), p - 1, size);
  }

  /**
   * The pages partition the list: item `k` is item `k % size` of page `k / size + 1`, pages 1 to
   * `TotalPages` are full except possibly the last, which is not empty, and every later page is empty.
   */
  lemma PagesPartition<T>(s: seq<T>, size: nat)
    requires size > 0
    ensures forall k :: 0 <= k < |s| ==>
              k % size < |Page(s, k / size + 1, size)| && Page(s, k / size + 1, size)[k % size] == s[k]
    ensures forall p :: 1 <= p < TotalPages(|s|, size) ==> |Page(s, p, size)| == size
    ensures TotalPages(|s|, size) > 0 ==> |Page(s, TotalPages(|s|, size), size)| > 0
    ensures forall p :: p > TotalPages(|s|, size) ==> Page(s, p, size) == []
  {
    forall k | 0 <= k < |s|
      ensures k % size < |Page(s, k / size + 1, size)| && Page(s, k / size + 1, size)[k % size] == s[k]
    {
      PageOfItem(s, size, k);
    }
    forall p | 1 <= p < TotalPages(|s|, size)
      ensures |Page(s, p, size)| == size
    {
      FullPage(s, size, p);
    }
    forall p | p > TotalPages(|s|, size)
      ensures Page(s, p, size) == []
    {
      EmptyPage(s, size, p);
    }
  }
}
