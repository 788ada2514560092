/** The offset/limit arithmetic both list services share: a page starts at
    offset `(page - 1) * pageSize` and ends at `from + pageSize - 1`, and the
    page count is `Math.ceil(totalItems / pageSize)`. */
module Pagination {
  import opened Types
  import opened Datastore

  /** The first offset of a page. */
  function Offset(page: int, pageSize: int): (r: int)
    requires page >= 1 && pageSize >= 1
    ensures r >= 0
  {
    MulNonNegative(page - 1, pageSize);
    (page - 1) * pageSize
  }

  /** The last offset of a page, inclusive. */
  function LastOffset(page: int, pageSize: int): (r: int)
    requires page >= 1 && pageSize >= 1
    ensures r - Offset(page, pageSize) + 1 == pageSize
  {
    Offset(page, pageSize) + pageSize - 1
  }

  lemma MulNonNegative(a: int, b: int)
    requires a >= 0 && b >= 0
    ensures a * b >= 0
  {
  }

  lemma MulMonotonic(a: int, b: int, d: int)
    requires a <= b && d >= 0
    ensures a * d <= b * d
  {
    assert b * d - a * d == (b - a) * d;
    MulNonNegative(b - a, d);
  }

  /** `Math.ceil(n / d)`: the least multiple count that covers `n`. */
  function CeilDiv(n: int, d: int): (r: int)
    requires d >= 1
    ensures (r - 1) * d < n <= r * d
  {
    var q, m := (n + d - 1) / d, (n + d - 1) % d;
    assert n + d - 1 == q * d + m && 0 <= m < d;
    assert (q - 1) * d == q * d - d;
    q
  }

  /** Only one number lies in that position, so `CeilDiv` is the ceiling. */
  lemma CeilDivUnique(n: int, d: int, k: int)
    requires d >= 1
    requires (k - 1) * d < n <= k * d
    ensures k == CeilDiv(n, d)
  {
    var r := CeilDiv(n, d);
    if k < r {
      MulMonotonic(k, r - 1, d);
    } else if r < k {
      MulMonotonic(r, k - 1, d);
    }
  }

  lemma CeilDivZero(n: int, d: int)
    requires d >= 1 && n >= 0
    ensures CeilDiv(n, d) == 0 <==> n == 0
    ensures CeilDiv(n, d) >= 0
  {
    var r := CeilDiv(n, d);
    if r < 0 {
      MulMonotonic(r, -1, d);
    } else if r == 0 {
      assert r * d == 0;
    } else {
      MulMonotonic(0, r - 1, d);
    }
  }

  /** The `pagination` block of a list response; `count` is the exact count
      the store returned, if it returned one. */
  function Info(page: int, pageSize: int, count: Option<nat>): (r: PaginationInfo)
    requires pageSize >= 1
    ensures r.page == page && r.pageSize == pageSize
    ensures count.None? ==> r.totalItems == 0 && r.totalPages == 0
    ensures count.Some? ==> r.totalItems == count.value
    ensures r.totalPages == 0 <==> r.totalItems == 0
    ensures r.totalPages >= 0
    ensures (r.totalPages - 1) * pageSize < r.totalItems <= r.totalPages * pageSize
  {
    var totalItems := count.GetOr(0);
    CeilDivZero(totalItems, pageSize);
    PaginationInfo(page, pageSize, totalItems, CeilDiv(totalItems, pageSize))
  }

  /** The rows a page's `range` selects from the ordered rows `s`. */
  function PageOf<R>(s: seq<R>, page: int, pageSize: int): (r: seq<R>)
    requires page >= 1 && pageSize >= 1
    ensures |r| <= pageSize
    ensures forall i :: 0 <= i < |r| ==> Offset(page, pageSize) + i < |s| && r[i] == s[Offset(page, pageSize) + i]
  {
    Range(s, Offset(page, pageSize), LastOffset(page, pageSize))
  }

  /** A page has rows exactly when its number is at most the page count. */
  lemma PageNonEmptyIff<R>(s: seq<R>, page: int, pageSize: int)
    requires page >= 1 && pageSize >= 1
    ensures PageOf(s, page, pageSize) != [] <==> page <= CeilDiv(|s|, pageSize)
  {
    var r := CeilDiv(|s|, pageSize);
    if page <= r {
      MulMonotonic(page - 1, r - 1, pageSize);
      assert |PageOf(s, page, pageSize)| > 0;
    } else {
      MulMonotonic(r, page - 1, pageSize);
    }
  }

  /** Pages 1..k laid end to end. */
  function Pages<R>(s: seq<R>, pageSize: int, k: nat): seq<R>
    requires pageSize >= 1
  {
    if k == 0 then [] else Pages(s, pageSize, k - 1) + PageOf(s, k, pageSize)
  }

  lemma {:induction false} PagesPrefix<R>(s: seq<R>, pageSize: int, k: nat)
    requires pageSize >= 1
    ensures k * pageSize >= 0
    ensures Pages(s, pageSize, k) == s[..Min(k * pageSize, |s|)]
  {
    MulNonNegative(k, pageSize);
    if k > 0 {
      PagesPrefix(s, pageSize, k - 1);
      var lo := Min((k - 1) * pageSize, |s|);
      var hi := Min(k * pageSize, |s|);
      PageIsSlice(s, pageSize, k);
      assert s[..lo] + s[lo..hi] == s[..hi];
    }
  }

  /** Page `k` is the slice between the prefixes of `k - 1` and `k` pages. */
  lemma PageIsSlice<R>(s: seq<R>, pageSize: int, k: int)
    requires pageSize >= 1 && k >= 1
    ensures 0 <= Min((k - 1) * pageSize, |s|) <= Min(k * pageSize, |s|) <= |s|
    ensures PageOf(s, k, pageSize) == s[Min((k - 1) * pageSize, |s|)..Min(k * pageSize, |s|)]
  {
    MulNonNegative(k - 1, pageSize);
    assert k * pageSize == (k - 1) * pageSize + pageSize;
    assert Offset(k, pageSize) == (k - 1) * pageSize;
    assert LastOffset(k, pageSize) + 1 == k * pageSize;
  }

  /** Reading pages 1 to `totalPages` in turn yields every ordered row once,
      in order. */
  lemma PagesCoverAll<R>(s: seq<R>, pageSize: int)
    requires pageSize >= 1
    ensures CeilDiv(|s|, pageSize) >= 0
    ensures Pages(s, pageSize, CeilDiv(|s|, pageSize)) == s
  {
    CeilDivZero(|s|, pageSize);
    PagesPrefix(s, pageSize, CeilDiv(|s|, pageSize));
  }

  /** Ordering holds across page boundaries: every row of an earlier page may
      precede every row of a later one. */
  lemma PagesInOrder<R>(s: seq<R>, key: R -> Key, ascending: bool, pageSize: int, p: int, q: int)
    requires SortedBy(s, key, ascending)
    requires pageSize >= 1 && 1 <= p < q
    ensures forall i, j :: 0 <= i < |PageOf(s, p, pageSize)| && 0 <= j < |PageOf(s, q, pageSize)| ==>
              InOrder(key(PageOf(s, p, pageSize)[i]), key(PageOf(s, q, pageSize)[j]), ascending)
  {
    var a, b := PageOf(s, p, pageSize), PageOf(s, q, pageSize);
    MulMonotonic(p, q - 1, pageSize);
    assert Offset(p, pageSize) + pageSize == p * pageSize;
    forall i, j | 0 <= i < |a| && 0 <= j < |b|
      ensures InOrder(key(a[i]), key(b[j]), ascending)
    {
      assert a[i] == s[Offset(p, pageSize) + i];
      assert b[j] == s[Offset(q, pageSize) + j];
    }
  }
}
