/** Per-kind pagination: JavaScript's `Array.prototype.slice`, the 1-based
    page window `slice((page-1)*pageSize, (page-1)*pageSize + pageSize)`, and
    the page count `Math.ceil(total / pageSize)` over natural numbers. */
module Pagination {

  function Min(a: int, b: int): int {
    if a <= b then a else b
  }

  /** How `slice` turns an argument into an index of a sequence of length
      `len`: a negative argument counts from the end, and the result is
      clamped to `[0, len]`. */
  function RelativeIndex(k: int, len: nat): (r: nat)
    ensures r <= len
  {
    if k < 0 then
      if len + k < 0 then 0 else len + k
    else if k > len then len
    else k
  }

  /** `s.slice(start, end)`: never fails; an empty window gives `[]`. For a
      non-negative `start` the result holds the elements of `s` from `start`
      up to `end` or the end of `s`, whichever comes first. */
  function JsSlice<T>(s: seq<T>, start: int, end: int): (r: seq<T>)
    ensures 0 <= start && 0 <= end ==>
      |r| == (if start >= |s| || end <= start then 0 else Min(end, |s|) - start)
    ensures start >= 0 ==>
      forall i | 0 <= i < |r| :: start + i < |s| && r[i] == s[start + i]
  {
    var from := RelativeIndex(start, |s|);
    var to := RelativeIndex(end, |s|);
    if from < to then s[from..to] else []
  }

  /** A negative `slice` bound counts from the end: it means the same as
      `|s|` plus that bound, or `0` when that sum is still negative. */
  lemma SliceCountsFromEnd<T>(s: seq<T>, start: int, end: int)
    ensures -|s| <= start < 0 ==> JsSlice(s, start, end) == JsSlice(s, |s| + start, end)
    ensures start < -|s| ==> JsSlice(s, start, end) == JsSlice(s, 0, end)
    ensures -|s| <= end < 0 ==> JsSlice(s, start, end) == JsSlice(s, start, |s| + end)
    ensures end < -|s| ==> JsSlice(s, start, end) == []
  {
  }

  /** Index of the first element of a 1-based page. */
  function PageStart(page: int, pageSize: nat): nat
    requires page >= 1
  {
    (page - 1) * pageSize
  }

  /** The records of one kind shown on `page`: the contiguous run of `s`
      starting at `PageStart(page, pageSize)`, at most `pageSize` long, and
      empty when the page starts at or beyond the end of `s`. */
  function Paginate<T>(s: seq<T>, page: int, pageSize: nat): (r: seq<T>)
    requires page >= 1
    ensures |r| <= pageSize
    ensures |r| == if PageStart(page, pageSize) >= |s| then 0
                   else Min(pageSize, |s| - PageStart(page, pageSize))
    ensures forall i | 0 <= i < |r| ::
      PageStart(page, pageSize) + i < |s| && r[i] == s[PageStart(page, pageSize) + i]
  {
    var start := PageStart(page, pageSize);
    JsSlice(s, start, start + pageSize)
  }

  /** `page` holds the first `n` records of `s`, or all of `s` if it is
      shorter. */
  predicate FirstRecords<T(==)>(page: seq<T>, s: seq<T>, n: nat) {
    page == s[..Min(n, |s|)]
  }

  /** The first page is the prefix of `s` of length `pageSize`. */
  lemma FirstPageIsPrefix<T>(s: seq<T>, pageSize: nat)
    ensures FirstRecords(Paginate(s, 1, pageSize), s, pageSize)
  {
  }

  /** `Math.ceil(n / d)` for naturals `n` and `d >= 1`: the least `r` with
      `n <= r * d`. */
  function CeilDiv(n: nat, d: nat): (r: nat)
    requires d >= 1
    ensures n <= r * d < n + d
    ensures r == 0 <==> n == 0
  {
    var q := (n + d - 1) / d;
    assert (n + d - 1) == q * d + (n + d - 1) % d;
    q
  }

  /** The ceiling is unique: no other count of pages both covers `n` and
      leaves fewer than `d` unused slots. */
  lemma CeilDivUnique(n: nat, d: nat, k: nat)
    requires d >= 1
    requires n <= k * d < n + d
    ensures k == CeilDiv(n, d)
  {
    var r := CeilDiv(n, d);
    MulCancel(k, r + 1, d);
    MulCancel(r, k + 1, d);
  }

  lemma MulCancel(a: int, b: int, d: int)
    requires d > 0 && a * d < b * d
    ensures a < b
  {
  }

  /** Pages `1..k` of some paged view, concatenated in order. */
  function ConcatPages<T>(pageOf: int -> seq<T>, k: nat): seq<T> {
    if k == 0 then [] else ConcatPages(pageOf, k - 1) + pageOf(k)
  }

  /** The part of `s` between two indices, each clamped to its length. */
  function Window<T>(s: seq<T>, lo: nat, hi: nat): seq<T>
    requires lo <= hi
  {
    s[Min(lo, |s|)..Min(hi, |s|)]
  }

  /** A page is the window between its start and the next page's start. */
  lemma PageIsWindow<T>(s: seq<T>, page: int, pageSize: nat)
    requires page >= 1
    ensures Paginate(s, page, pageSize) == Window(s, PageStart(page, pageSize), PageStart(page + 1, pageSize))
  {
  }

  /** The windows of pages `1..k`, concatenated in order. */
  function PageWindows<T>(s: seq<T>, pageSize: nat, k: nat): seq<T> {
    if k == 0 then [] else PageWindows(s, pageSize, k - 1) + Window(s, PageStart(k, pageSize), PageStart(k + 1, pageSize))
  }

  /** Adjacent windows join into one. */
  lemma PrefixSplit<T>(s: seq<T>, a: nat, b: nat)
    requires a <= b
    ensures s[..Min(b, |s|)] == s[..Min(a, |s|)] + Window(s, a, b)
  {
  }

  /** The windows of pages `1..k` concatenate to the prefix of `s` that ends
      where page `k + 1` starts (or all of `s` if that is shorter). */
  lemma {:induction false} PageWindowsArePrefix<T>(s: seq<T>, pageSize: nat, k: nat)
    ensures PageWindows(s, pageSize, k) == s[..Min(PageStart(k + 1, pageSize), |s|)]
  {
    if k > 0 {
      PageWindowsArePrefix(s, pageSize, k - 1);
      assert PageStart(k, pageSize) <= PageStart(k + 1, pageSize);
      PrefixSplit(s, PageStart(k, pageSize), PageStart(k + 1, pageSize));
    } else {
      assert PageStart(1, pageSize) == 0;
    }
  }

  /** A paged view that shows `s`'s pages on `1..k` concatenates to the
      windows of those pages. */
  lemma {:induction false} ConcatPagesAreWindows<T>(s: seq<T>, pageSize: nat, pageOf: int -> seq<T>, k: nat)
    requires forall p | 1 <= p <= k :: pageOf(p) == Paginate(s, p, pageSize)
    ensures ConcatPages(pageOf, k) == PageWindows(s, pageSize, k)
  {
    if k > 0 {
      ConcatPagesAreWindows(s, pageSize, pageOf, k - 1);
      PageIsWindow(s, k, pageSize);
    }
  }

  /** The first `k` pages of `s`, concatenated, are the prefix of `s` of
      length `k * pageSize` (or all of `s` if that is shorter). */
  lemma ConcatPagesIsPrefix<T>(s: seq<T>, pageSize: nat, pageOf: int -> seq<T>, k: nat)
    requires forall p | 1 <= p <= k :: pageOf(p) == Paginate(s, p, pageSize)
    ensures ConcatPages(pageOf, k) == s[..Min(k * pageSize, |s|)]
  {
    ConcatPagesAreWindows(s, pageSize, pageOf, k);
    PageWindowsArePrefix(s, pageSize, k);
    assert PageStart(k + 1, pageSize) == k * pageSize;
  }

  /** With `totalPages = CeilDiv(total, pageSize)` and a kind no longer than
      `total`, the pages `1..totalPages` reconstruct the kind exactly: no
      record is skipped and none is repeated. */
  lemma PagesReassemble<T>(s: seq<T>, total: nat, pageSize: nat, pageOf: int -> seq<T>)
    requires pageSize >= 1 && |s| <= total
    requires forall p | 1 <= p <= CeilDiv(total, pageSize) :: pageOf(p) == Paginate(s, p, pageSize)
    ensures ConcatPages(pageOf, CeilDiv(total, pageSize)) == s
  {
    var k := CeilDiv(total, pageSize);
    ConcatPagesIsPrefix(s, pageSize, pageOf, k);
    assert s[..|s|] == s;
  }

  /** Every page after the last counted one is empty for a kind no longer
      than `total`. */
  lemma PagesAfterLastAreEmpty<T>(s: seq<T>, total: nat, pageSize: nat, page: int)
    requires pageSize >= 1 && |s| <= total
    requires page > CeilDiv(total, pageSize)
    ensures Paginate(s, page, pageSize) == []
  {
    var k := CeilDiv(total, pageSize);
    MulMonotone(k, page - 1, pageSize);
    assert PageStart(page, pageSize) >= |s|;
  }

  lemma MulMonotone(a: nat, b: nat, d: nat)
    requires a <= b
    ensures a * d <= b * d
  {
    assert b * d == a * d + (b - a) * d;
  }
}
