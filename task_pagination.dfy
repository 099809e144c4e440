/** The page strip of client/src/components/TaskPagination.jsx: the list of
    page buttons with ellipses, and the Prev/Next targets. */
module TaskPagination {

  datatype PageItem = Page(n: int) | Ellipsis

  function Max(a: int, b: int): int { if a >= b then a else b }
  function Min(a: int, b: int): int { if a <= b then a else b }

  /** The component renders nothing for a single page. */
  predicate Rendered(totalPages: int) {
    totalPages > 1
  }

  /** The consecutive pages `lo..hi`. */
  function Window(lo: int, hi: int): (w: seq<PageItem>)
    ensures |w| == if lo <= hi then hi - lo + 1 else 0
    ensures forall k :: 0 <= k < |w| ==> w[k] == Page(lo + k)
    decreases hi - lo
  {
    if lo > hi then [] else [Page(lo)] + Window(lo + 1, hi)
  }

  /** A window grows by one page at its upper end. */
  lemma {:induction false} WindowExtend(lo: int, hi: int)
    requires lo <= hi + 1
    ensures Window(lo, hi + 1) == Window(lo, hi) + [Page(hi + 1)]
  {
    var a, b := Window(lo, hi + 1), Window(lo, hi) + [Page(hi + 1)];
    assert |a| == |b|;
    forall k | 0 <= k < |a|
      ensures a[k] == b[k]
    {
    }
  }

  /** The intended strip: all pages when there are at most five; otherwise
      the first page, a leading ellipsis past page 3, the window around the
      current page, a trailing ellipsis before the last two pages, and the
      last page. */
  function PageList(current: int, total: int): seq<PageItem> {
    if total <= 5 then Window(1, total)
    else
      [Page(1)]
      + (if current > 3 then [Ellipsis] else [])
      + Window(Max(2, current - 1), Min(total - 1, current + 1))
      + (if current < total - 2 then [Ellipsis] else [])
      + [Page(total)]
  }

  /** The loop of `getPageNumbers` over the window `lo..hi`: each page not
      already present is pushed; none is, since the earlier entries are
      all below `lo`. */
  method PushWindow(prefix: seq<PageItem>, lo: int, hi: int) returns (pages: seq<PageItem>)
    requires forall k :: 0 <= k < |prefix| && prefix[k].Page? ==> prefix[k].n < lo
    ensures pages == prefix + Window(lo, hi)
  {
    pages := prefix;
    var i := lo;
    while i <= hi
      invariant lo <= i && (i <= hi + 1 || i == lo)
      invariant pages == prefix + Window(lo, i - 1)
      invariant forall k :: 0 <= k < |pages| && pages[k].Page? ==> pages[k].n < i
    {
      WindowExtend(lo, i - 1);
      if Page(i) !in pages {
        pages := pages + [Page(i)];
      }
      i := i + 1;
    }
  }

  /** The loop of `getPageNumbers` for a short strip: every page `1..total`
      pushed in turn. */
  method PushAll(total: int) returns (pages: seq<PageItem>)
    ensures pages == Window(1, total)
  {
    pages := [];
    var i := 1;
    while i <= total
      invariant 1 <= i <= Max(total, 0) + 1
      invariant pages == Window(1, i - 1)
    {
      WindowExtend(1, i - 1);
      pages := pages + [Page(i)];
      i := i + 1;
    }
  }

  /** The last step of `getPageNumbers`: the last page pushed unless present,
      which it never is, since every earlier page is below it. */
  method PushLast(prefix: seq<PageItem>, total: int) returns (pages: seq<PageItem>)
    requires forall k :: 0 <= k < |prefix| && prefix[k].Page? ==> prefix[k].n < total
    ensures pages == prefix + [Page(total)]
  {
    pages := prefix;
    if Page(total) !in pages {
      pages := pages + [Page(total)];
    }
  }

  /** `getPageNumbers`: pushes pages into an array, skipping those already
      present. */
  method GetPageNumbers(current: int, total: int) returns (pages: seq<PageItem>)
    ensures pages == PageList(current, total)
  {
    if total <= 5 {
      pages := PushAll(total);
    } else {
      pages := [Page(1)];
      if current > 3 {
        pages := pages + [Ellipsis];
      }
      ghost var head := pages;
      var start := Max(2, current - 1);
      var end := Min(total - 1, current + 1);
      pages := PushWindow(pages, start, end);
      assert forall k :: 0 <= k < |pages| && pages[k].Page? ==> pages[k].n < total by {
        assert forall k :: 0 <= k < |head| && head[k].Page? ==> head[k].n == 1;
        assert forall k :: |head| <= k < |pages| ==> pages[k] == Page(start + k - |head|);
      }
      ghost var middle := pages;
      if current < total - 2 {
        pages := pages + [Ellipsis];
      }
      ghost var tail := pages[|middle|..];
      pages := PushLast(pages, total);
      assert head == [Page(1)] + (if current > 3 then [Ellipsis] else []);
      assert tail == (if current < total - 2 then [Ellipsis] else []);
      assert pages == head + Window(start, end) + tail + [Page(total)];
    }
  }

  /** The numbered entries strictly increase, so none appears twice. */
  predicate Increasing(pages: seq<PageItem>) {
    forall i, j :: 0 <= i < j < |pages| && pages[i].Page? && pages[j].Page? ==> pages[i].n < pages[j].n
  }

  /** With at most five pages the strip is exactly `1..total`. */
  lemma {:induction false} SmallStrip(current: int, total: int)
    requires total <= 5
    ensures forall item: PageItem :: item in PageList(current, total) <==> item.Page? && 1 <= item.n <= total
  {
    var w := PageList(current, total);
    forall item: PageItem | item.Page? && 1 <= item.n <= total
      ensures item in w
    {
      assert w[item.n - 1] == item;
    }
  }

  /** Which pages a long strip shows: the first, the last and the window
      `max(2, cur-1)..min(total-1, cur+1)`. */
  lemma {:induction false} LongStripPages(current: int, total: int)
    requires total > 5
    ensures var w := PageList(current, total);
      forall n :: Page(n) in w <==>
        n == 1 || n == total || Max(2, current - 1) <= n <= Min(total - 1, current + 1)
  {
    var lo, hi := Max(2, current - 1), Min(total - 1, current + 1);
    var win := Window(lo, hi);
    forall n | lo <= n <= hi
      ensures Page(n) in win
    {
      assert win[n - lo] == Page(n);
    }
  }

  /** A long strip starts with page 1, ends with the last page, and has an
      ellipsis after the first page exactly when the current page is past 3
      and before the last exactly when it is before `total - 2`. */
  lemma {:induction false} LongStripShape(current: int, total: int)
    requires total > 5 && 1 <= current <= total
    ensures var w := PageList(current, total);
      && |w| >= 3
      && w[0] == Page(1) && w[|w| - 1] == Page(total)
      && (w[1] == Ellipsis <==> current > 3)
      && (w[|w| - 2] == Ellipsis <==> current < total - 2)
  {
    var win := Window(Max(2, current - 1), Min(total - 1, current + 1));
    assert |win| >= 1;
  }

  /** Every strip is increasing, holds at most seven entries, and shows the
      current page when it is in range. */
  lemma {:induction false} StripInvariants(current: int, total: int)
    ensures Increasing(PageList(current, total))
    ensures |PageList(current, total)| <= 7
    ensures 1 <= current <= total ==> Page(current) in PageList(current, total)
  {
    var w := PageList(current, total);
    if total > 5 {
      var lo, hi := Max(2, current - 1), Min(total - 1, current + 1);
      var win := Window(lo, hi);
      var lead := if current > 3 then [Ellipsis] else [];
      var trail := if current < total - 2 then [Ellipsis] else [];
      assert w == [Page(1)] + lead + win + trail + [Page(total)];
      forall k | 0 <= k < |w| && w[k].Page?
        ensures (k == 0 && w[k].n == 1) || (k == |w| - 1 && w[k].n == total)
             || (0 < k < |w| - 1 && 2 <= w[k].n <= total - 1 && w[k].n == lo + k - 1 - |lead|)
      {
        if 0 < k < |w| - 1 {
          if k < 1 + |lead| {
          } else if k < 1 + |lead| + |win| {
            assert w[k] == win[k - 1 - |lead|];
          }
        }
      }
      if 1 <= current <= total {
        if current == 1 {
          assert w[0] == Page(1);
        } else if current == total {
          assert w[|w| - 1] == Page(total);
        } else {
          assert win[current - lo] == Page(current);
        }
      }
    } else if 1 <= current <= total {
      assert w[current - 1] == Page(current);
    }
  }

  /** The Prev button's target. */
  function PrevTarget(current: int): (p: int)
    ensures p >= 1
    ensures current > 1 ==> p == current - 1
  {
    Max(1, current - 1)
  }

  /** The Next button's target. */
  function NextTarget(current: int, total: int): (p: int)
    ensures p <= total
    ensures current < total ==> p == current + 1
  {
    Min(total, current + 1)
  }

  predicate PrevDisabled(current: int) { current == 1 }

  predicate NextDisabled(current: int, total: int) { current == total }

  /** On a page in range, both targets are pages in range, and an enabled
      button moves by exactly one page. */
  lemma {:induction false} TargetsInRange(current: int, total: int)
    requires 1 <= current <= total
    ensures 1 <= PrevTarget(current) <= total && 1 <= NextTarget(current, total) <= total
    ensures !PrevDisabled(current) ==> PrevTarget(current) == current - 1
    ensures !NextDisabled(current, total) ==> NextTarget(current, total) == current + 1
  {
  }
}
