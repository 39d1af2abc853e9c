/**
 * The pure logic of frontend/src/components/Pagination.jsx: whether the
 * previous and next buttons are enabled, the "Showing from–to of total"
 * range, and the windowed list of page buttons such as `1 … 4 5 6 7 8 … 20`.
 */
module Pagination {
  import TaskModel
  import TasksService

  function Min(a: int, b: int): int { if a <= b then a else b }
  function Max(a: int, b: int): int { if a >= b then a else b }

  /** `canPrev`: the first-page and previous-page buttons are enabled. */
  predicate CanPrev(page: int)
  {
    page > 1
  }

  /** `canNext`: the next-page and last-page buttons are enabled. */
  predicate CanNext(page: int, totalPages: int)
  {
    page < totalPages
  }

  /** The number of the first item shown, 0 when there are none. */
  function RangeFrom(page: int, limit: int, totalItems: int): (r: int)
    ensures totalItems == 0 ==> r == 0
    ensures page >= 1 && limit >= 0 && totalItems != 0 ==> r >= 1
  {
    if totalItems == 0 then 0 else (page - 1) * limit + 1
  }

  /** The number of the last item shown: `Math.min(page * limit, totalItems)`. */
  function RangeTo(page: int, limit: int, totalItems: int): (r: int)
    ensures r <= totalItems && r <= page * limit
    ensures r == page * limit || r == totalItems
  {
    Min(page * limit, totalItems)
  }

  /**
   * On a page the backend actually returned, "Showing from–to of total"
   * describes that page: the range lies within the total, spans exactly the
   * listed items, and item `k` of the page is match number `from + k` of the
   * sorted listing (counting from 1).
   */
  lemma RangeDescribesListedPage(store: seq<TaskModel.Task>, page: int, limit: int,
                                  c: TasksService.Criteria, searchPath: string, m: TasksService.Matcher)
    requires page >= 1 && limit >= 1
    requires page <= TasksService.Listing(store, page, limit, c, searchPath, m).totalPages
    ensures var r := TasksService.Listing(store, page, limit, c, searchPath, m);
            && 1 <= RangeFrom(page, limit, r.totalCount) <= RangeTo(page, limit, r.totalCount) <= r.totalCount
            && RangeTo(page, limit, r.totalCount) - RangeFrom(page, limit, r.totalCount) + 1 == |r.items|
    ensures var r := TasksService.Listing(store, page, limit, c, searchPath, m);
            var sorted := TasksService.SortForListing(TasksService.SelectListed(store, c, searchPath, m));
            forall k :: 0 <= k < |r.items| ==> r.items[k] == sorted[RangeFrom(page, limit, r.totalCount) - 1 + k]
  {
    var r := TasksService.Listing(store, page, limit, c, searchPath, m);
    var sorted := TasksService.SortForListing(TasksService.SelectListed(store, c, searchPath, m));
    assert r.items == TasksService.Window(sorted, TasksService.Offset(page, limit), limit);
    assert r.totalCount == |sorted|;
    WindowRange(sorted, page, limit, r.totalPages);
    var from := RangeFrom(page, limit, r.totalCount);
    forall k | 0 <= k < |r.items| ensures r.items[k] == sorted[from - 1 + k] {
    }
  }

  /** The range shown for page `page` of a sorted sequence `s` cut into pages of `limit`. */
  lemma WindowRange(s: seq<TaskModel.Task>, page: int, limit: int, pages: nat)
    requires page >= 1 && limit >= 1 && page <= pages
    requires pages * limit >= |s| && (pages - 1) * limit < |s|
    ensures var w := TasksService.Window(s, TasksService.Offset(page, limit), limit);
            && 1 <= RangeFrom(page, limit, |s|) <= RangeTo(page, limit, |s|) <= |s|
            && RangeTo(page, limit, |s|) - RangeFrom(page, limit, |s|) + 1 == |w|
            && forall k :: 0 <= k < |w| ==> w[k] == s[RangeFrom(page, limit, |s|) - 1 + k]
  {
    var skip := TasksService.Offset(page, limit);
    TasksService.WindowSize(s, page, limit, pages);
    assert page * limit == skip + limit;
    assert skip < |s|;
    assert RangeFrom(page, limit, |s|) - 1 == skip;
  }

  /**
   * The navigation buttons agree with the backend: "next" is enabled exactly
   * when the next page has items, and "previous", within the existing pages,
   * leads to a page that has items.
   */
  lemma NavigationMatchesListing(store: seq<TaskModel.Task>, page: int, limit: int,
                                 c: TasksService.Criteria, searchPath: string, m: TasksService.Matcher)
    requires page >= 1 && limit >= 1
    ensures var pages := TasksService.Listing(store, page, limit, c, searchPath, m).totalPages;
            CanNext(page, pages) <==> TasksService.Listing(store, page + 1, limit, c, searchPath, m).items != []
    ensures var pages := TasksService.Listing(store, page, limit, c, searchPath, m).totalPages;
            CanPrev(page) && page - 1 <= pages ==> TasksService.Listing(store, page - 1, limit, c, searchPath, m).items != []
    ensures !CanPrev(page) <==> page == 1
  {
    TasksService.PageSize(store, page + 1, limit, c, searchPath, m);
    if page > 1 {
      TasksService.PageSize(store, page - 1, limit, c, searchPath, m);
    }
  }

  /** An entry of the page list: a page button, or the "…" gap marker. */
  datatype PageItem = Num(n: int) | Ellipsis

  /** The first and last page of the contiguous window, for two or more pages. */
  function WindowBounds(page: int, totalPages: int): (r: (int, int))
    requires totalPages >= 2
    ensures 1 <= r.0 <= r.1 <= totalPages
    ensures r.1 - r.0 + 1 == Min(5, totalPages)
    ensures 1 <= page <= totalPages ==> r.0 <= page <= r.1
    ensures 3 <= page <= totalPages - 2 ==> r == (page - 2, page + 2)
  {
    var start := Max(1, page - 2);
    var end := Min(totalPages, start + 4);
    (Max(1, end - 4), end)
  }

  /** The page buttons `lo..hi`. */
  function Run(lo: int, hi: int): (r: seq<PageItem>)
    requires lo <= hi + 1
    ensures |r| == hi - lo + 1
    ensures forall i :: 0 <= i < |r| ==> r[i] == Num(lo + i)
  {
    seq(hi - lo + 1, i => Num(lo + i))
  }

  /** Page 1 and the gap after it, where the window does not reach them. */
  function Head(start: int): seq<PageItem>
  {
    (if start > 1 then [Num(1)] else []) + (if start > 2 then [Ellipsis] else [])
  }

  /** The gap before the last page and the last page, where the window does not reach them. */
  function Tail(end: int, totalPages: int): seq<PageItem>
  {
    (if end < totalPages - 1 then [Ellipsis] else []) + (if end < totalPages then [Num(totalPages)] else [])
  }

  /** The entries of `pages`: page 1, a gap, the window, a gap, the last page, each only where needed. */
  function PageItems(page: int, totalPages: int): seq<PageItem>
  {
    if totalPages <= 1 then [Num(1)]
    else
      var bounds := WindowBounds(page, totalPages);
      Head(bounds.0) + Run(bounds.0, bounds.1) + Tail(bounds.1, totalPages)
  }

  lemma RunSnoc(lo: int, hi: int)
    requires lo <= hi + 1
    ensures Run(lo, hi + 1) == Run(lo, hi) + [Num(hi + 1)]
  {
  }

  /** The `pages` memo, built as the source builds it: adjust the window, then push entries one by one. */
  method Pages(page: int, totalPages: int) returns (nums: seq<PageItem>)
    ensures nums == PageItems(page, totalPages)
  {
    if totalPages <= 1 {
      return [Num(1)];
    }
    var windowSize := 5;
    var half := windowSize / 2;
    var start := Max(1, page - half);
    var end := Min(totalPages, start + windowSize - 1);
    start := Max(1, end - windowSize + 1);
    assert (start, end) == WindowBounds(page, totalPages);

    nums := [];
    if start > 1 {
      nums := nums + [Num(1)];
    }
    if start > 2 {
      nums := nums + [Ellipsis];
    }
    assert nums == Head(start);
    var p := start;
    while p <= end
      invariant start <= p <= end + 1
      invariant nums == Head(start) + Run(start, p - 1)
    {
      RunSnoc(start, p - 1);
      nums := nums + [Num(p)];
      p := p + 1;
    }
    ghost var body := nums;
    if end < totalPages - 1 {
      nums := nums + [Ellipsis];
    }
    if end < totalPages {
      nums := nums + [Num(totalPages)];
    }
    assert nums == body + Tail(end, totalPages);
  }

  /**
   * The shape of the page list for two or more pages: it begins with page 1
   * and ends with the last page, neighbouring buttons are consecutive pages,
   * and an ellipsis always stands between two buttons that skip at least one
   * page. So every page number is either shown or inside a marked gap.
   */
  predicate WellShaped(items: seq<PageItem>, totalPages: int)
  {
    && |items| >= 2
    && items[0] == Num(1)
    && items[|items| - 1] == Num(totalPages)
    && (forall i :: 0 <= i < |items| - 1 && items[i].Num? && items[i + 1].Num? ==> items[i + 1].n == items[i].n + 1)
    && (forall i :: 0 < i < |items| - 1 && items[i].Ellipsis? ==>
          items[i - 1].Num? && items[i + 1].Num? && items[i + 1].n >= items[i - 1].n + 2)
  }

  /** Page numbers in the list are strictly increasing. */
  predicate Increasing(items: seq<PageItem>)
  {
    forall i, j :: 0 <= i < j < |items| && items[i].Num? && items[j].Num? ==> items[i].n < items[j].n
  }

  /** One page: the list is exactly `[1]` (also when `totalPages` is 0, the falsy case). */
  lemma SinglePage(page: int, totalPages: int)
    requires totalPages <= 1
    ensures PageItems(page, totalPages) == [Num(1)]
  {
  }

  /** Which pages get a button, and where the gap markers go. */
  lemma {:induction false} PageItemsContents(page: int, totalPages: int)
    requires totalPages >= 2
    ensures var (start, end) := WindowBounds(page, totalPages);
            forall p :: Num(p) in PageItems(page, totalPages) <==> p == 1 || p == totalPages || start <= p <= end
    ensures var (start, end) := WindowBounds(page, totalPages);
            var items := PageItems(page, totalPages);
            && (items[1] == Ellipsis <==> start > 2)
            && (items[|items| - 2] == Ellipsis <==> end < totalPages - 1)
  {
    var (start, end) := WindowBounds(page, totalPages);
    var run := Run(start, end);
    forall p ensures Num(p) in run <==> start <= p <= end {
      if start <= p <= end {
        assert run[p - start] == Num(p);
      }
    }
  }

  /** Where each entry of the page list comes from: page 1 and its gap, the window, or the last gap and page. */
  lemma {:induction false} PageItemsAt(page: int, totalPages: int, start: int, end: int, items: seq<PageItem>, i: int)
    requires totalPages >= 2 && (start, end) == WindowBounds(page, totalPages)
    requires items == PageItems(page, totalPages) && 0 <= i < |items|
    ensures var k := |Head(start)|;
            var t := k + end - start + 1;
            && (i < k ==> items[i] == (if i == 0 then Num(1) else Ellipsis))
            && (k <= i < t ==> items[i] == Num(start + i - k))
            && (t <= i ==> items[i] == (if i == t && end < totalPages - 1 then Ellipsis else Num(totalPages)))
            && |items| == t + |Tail(end, totalPages)|
  {
  }

  /** Neighbouring page buttons are consecutive pages. */
  lemma {:induction false} NeighboursConsecutive(page: int, totalPages: int)
    requires totalPages >= 2
    ensures var items := PageItems(page, totalPages);
            forall i :: 0 <= i < |items| - 1 && items[i].Num? && items[i + 1].Num? ==> items[i + 1].n == items[i].n + 1
  {
    var (start, end) := WindowBounds(page, totalPages);
    var items := PageItems(page, totalPages);
    forall i | 0 <= i < |items| - 1 && items[i].Num? && items[i + 1].Num?
      ensures items[i + 1].n == items[i].n + 1
    {
      PageItemsAt(page, totalPages, start, end, items, i);
      PageItemsAt(page, totalPages, start, end, items, i + 1);
    }
  }

  /** Every ellipsis sits between two buttons that skip at least one page. */
  lemma {:induction false} GapsMarkSkips(page: int, totalPages: int)
    requires totalPages >= 2
    ensures var items := PageItems(page, totalPages);
            forall i :: 0 < i < |items| - 1 && items[i].Ellipsis? ==>
              items[i - 1].Num? && items[i + 1].Num? && items[i + 1].n >= items[i - 1].n + 2
  {
    var (start, end) := WindowBounds(page, totalPages);
    var items := PageItems(page, totalPages);
    forall i | 0 < i < |items| - 1 && items[i].Ellipsis?
      ensures items[i - 1].Num? && items[i + 1].Num? && items[i + 1].n >= items[i - 1].n + 2
    {
      PageItemsAt(page, totalPages, start, end, items, i - 1);
      PageItemsAt(page, totalPages, start, end, items, i);
      PageItemsAt(page, totalPages, start, end, items, i + 1);
    }
  }

  /** The page list for two or more pages is well shaped. */
  lemma {:induction false} PageItemsShape(page: int, totalPages: int)
    requires totalPages >= 2
    ensures WellShaped(PageItems(page, totalPages), totalPages)
  {
    var (start, end) := WindowBounds(page, totalPages);
    var items := PageItems(page, totalPages);
    PageItemsAt(page, totalPages, start, end, items, 0);
    PageItemsAt(page, totalPages, start, end, items, |items| - 1);
    NeighboursConsecutive(page, totalPages);
    GapsMarkSkips(page, totalPages);
  }

  /** Page numbers never repeat and appear in ascending order. */
  lemma {:induction false} PageItemsIncreasing(page: int, totalPages: int)
    ensures Increasing(PageItems(page, totalPages))
  {
    if totalPages >= 2 {
      var (start, end) := WindowBounds(page, totalPages);
      var items := PageItems(page, totalPages);
      forall i, j | 0 <= i < j < |items| && items[i].Num? && items[j].Num?
        ensures items[i].n < items[j].n
      {
        PageItemsAt(page, totalPages, start, end, items, i);
        PageItemsAt(page, totalPages, start, end, items, j);
      }
    }
  }
}
