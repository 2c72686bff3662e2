/** The `usePaginate` hook as an object: the page size and page index are
    the hook's state, the list and the threshold are its arguments, the
    derived values it returns are functions of the fields, each handler it
    returns is a method, and the effect that pulls the page index back
    after the last page moved is the explicit method `Reconcile`. */
module UsePaginate {
  import opened Pagination

  /** The defaults of `UsePaginateOptions`. */
  const DefaultPageSize: nat := 25
  const DefaultPageIndex: int := 0
  const DefaultThreshold: nat := 0

  /** `firstPageIndex` is always 0. */
  const FirstPageIndex: int := 0

  class Paginator<T> {
    /** The list being paginated and the option that gates pagination:
        arguments of the hook, read afresh on every render. */
    var items: seq<T>
    var threshold: nat
    /** The hook's own state. */
    var pageSize: nat
    var pageIndex: int

    /** Page sizes are positive; every caller of the hook must keep it so. */
    ghost predicate Valid()
      reads this
    {
      pageSize > 0
    }

    /** `usePaginate(items, { initialPageSize, initialPageIndex, threshold })`
        on its first render: the state is seeded as given, without clamping. */
    constructor (items: seq<T>, initialPageSize: nat, initialPageIndex: int, threshold: nat)
      requires initialPageSize > 0
      ensures Valid()
      ensures this.items == items && this.threshold == threshold
      ensures pageSize == initialPageSize && pageIndex == initialPageIndex
    {
      this.items := items;
      this.threshold := threshold;
      pageSize := initialPageSize;
      pageIndex := initialPageIndex;
    }

    /** `usePaginate(items)` with every option left to its default. */
    constructor WithDefaults(items: seq<T>)
      ensures Valid()
      ensures this.items == items && threshold == DefaultThreshold
      ensures pageSize == DefaultPageSize && pageIndex == DefaultPageIndex
    {
      this.items := items;
      threshold := DefaultThreshold;
      pageSize := DefaultPageSize;
      pageIndex := DefaultPageIndex;
    }

    /** `pageCount`: an empty list has no pages at all. */
    function PageCount(): (r: nat)
      reads this
      requires Valid()
      ensures r == 0 <==> items == []
    {
      GetPageCount(items, pageSize)
    }

    /** `shouldPaginate`: strictly more items than the threshold, so the
        fewest items that turn pagination on is `threshold + 1`, and an empty
        list is never paginated. */
    function ShouldPaginate(): (r: bool)
      reads this
      ensures r <==> threshold + 1 <= |items|
      ensures r ==> items != []
    {
      |items| > threshold
    }

    /** `pages`: every page of the list in order when pagination is on,
        nothing otherwise; put back together they give the list. */
    function Pages(): (r: seq<seq<T>>)
      reads this
      requires Valid()
      ensures !ShouldPaginate() ==> r == []
      ensures ShouldPaginate() ==> |r| == PageCount() && Flatten(r) == items
      ensures forall k :: 0 <= k < |r| ==> r[k] == Paginate(items, pageSize, k)
    {
      if ShouldPaginate() then
        PagesRoundTrip(items, pageSize);
        AllPages(items, pageSize)
      else
        []
    }

    /** `page`: the whole list when pagination is off; otherwise the page at
        `pageIndex`, or nothing when no page has that index. */
    function Page(): (r: seq<T>)
      reads this
      requires Valid()
      ensures !ShouldPaginate() ==> r == items
      ensures ShouldPaginate() && 0 <= pageIndex < PageCount() ==> r == Paginate(items, pageSize, pageIndex)
      ensures ShouldPaginate() && !(0 <= pageIndex < PageCount()) ==> r == []
    {
      if ShouldPaginate() then
        var pages := Pages();
        if 0 <= pageIndex < |pages| then pages[pageIndex] else []
      else
        items
    }

    /** `safeIndex`: clamps an index into `[0, pageCount - 1]`. For an
        empty list that range is empty and every index becomes -1. */
    function SafeIndex(index: int): (r: int)
      reads this
      requires Valid()
      ensures PageCount() == 0 ==> r == -1
      ensures PageCount() > 0 ==> 0 <= r < PageCount()
      ensures 0 <= index < PageCount() ==> r == index
      ensures PageCount() > 0 && index < 0 ==> r == 0
      ensures PageCount() > 0 && index >= PageCount() ==> r == PageCount() - 1
    {
      Min(Max(index, 0), PageCount() - 1)
    }

    /** `lastPageIndex`: always `pageCount - 1`, which is -1 for an empty
        list. */
    function LastPageIndex(): (r: int)
      reads this
      requires Valid()
      ensures r == PageCount() - 1
      ensures r < 0 <==> items == []
    {
      SafeIndex(PageCount() - 1)
    }

    /** `nextPageIndex`: one page on, saturating at the last page. */
    function NextPageIndex(): (r: int)
      reads this
      requires Valid()
      ensures PageCount() > 0 ==> 0 <= r <= LastPageIndex()
      ensures 0 <= pageIndex < LastPageIndex() ==> r == pageIndex + 1
      ensures pageIndex >= LastPageIndex() ==> r == LastPageIndex()
      ensures PageCount() > 0 && pageIndex < 0 ==> r == 0
      ensures PageCount() == 0 ==> r == -1
    {
      SafeIndex(pageIndex + 1)
    }

    /** `prevPageIndex`: one page back, saturating at the first page (when
        there is one). */
    function PrevPageIndex(): (r: int)
      reads this
      requires Valid()
      ensures PageCount() > 0 ==> 0 <= r <= LastPageIndex()
      ensures 0 < pageIndex <= PageCount() ==> r == pageIndex - 1
      ensures PageCount() > 0 && pageIndex <= 0 ==> r == FirstPageIndex
      ensures pageIndex > PageCount() ==> r == LastPageIndex()
      ensures PageCount() == 0 ==> r == -1
    {
      SafeIndex(pageIndex - 1)
    }

    /** `canFirstPage`: off only on the first page. It is on wherever going
        back is possible, and also on a negative index, where going back is
        not. */
    function CanFirstPage(): (r: bool)
      reads this
      requires Valid()
      ensures r <==> CanPrevPage() || pageIndex < 0
    {
      pageIndex != FirstPageIndex
    }

    /** `canLastPage`: off only on the last page. It is on wherever going
        forward is possible, and also on an index past the end, which the
        effect has not yet pulled back. */
    function CanLastPage(): (r: bool)
      reads this
      requires Valid()
      ensures r <==> CanNextPage() || !Settled()
    {
      pageIndex != LastPageIndex()
    }

    /** `canNextPage`: on exactly when going forward would raise the index;
        when off, going forward lands on the last page. */
    function CanNextPage(): (r: bool)
      reads this
      requires Valid()
      ensures r <==> pageIndex + 1 < PageCount()
      ensures r <==> NextPageIndex() > pageIndex
      ensures !r ==> NextPageIndex() == LastPageIndex()
    {
      pageIndex < LastPageIndex()
    }

    /** `canPrevPage`: for a non-empty list, on exactly when going back would
        lower the index. When on, going back moves exactly one page (from an
        index that is not past the end); when off, going back lands on the
        first page. */
    function CanPrevPage(): (r: bool)
      reads this
      requires Valid()
      ensures items != [] ==> (r <==> PrevPageIndex() < pageIndex)
      ensures r && pageIndex <= PageCount() ==> PrevPageIndex() == pageIndex - 1
      ensures !r && items != [] ==> PrevPageIndex() == FirstPageIndex
    {
      pageIndex > 0
    }

    /** The state the effect leaves alone: the index is not past the last
        page. */
    predicate Settled()
      reads this
      requires Valid()
    {
      pageIndex <= LastPageIndex()
    }

    /** The index names an existing page. */
    predicate InRange()
      reads this
      requires Valid()
    {
      0 <= pageIndex <= LastPageIndex()
    }

    /** The loop of the `pages` memo: when pagination is on, push page
        `index` for every index below the page count. */
    method ComputePages() returns (pages: seq<seq<T>>)
      requires Valid()
      ensures pages == Pages()
    {
      pages := [];
      if ShouldPaginate() {
        var count := PageCount();
        var index := 0;
        while index < count
          invariant 0 <= index <= count
          invariant |pages| == index
          invariant forall k :: 0 <= k < index ==> pages[k] == Paginate(items, pageSize, k)
        {
          pages := pages + [Paginate(items, pageSize, index)];
          index := index + 1;
        }
      }
    }

    /** The hook rendered again with a new list and threshold: the state
        survives the render untouched. */
    method Rerender(newItems: seq<T>, newThreshold: nat)
      requires Valid()
      modifies this
      ensures Valid()
      ensures items == newItems && threshold == newThreshold
      ensures pageSize == old(pageSize) && pageIndex == old(pageIndex)
    {
      items, threshold := newItems, newThreshold;
    }

    /** The effect: when the index is past the last page, pull it back to
        the last page; otherwise change nothing. */
    method Reconcile()
      requires Valid()
      modifies this
      ensures Valid() && Settled()
      ensures items == old(items) && threshold == old(threshold) && pageSize == old(pageSize)
      ensures old(pageIndex) > old(LastPageIndex()) ==> pageIndex == old(LastPageIndex())
      ensures old(Settled()) ==> pageIndex == old(pageIndex)
      ensures old(pageIndex) >= 0 && items != [] ==> InRange()
    {
      if pageIndex > LastPageIndex() {
        pageIndex := LastPageIndex();
      }
    }

    /** `resetPage`: back to the first page. */
    method ResetPage()
      requires Valid()
      modifies this
      ensures Valid()
      ensures items == old(items) && threshold == old(threshold) && pageSize == old(pageSize)
      ensures pageIndex == FirstPageIndex
      ensures items != [] ==> InRange()
    {
      pageIndex := FirstPageIndex;
    }

    /** `changePageSize`: a new size starts over at the first page; the
        current size changes nothing. */
    method ChangePageSize(size: nat)
      requires Valid()
      requires size > 0
      modifies this
      ensures Valid()
      ensures items == old(items) && threshold == old(threshold)
      ensures size == old(pageSize) ==> pageSize == old(pageSize) && pageIndex == old(pageIndex)
      ensures size != old(pageSize) ==> pageSize == size && pageIndex == FirstPageIndex
      ensures size != old(pageSize) && items != [] ==> InRange()
    {
      if size != pageSize {
        pageSize := size;
        ResetPage();
      }
    }

    /** `changePage`: the current index changes nothing; any other index
        is clamped onto an existing page. */
    method ChangePage(index: int)
      requires Valid()
      modifies this
      ensures Valid()
      ensures items == old(items) && threshold == old(threshold) && pageSize == old(pageSize)
      ensures index == old(pageIndex) ==> pageIndex == old(pageIndex)
      ensures index != old(pageIndex) ==> pageIndex == old(SafeIndex(index))
      ensures old(InRange()) || (index != old(pageIndex) && items != []) ==> InRange()
    {
      if index != pageIndex {
        pageIndex := SafeIndex(index);
      }
    }

    /** `firstPage`. */
    method FirstPage()
      requires Valid()
      modifies this
      ensures Valid()
      ensures items == old(items) && threshold == old(threshold) && pageSize == old(pageSize)
      ensures pageIndex == FirstPageIndex
      ensures items != [] ==> InRange()
    {
      pageIndex := FirstPageIndex;
    }

    /** `lastPage`. */
    method LastPage()
      requires Valid()
      modifies this
      ensures Valid()
      ensures items == old(items) && threshold == old(threshold) && pageSize == old(pageSize)
      ensures pageIndex == old(LastPageIndex())
      ensures Settled() && (items != [] ==> InRange())
    {
      pageIndex := LastPageIndex();
    }

    /** `nextPage`: one page on, staying put on the last page. */
    method NextPage()
      requires Valid()
      modifies this
      ensures Valid()
      ensures items == old(items) && threshold == old(threshold) && pageSize == old(pageSize)
      ensures pageIndex == old(NextPageIndex())
      ensures Settled() && (items != [] ==> InRange())
    {
      pageIndex := NextPageIndex();
    }

    /** `prevPage`: one page back, staying put on the first page. */
    method PrevPage()
      requires Valid()
      modifies this
      ensures Valid()
      ensures items == old(items) && threshold == old(threshold) && pageSize == old(pageSize)
      ensures pageIndex == old(PrevPageIndex())
      ensures Settled() && (items != [] ==> InRange())
    {
      pageIndex := PrevPageIndex();
    }
  }

  /** On an existing page, `canNextPage` and `canPrevPage` are on exactly
      when the matching navigation would move the index, and the jump flags
      agree with them: `canFirstPage` with `canPrevPage`, `canLastPage` with
      `canNextPage`. */
  lemma FlagsMatchNavigation<T>(p: Paginator<T>)
    requires p.Valid() && p.InRange()
    ensures p.CanNextPage() <==> p.NextPageIndex() != p.pageIndex
    ensures p.CanPrevPage() <==> p.PrevPageIndex() != p.pageIndex
    ensures p.CanFirstPage() <==> p.CanPrevPage()
    ensures p.CanLastPage() <==> p.CanNextPage()
  {
  }

  /** On an existing page with pagination on, the current page is a
      non-empty run of at most `pageSize` items starting at the page's
      offset in the list. */
  lemma CurrentPageIsSegment<T>(p: Paginator<T>)
    requires p.Valid() && p.InRange() && p.ShouldPaginate()
    ensures var offset := p.pageIndex * p.pageSize;
            && 0 <= offset < |p.items|
            && 0 < |p.Page()| <= p.pageSize
            && p.Page() == p.items[offset..Min(offset + p.pageSize, |p.items|)]
  {
    MulMonotone(0, p.pageIndex, p.pageSize);
    PageSizes(p.items, p.pageSize, p.pageIndex);
    PageContents(p.items, p.pageSize, p.pageIndex);
  }

  /** With an empty list there are no pages, every derived index is -1, the
      effect settles the index at -1, and there `canFirstPage` is on while
      the other three flags are off; the current page is empty. */
  lemma EmptyList<T>(p: Paginator<T>)
    requires p.Valid() && p.items == []
    ensures p.PageCount() == 0 && p.Pages() == [] && p.Page() == []
    ensures p.LastPageIndex() == -1 && p.NextPageIndex() == -1 && p.PrevPageIndex() == -1
    ensures p.Settled() <==> p.pageIndex <= -1
    ensures p.pageIndex == -1 ==> p.CanFirstPage() && !p.CanLastPage() && !p.CanNextPage() && !p.CanPrevPage()
  {
  }

  /** The threshold boundary is strict: a list exactly as long as the
      threshold is shown whole, and one more item turns pagination on. */
  lemma ThresholdIsStrict<T>(p: Paginator<T>)
    requires p.Valid()
    ensures |p.items| == p.threshold ==> !p.ShouldPaginate() && p.Page() == p.items && p.Pages() == []
    ensures |p.items| == p.threshold + 1 ==> p.ShouldPaginate() && 0 < |p.Pages()| == p.PageCount()
  {
  }
}
