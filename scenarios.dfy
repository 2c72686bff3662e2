/** The scenarios the library's own tests walk through, each replayed on
    the model. A scenario builds the hook's object, performs the test's
    actions followed by the effect (`Reconcile`, which React runs after
    every render) and returns what the test inspects; the postcondition is
    the test's expectation. */
module PaginationScenarios {
  import opened Pagination
  import opened UsePaginate

  /** The list 1, 2, ..., 50. */
  function Fifty(): seq<int>
  {
    seq(50, i => i + 1)
  }

  method DefaultOptions()
    returns (pageSize: nat, pageIndex: int, page: seq<int>, pageCount: nat,
             shouldPaginate: bool, canNextPage: bool, canPrevPage: bool)
    ensures pageSize == 25 && pageIndex == 0 && page == Fifty()[..25] && pageCount == 2
    ensures shouldPaginate && canNextPage && !canPrevPage
  {
    var p := new Paginator.WithDefaults(Fifty());
    p.Reconcile();
    PageContents(p.items, p.pageSize, 0);
    pageSize, pageIndex, page, pageCount := p.pageSize, p.pageIndex, p.Page(), p.PageCount();
    shouldPaginate, canNextPage, canPrevPage := p.ShouldPaginate(), p.CanNextPage(), p.CanPrevPage();
  }

  method CustomOptions() returns (pageSize: nat, pageIndex: int, page: seq<int>, pageCount: nat)
    ensures pageSize == 10 && pageIndex == 1 && page == Fifty()[10..20] && pageCount == 5
  {
    var p := new Paginator(Fifty(), 10, 1, DefaultThreshold);
    p.Reconcile();
    PageContents(p.items, p.pageSize, 1);
    pageSize, pageIndex, page, pageCount := p.pageSize, p.pageIndex, p.Page(), p.PageCount();
  }

  method ChangePageSizeResets() returns (pageSize: nat, pageIndex: int, page: seq<int>, pageCount: nat)
    ensures pageSize == 10 && pageIndex == 0 && page == Fifty()[..10] && pageCount == 5
  {
    var p := new Paginator.WithDefaults(Fifty());
    p.Reconcile();
    p.ChangePageSize(10);
    p.Reconcile();
    PageContents(p.items, p.pageSize, 0);
    pageSize, pageIndex, page, pageCount := p.pageSize, p.pageIndex, p.Page(), p.PageCount();
  }

  method NextPageOnce() returns (pageIndex: int, page: seq<int>, canNextPage: bool, canPrevPage: bool)
    ensures pageIndex == 1 && page == Fifty()[25..50] && !canNextPage && canPrevPage
  {
    var p := new Paginator.WithDefaults(Fifty());
    p.Reconcile();
    p.NextPage();
    p.Reconcile();
    PageContents(p.items, p.pageSize, 1);
    pageIndex, page, canNextPage, canPrevPage := p.pageIndex, p.Page(), p.CanNextPage(), p.CanPrevPage();
  }

  method NextPageStopsAtLast() returns (pageIndex: int, page: seq<int>)
    ensures pageIndex == 1 && page == Fifty()[25..50]
  {
    var p := new Paginator.WithDefaults(Fifty());
    p.Reconcile();
    p.NextPage();
    p.NextPage();
    p.Reconcile();
    PageContents(p.items, p.pageSize, 1);
    pageIndex, page := p.pageIndex, p.Page();
  }

  method PrevPageOnce() returns (pageIndex: int, page: seq<int>)
    ensures pageIndex == 0 && page == Fifty()[..25]
  {
    var p := new Paginator(Fifty(), DefaultPageSize, 1, DefaultThreshold);
    p.Reconcile();
    p.PrevPage();
    p.Reconcile();
    PageContents(p.items, p.pageSize, 0);
    pageIndex, page := p.pageIndex, p.Page();
  }

  method PrevPageStopsAtFirst() returns (pageIndex: int, page: seq<int>)
    ensures pageIndex == 0 && page == Fifty()[..25]
  {
    var p := new Paginator.WithDefaults(Fifty());
    p.Reconcile();
    p.PrevPage();
    p.Reconcile();
    PageContents(p.items, p.pageSize, 0);
    pageIndex, page := p.pageIndex, p.Page();
  }

  method ResetFromSecondPage() returns (pageIndex: int, page: seq<int>)
    ensures pageIndex == 0 && page == Fifty()[..25]
  {
    var p := new Paginator(Fifty(), DefaultPageSize, 1, DefaultThreshold);
    p.Reconcile();
    p.ResetPage();
    p.Reconcile();
    PageContents(p.items, p.pageSize, 0);
    pageIndex, page := p.pageIndex, p.Page();
  }

  method FirstFromSecondPage() returns (pageIndex: int, page: seq<int>)
    ensures pageIndex == 0 && page == Fifty()[..25]
  {
    var p := new Paginator(Fifty(), DefaultPageSize, 1, DefaultThreshold);
    p.Reconcile();
    p.FirstPage();
    p.Reconcile();
    PageContents(p.items, p.pageSize, 0);
    pageIndex, page := p.pageIndex, p.Page();
  }

  method LastFromFirstPage() returns (pageIndex: int, page: seq<int>)
    ensures pageIndex == 1 && page == Fifty()[25..50]
  {
    var p := new Paginator.WithDefaults(Fifty());
    p.Reconcile();
    p.LastPage();
    p.Reconcile();
    PageContents(p.items, p.pageSize, 1);
    pageIndex, page := p.pageIndex, p.Page();
  }

  method ThresholdDisablesPagination() returns (shouldPaginate: bool, page: seq<int>)
    ensures !shouldPaginate && page == Fifty()
  {
    var p := new Paginator(Fifty(), DefaultPageSize, DefaultPageIndex, 100);
    p.Reconcile();
    shouldPaginate, page := p.ShouldPaginate(), p.Page();
  }

  method SamePageSizeChangesNothing() returns (pageSize: nat, pageIndex: int, page: seq<int>)
    ensures pageSize == 25 && pageIndex == 0 && page == Fifty()[..25]
  {
    var p := new Paginator.WithDefaults(Fifty());
    p.Reconcile();
    p.ChangePageSize(25);
    p.Reconcile();
    PageContents(p.items, p.pageSize, 0);
    pageSize, pageIndex, page := p.pageSize, p.pageIndex, p.Page();
  }

  method SamePageChangesNothing() returns (pageIndex: int, page: seq<int>)
    ensures pageIndex == 0 && page == Fifty()[..25]
  {
    var p := new Paginator.WithDefaults(Fifty());
    p.Reconcile();
    p.ChangePage(0);
    p.Reconcile();
    PageContents(p.items, p.pageSize, 0);
    pageIndex, page := p.pageIndex, p.Page();
  }

  method ChangeToSecondPage() returns (pageIndex: int, page: seq<int>)
    ensures pageIndex == 1 && page == Fifty()[25..50]
  {
    var p := new Paginator.WithDefaults(Fifty());
    p.Reconcile();
    p.ChangePage(1);
    p.Reconcile();
    PageContents(p.items, p.pageSize, 1);
    pageIndex, page := p.pageIndex, p.Page();
  }

  method ChangePageClampsToLast() returns (pageIndex: int, page: seq<int>)
    ensures pageIndex == 1 && page == Fifty()[25..50]
  {
    var p := new Paginator.WithDefaults(Fifty());
    p.Reconcile();
    p.ChangePage(10);
    p.Reconcile();
    PageContents(p.items, p.pageSize, 1);
    pageIndex, page := p.pageIndex, p.Page();
  }

  /** Rendering again with a shorter list leaves the index past the new
      last page until the effect pulls it back to that page. */
  method ShorterListPullsIndexBack() returns (before: int, after: int, page: seq<int>)
    ensures before == 4 && after == 1 && page == Fifty()[10..15]
  {
    var p := new Paginator(Fifty(), 10, 4, DefaultThreshold);
    p.Reconcile();
    p.Rerender(Fifty()[..15], DefaultThreshold);
    before := p.pageIndex;
    p.Reconcile();
    PageContents(p.items, p.pageSize, 1);
    after, page := p.pageIndex, p.Page();
  }

  /** A negative initial index is never raised: the effect only lowers the
      index, so it stays negative and the current page is empty. */
  method NegativeInitialIndexSurvives() returns (pageIndex: int, page: seq<int>, canFirstPage: bool, canPrevPage: bool)
    ensures pageIndex == -3 && page == [] && canFirstPage && !canPrevPage
  {
    var p := new Paginator(Fifty(), DefaultPageSize, -3, DefaultThreshold);
    p.Reconcile();
    pageIndex, page, canFirstPage, canPrevPage := p.pageIndex, p.Page(), p.CanFirstPage(), p.CanPrevPage();
  }

  /** With an empty list the effect moves the default index 0 to -1, and
      `canFirstPage` is then on. */
  method EmptyListSettlesAtMinusOne() returns (pageIndex: int, pageCount: nat, page: seq<int>, canFirstPage: bool)
    ensures pageIndex == -1 && pageCount == 0 && page == [] && canFirstPage
  {
    var p := new Paginator<int>.WithDefaults([]);
    p.Reconcile();
    pageIndex, pageCount, page, canFirstPage := p.pageIndex, p.PageCount(), p.Page(), p.CanFirstPage();
  }

  /** A list that is empty on the first render and filled on the next one
      (a list still loading, say) keeps the index -1 the effect chose for
      the empty list: the effect never raises the index, so the page stays
      empty until a navigation handler runs. */
  method ListFilledAfterEmptyRender() returns (pageIndex: int, page: seq<int>, canNextPage: bool)
    ensures pageIndex == -1 && page == [] && canNextPage
  {
    var p := new Paginator<int>.WithDefaults([]);
    p.Reconcile();
    p.Rerender(Fifty(), DefaultThreshold);
    p.Reconcile();
    pageIndex, page, canNextPage := p.pageIndex, p.Page(), p.CanNextPage();
  }

  /** `paginate` on [1, 2, 3, 4, 5] with pages of two: [1, 2], [3, 4], [5],
      then nothing; all pages together are [[1, 2], [3, 4], [5]]. */
  lemma PaginateFiveItems()
    ensures Paginate([1, 2, 3, 4, 5], 2, 0) == [1, 2]
    ensures Paginate([1, 2, 3, 4, 5], 2, 1) == [3, 4]
    ensures Paginate([1, 2, 3, 4, 5], 2, 2) == [5]
    ensures Paginate([1, 2, 3, 4, 5], 2, 3) == []
    ensures AllPages([1, 2, 3, 4, 5], 2) == [[1, 2], [3, 4], [5]]
  {
    var items := [1, 2, 3, 4, 5];
    PageContents(items, 2, 0);
    PageContents(items, 2, 1);
    PageContents(items, 2, 2);
    PaginatePastEnd(items, 2, 3);
  }

  /** `getPageCount`: 5 items make 3 pages of two and 2 pages of three, no
      items make no pages, and 3 items fit on one page of ten. */
  lemma PageCountExamples()
    ensures GetPageCount([1, 2, 3, 4, 5], 2) == 3
    ensures GetPageCount([1, 2, 3, 4, 5], 3) == 2
    ensures GetPageCount<int>([], 2) == 0
    ensures GetPageCount([1, 2, 3], 10) == 1
  {
  }
}
