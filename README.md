# react-paginate, modelled in Dafny

This project models the client-side pagination logic of the
`react-paginate` library. It has three parts:

- `paginate(items, pageSize, pageIndex)`, which cuts one page out of an
  in-memory list with JavaScript's `Array.prototype.slice`;
- `getPageCount(items, pageSize)`, a ceiling division;
- the `usePaginate` hook, a small state machine. It holds a page size and
  a current page index, derives the current page and its navigation
  indices and capability flags, and offers seven navigation handlers. An
  effect pulls the index back whenever it is past the last page.

Files:

- `pagination.dfy` (module `Pagination`) holds the two standalone
  functions. `JsSlice` gives the `slice` semantics they rest on: negative
  bounds count from the end, and both bounds are clamped to the list. The
  file also proves the laws for these functions:
  - the page count is the ceiling of `|items| / pageSize`, and the least
    number of pages that covers the list;
  - every page is non-empty, and every page but the last is full;
  - pages at or past the page count are empty;
  - concatenating all pages gives back the list.
- `paginator.dfy` (module `UsePaginate`) holds the hook as class
  `Paginator<T>`:
  - its fields are the hook's state (`pageSize`, `pageIndex`) and its
    arguments (`items`, `threshold`);
  - every derived value the hook returns is a function of those fields;
  - every handler is a method, and `Reconcile` is the effect;
  - `ComputePages` is the loop that builds `pages`, proved equal to the
    `Pages` function;
  - `Rerender` models calling the hook again with a new list or threshold.
    The state survives the new render.
- `scenarios.dfy` (module `PaginationScenarios`) replays the library's test
  scenarios on the model. Each scenario runs the test's actions, then the
  effect, and its postcondition is the test's expectation. A few extra
  scenarios show the edge cases below.

At the edges the code behaves as follows; the model follows the code:

- `lastPageIndex` is `safeIndex(pageCount - 1)`, which is always
  `pageCount - 1`. For an empty list it is -1, not 0. The effect then
  moves the index to -1, and in that state `canFirstPage` is true
  (`UsePaginate.EmptyList`, `PaginationScenarios.EmptyListSettlesAtMinusOne`).
- The index can therefore be negative after reconciliation, and an
  initial negative index is never raised, because the effect only lowers
  the index (`PaginationScenarios.NegativeInitialIndexSurvives`). So the
  range invariant `0 <= pageIndex <= lastPageIndex` holds only for a
  non-empty list and a non-negative index. The method contracts state it
  under exactly those conditions.
- A list that is empty on the first render and filled on a later one
  keeps the index at -1. The page stays empty, and `canNextPage` is on,
  until a navigation handler runs
  (`PaginationScenarios.ListFilledAfterEmptyRender`).
- `changePage(index)` with `index == pageIndex` does nothing, even when
  that index is out of range.
- The option comment at src/index.ts:22 calls the threshold the minimum
  number of items that turns pagination on, but the test is the strict
  `items.length > threshold`, so the minimum is `threshold + 1`. The model follows
  the code (`UsePaginate.ThresholdIsStrict`).

## Model

| member | source | states |
|---|---|---|
| `Pagination.JsSlice` | src/index.ts:150 | `slice(start, end)` yields `max(end' - start', 0)` items, where negative bounds count from the end and both bounds are clamped to `[0, n]`; item `j` is `items[start' + j]` |
| `Pagination.Paginate` | src/index.ts:145-151 | for a non-negative index, the page has `min(pageSize, max(n - pageIndex * pageSize, 0))` items |
| `Pagination.PageContents` | src/index.ts:150 | for a non-negative index, the page is `items[min(i*s, n) .. min(i*s + s, n)]`, the slice clamped to the list |
| `Pagination.PaginatePastEnd` | src/index.ts:145-151 | an index at or past `getPageCount` gives an empty page |
| `Pagination.PaginateNegativeIndex` | src/index.ts:150 | index -1 gives an empty page; a lower negative index gives the window counted back from the end of the list, as `slice` does |
| `Pagination.CeilingDivision` | src/index.ts:162 | `(n + s - 1) / s` satisfies both inequalities that define `ceil(n / s)` |
| `Pagination.GetPageCount` | src/index.ts:161-163 | for a list of length `n`, `n <= r * pageSize`, and `(r - 1) * pageSize < n` when `r > 0` (so `r` is the ceiling of `n / pageSize`); `r == 0` exactly when the list is empty |
| `Pagination.PageCountIsLeast` | src/index.ts:162 | any `c` with `n <= c * pageSize` is at least the page count, so the page count is the fewest pages that hold the list |
| `Pagination.PageSizes` | src/index.ts:47-53 | each of the `pageCount` pages is non-empty; all but the last hold exactly `pageSize` items, and the last holds `n - (pageCount - 1) * pageSize` |
| `Pagination.FlattenPrefix` | src/index.ts:47-53 | the first `m` pages, concatenated, are the first `min(m * pageSize, n)` items |
| `Pagination.PagesRoundTrip` | src/index.ts:46-56 | concatenating all pages in order gives back `items` exactly |
| `UsePaginate.Paginator.constructor` | src/index.ts:37-41 | the first render seeds `pageSize` and `pageIndex` from the options, unclamped, and keeps `items` and `threshold` |
| `UsePaginate.Paginator.WithDefaults` | src/index.ts:38 | the default options are page size 25, page index 0 and threshold 0 |
| `UsePaginate.Paginator.PageCount` | src/index.ts:43 | the hook has no pages exactly when its list is empty |
| `UsePaginate.Paginator.ShouldPaginate` | src/index.ts:44 | pagination is on exactly when the list holds at least `threshold + 1` items (the documented minimum, reached through the strict `>`), so never for an empty list |
| `UsePaginate.Paginator.Pages` | src/index.ts:46-56 | when the list is longer than `threshold`, `pages` has `pageCount` entries, entry `k` is `paginate(items, pageSize, k)`, and together they give back `items`; otherwise `pages` is empty |
| `UsePaginate.Paginator.ComputePages` | src/index.ts:46-56 | the loop that pushes `paginate(items, pageSize, index)` for every index below `pageCount` builds exactly `Pages()` |
| `UsePaginate.Paginator.Page` | src/index.ts:58 | `page` is the whole list when pagination is off; otherwise it is `paginate(items, pageSize, pageIndex)` for an existing page and empty for any other index |
| `UsePaginate.Paginator.SafeIndex` | src/index.ts:74-76 | the index is clamped into `[0, pageCount - 1]`: indices in range are kept, lower ones become 0 and higher ones `pageCount - 1`; with no pages every index becomes -1 |
| `UsePaginate.Paginator.LastPageIndex` | src/index.ts:60 | `lastPageIndex` is `pageCount - 1`, and it is negative exactly when the list is empty |
| `UsePaginate.Paginator.NextPageIndex` | src/index.ts:61 | one more than an index in `[0, lastPageIndex)`; the last page at or past the end (no wrap-around); 0 from a negative index; -1 when there are no pages; within `[0, lastPageIndex]` when pages exist |
| `UsePaginate.Paginator.PrevPageIndex` | src/index.ts:62 | one less than a positive index up to `pageCount`; 0 at or below the first page (no wrap-around); the last page from an index beyond `pageCount`; -1 when there are no pages; within `[0, lastPageIndex]` when pages exist |
| `UsePaginate.Paginator.CanFirstPage` | src/index.ts:63 | `canFirstPage` holds exactly where `canPrevPage` does or the index is negative: it differs from `canPrevPage` only on a negative index |
| `UsePaginate.Paginator.CanLastPage` | src/index.ts:64 | `canLastPage` holds exactly where `canNextPage` does or the index is past the last page (not yet pulled back by the effect): it differs from `canNextPage` only past the end |
| `UsePaginate.Paginator.CanNextPage` | src/index.ts:65 | `canNextPage` holds exactly when `pageIndex + 1 < pageCount`, which is exactly when `nextPageIndex` is above the index; when it is off, `nextPageIndex` is the last page |
| `UsePaginate.Paginator.CanPrevPage` | src/index.ts:66 | for a non-empty list, `canPrevPage` holds exactly when `prevPageIndex` is below the index; when it is on and the index is at most `pageCount`, `prevPageIndex` is one less than the index; when it is off and the list is non-empty, `prevPageIndex` is the first page |
| `UsePaginate.Paginator.Rerender` | src/index.ts:37-44 | a new render replaces the list and threshold and keeps `pageSize` and `pageIndex` |
| `UsePaginate.Paginator.Reconcile` | src/index.ts:68-72 | an index past `lastPageIndex` becomes `lastPageIndex`; a settled state is unchanged (so a second run does nothing); afterwards the index is at most `lastPageIndex`, and in range when the list is non-empty and the index was non-negative; nothing else changes |
| `UsePaginate.Paginator.ResetPage` | src/index.ts:107-109 | the index becomes 0; nothing else changes |
| `UsePaginate.Paginator.ChangePageSize` | src/index.ts:78-83 | the current size changes nothing; any other size is stored and the index reset to 0; `items` and `threshold` are unchanged |
| `UsePaginate.Paginator.ChangePage` | src/index.ts:85-89 | the current index changes nothing; any other index becomes `safeIndex(index)`, so an out-of-range request lands on the last or first page (-1 when the list is empty); an in-range state stays in range |
| `UsePaginate.Paginator.FirstPage` | src/index.ts:91-93 | the index becomes 0; nothing else changes |
| `UsePaginate.Paginator.LastPage` | src/index.ts:95-97 | the index becomes `lastPageIndex`; nothing else changes |
| `UsePaginate.Paginator.NextPage` | src/index.ts:99-101 | the index becomes `nextPageIndex`, which saturates at the last page; nothing else changes |
| `UsePaginate.Paginator.PrevPage` | src/index.ts:103-105 | the index becomes `prevPageIndex`, which saturates at the first page; nothing else changes |
| `UsePaginate.FlagsMatchNavigation` | src/index.ts:59-66 | on an existing page, `canNextPage` and `canPrevPage` hold exactly when the matching navigation would move the index, `canFirstPage` agrees with `canPrevPage` and `canLastPage` with `canNextPage` |
| `UsePaginate.CurrentPageIsSegment` | src/index.ts:58 | on an existing page with pagination on, `page` is a non-empty run of at most `pageSize` items starting at `pageIndex * pageSize` |
| `UsePaginate.EmptyList` | src/index.ts:59-76 | with an empty list: no pages, an empty `page`, and last, next and previous indices all -1; the settled index is at most -1; at -1 only `canFirstPage` is on |
| `UsePaginate.ThresholdIsStrict` | src/index.ts:44 | a list exactly as long as the threshold is not paginated (`page` is the whole list and `pages` is empty), while one more item turns pagination on with at least one page |
| `PaginationScenarios.DefaultOptions` | src/index.test.ts:8-18 | defaults on 50 items: size 25, index 0, page `items[0..25]`, 2 pages, paginated, can go next, cannot go back |
| `PaginationScenarios.CustomOptions` | src/index.test.ts:20-29 | size 10 and index 1: page `items[10..20]`, 5 pages |
| `PaginationScenarios.ChangePageSizeResets` | src/index.test.ts:31-42 | changing the size to 10 gives index 0, page `items[0..10]`, 5 pages |
| `PaginationScenarios.NextPageOnce` | src/index.test.ts:44-55 | one step forward gives index 1, page `items[25..50]`, cannot go next, can go back |
| `PaginationScenarios.NextPageStopsAtLast` | src/index.test.ts:57-67 | two steps forward stop at index 1 |
| `PaginationScenarios.PrevPageOnce` | src/index.test.ts:69-80 | one step back from index 1 gives index 0 |
| `PaginationScenarios.PrevPageStopsAtFirst` | src/index.test.ts:82-91 | a step back from index 0 stays at 0 |
| `PaginationScenarios.ResetFromSecondPage` | src/index.test.ts:93-104 | reset from index 1 gives index 0 |
| `PaginationScenarios.FirstFromSecondPage` | src/index.test.ts:106-117 | first page from index 1 gives index 0 |
| `PaginationScenarios.LastFromFirstPage` | src/index.test.ts:119-128 | last page from index 0 gives index 1, page `items[25..50]` |
| `PaginationScenarios.ThresholdDisablesPagination` | src/index.test.ts:130-135 | threshold 100 on 50 items: not paginated, page is all 50 items |
| `PaginationScenarios.SamePageSizeChangesNothing` | src/index.test.ts:137-147 | changing to the current size 25 keeps index 0 and page `items[0..25]` |
| `PaginationScenarios.SamePageChangesNothing` | src/index.test.ts:149-158 | changing to the current index 0 keeps page `items[0..25]` |
| `PaginationScenarios.ChangeToSecondPage` | src/index.test.ts:160-169 | changing to index 1 gives page `items[25..50]` |
| `PaginationScenarios.ChangePageClampsToLast` | src/index.test.ts:171-180 | changing to index 10 with 2 pages lands on index 1 |
| `PaginationScenarios.ShorterListPullsIndexBack` | src/index.ts:68-72 | a render with 15 items leaves index 4 until the effect pulls it back to the last page, 1, whose page is `items[10..15]` |
| `PaginationScenarios.NegativeInitialIndexSurvives` | src/index.ts:41 | an initial index of -3 survives the effect; the page is empty, `canFirstPage` is on and `canPrevPage` is off |
| `PaginationScenarios.EmptyListSettlesAtMinusOne` | src/index.ts:68-72 | with no items, the effect moves index 0 to -1; there are 0 pages, the page is empty, and `canFirstPage` is on |
| `PaginationScenarios.ListFilledAfterEmptyRender` | src/index.ts:68-72 | an empty first render settles the index at -1; after a render with 50 items the effect leaves it there, so the page is empty and `canNextPage` is on |
| `PaginationScenarios.PaginateFiveItems` | src/index.test.ts:183-194 | `[1,2,3,4,5]` in pages of two gives `[1,2]`, `[3,4]`, `[5]`, then `[]`; all pages together are `[[1,2],[3,4],[5]]` |
| `PaginationScenarios.PageCountExamples` | src/index.test.ts:197-211 | 5 items make 3 pages of 2 and 2 pages of 3; no items make 0 pages; 3 items make 1 page of 10 |

## Left out

- React machinery is not modelled: `useState`, the `useMemo` cache of
  `pages`, `useEffect` scheduling and the `"use client"` directive. Each
  handler takes effect at once on the object's current state. The effect
  is the explicit `Reconcile`, which callers run after the handlers, as
  React runs it after a render.
- Handlers called within one render are not modelled. In React they all
  read that render's snapshot, so two `nextPage()` calls in one `act` move
  only one page from the first page of five. In the model each call sees
  the previous call's result. The library's test of this case ends on the
  last of two pages, where both readings agree.
- JavaScript numbers are doubles. The model uses unbounded integers, and
  `Math.ceil(n / s)` is an exact ceiling division. Rounding for lists
  longer than 2^53, non-integer sizes and indices, and NaN/Infinity are
  not modelled.
- `Pagination.GetPageCount`: requires a positive page size. The source
  divides by whatever it is given: a zero size gives `Math.ceil(n / 0)`,
  which is Infinity for a non-empty list and NaN for an empty one, and a
  negative size gives a count of zero or below.
- `UsePaginate.Paginator.ChangePageSize`: requires a positive size. With
  size 0 and a non-empty list longer than the threshold the page count is
  Infinity, so the loop that builds `pages` (src/index.ts:50) never ends;
  the hook hangs, and that hang is the case the precondition excludes.
  Page sizes are `nat`, so a negative size cannot even be written.
- `UsePaginate.Paginator.constructor`: requires a positive initial page
  size, for the same reason as `ChangePageSize`. The threshold is a
  `nat`, so negative thresholds are not modelled. A negative threshold
  would turn pagination on for every list, the empty one included
  (`0 > -1`); the empty list then has no pages and its `page` is `[]`,
  which is the list itself.
- `Pagination.Paginate`: its page size is a `nat`, so a negative size is
  not modelled. A zero size, which `slice` handles, gives empty pages.
- The `UsePaginateOptions` defaulting syntax is modelled only through the
  two constructors. Option changes after the first render are ignored by
  the hook, except the threshold, which `Rerender` takes.
