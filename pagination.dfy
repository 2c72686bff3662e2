/** The two standalone functions of the library, `paginate` and
    `getPageCount`, together with the JavaScript `Array.prototype.slice`
    semantics that `paginate` is built on, and the laws relating them:
    the page count is a ceiling division, every page but the last is full,
    pages past the end are empty, and the pages put back together give the
    list again. */
module Pagination {

  function Min(a: int, b: int): int { if a < b then a else b }

  function Max(a: int, b: int): int { if a < b then b else a }

  /** Where a relative index passed to `slice` lands in a list of length
      `n`: a negative index counts back from the end, and either kind is
      clamped to `[0, n]`. */
  function SliceIndex(k: int, n: nat): (r: nat)
    ensures r <= n
  {
    if k < 0 then Max(n + k, 0) else Min(k, n)
  }

  /** `items.slice(start, end)`: the elements from the normalised start up
      to, not including, the normalised end; nothing when the two cross. */
  function JsSlice<T>(items: seq<T>, start: int, end: int): (r: seq<T>)
    ensures |r| == Max(SliceIndex(end, |items|) - SliceIndex(start, |items|), 0)
    ensures forall j :: 0 <= j < |r| ==> r[j] == items[SliceIndex(start, |items|) + j]
  {
    var from, to := SliceIndex(start, |items|), SliceIndex(end, |items|);
    if from < to then items[from..to] else []
  }

  /** `paginate(items, pageSize, pageIndex)`: the slice from
      `pageIndex * pageSize` to `(pageIndex + 1) * pageSize` (written below
      as the offset plus `pageSize`). For a non-negative index this is the
      window of at most `pageSize` items that starts at the page's offset,
      cut off at the end of the list. */
  function Paginate<T>(items: seq<T>, pageSize: nat, pageIndex: int): (r: seq<T>)
    ensures 0 <= pageIndex ==> |r| == Min(pageSize, Max(|items| - pageIndex * pageSize, 0))
  {
    var offset := pageIndex * pageSize;
    JsSlice(items, offset, offset + pageSize)
  }

  /** For a non-negative page index, the page is exactly the items from the
      page's offset `pageIndex * pageSize` up to `pageSize` further on, cut
      off at the end of the list (the clamped slice). */
  lemma PageContents<T>(items: seq<T>, pageSize: nat, pageIndex: nat)
    ensures var n, offset := |items|, pageIndex * pageSize;
            && Min(offset, n) <= Min(offset + pageSize, n)
            && Paginate(items, pageSize, pageIndex) == items[Min(offset, n)..Min(offset + pageSize, n)]
  {
  }

  /** Ceiling division on naturals, with the two inequalities that
      characterise the ceiling. */
  lemma CeilingDivision(n: nat, s: nat)
    requires s > 0
    ensures n <= ((n + s - 1) / s) * s
    ensures (n + s - 1) / s == 0 || ((n + s - 1) / s - 1) * s < n
  {
    var q, m := (n + s - 1) / s, (n + s - 1) % s;
    assert q * s + m == n + s - 1;
    assert (q - 1) * s == q * s - s;
  }

  /** `getPageCount(items, pageSize)`: `ceil(|items| / pageSize)`, the
      fewest pages of `pageSize` items that hold the whole list. */
  function GetPageCount<T>(items: seq<T>, pageSize: nat): (r: nat)
    requires pageSize > 0
    ensures |items| <= r * pageSize
    ensures r == 0 || (r - 1) * pageSize < |items|
    ensures r == 0 <==> |items| == 0
  {
    CeilingDivision(|items|, pageSize);
    (|items| + pageSize - 1) / pageSize
  }

  lemma MulMonotone(a: int, b: int, s: nat)
    requires a <= b
    ensures a * s <= b * s
  {
  }

  /** No smaller number of pages covers the list: the page count is the
      least `c` with `|items| <= c * pageSize`. */
  lemma PageCountIsLeast<T>(items: seq<T>, pageSize: nat, c: nat)
    requires pageSize > 0
    requires |items| <= c * pageSize
    ensures GetPageCount(items, pageSize) <= c
  {
    var r := GetPageCount(items, pageSize);
    if c < r {
      MulMonotone(c, r - 1, pageSize);
    }
  }

  /** A page index at or past the page count selects no items. */
  lemma PaginatePastEnd<T>(items: seq<T>, pageSize: nat, pageIndex: int)
    requires pageSize > 0
    requires GetPageCount(items, pageSize) <= pageIndex
    ensures Paginate(items, pageSize, pageIndex) == []
  {
    MulMonotone(GetPageCount(items, pageSize), pageIndex, pageSize);
  }

  /** A negative page index is not an error: like `slice`, it counts back
      from the end of the list, so index -1 is always empty and index -k
      (k > 1) is the window of `pageSize` items ending `(k - 1) * pageSize`
      items before the end. */
  lemma PaginateNegativeIndex<T>(items: seq<T>, pageSize: nat, pageIndex: int)
    requires pageSize > 0
    requires pageIndex < 0
    ensures pageIndex == -1 ==> Paginate(items, pageSize, pageIndex) == []
    ensures pageIndex < -1 ==>
              var offset := pageIndex * pageSize;
              && Max(|items| + offset, 0) <= Max(|items| + offset + pageSize, 0)
              && Paginate(items, pageSize, pageIndex) == items[Max(|items| + offset, 0)..Max(|items| + offset + pageSize, 0)]
  {
    var offset := pageIndex * pageSize;
    if pageIndex == -1 {
      assert offset + pageSize == 0;
    } else {
      MulMonotone(pageIndex + 1, -1, pageSize);
      assert offset + pageSize == (pageIndex + 1) * pageSize;
      SliceFromEnd(items, offset, offset + pageSize);
    }
  }

  /** Slicing between two negative offsets takes the items between the
      corresponding distances from the end. */
  lemma SliceFromEnd<T>(items: seq<T>, start: int, end: int)
    requires start <= end < 0
    ensures Max(|items| + start, 0) <= Max(|items| + end, 0)
    ensures JsSlice(items, start, end) == items[Max(|items| + start, 0)..Max(|items| + end, 0)]
  {
  }

  /** The list cut into all of its pages, page `k` being
      `Paginate(items, pageSize, k)`. */
  function AllPages<T>(items: seq<T>, pageSize: nat): seq<seq<T>>
    requires pageSize > 0
  {
    seq(GetPageCount(items, pageSize), k => Paginate(items, pageSize, k))
  }

  /** The pages written one after the other. */
  function Flatten<T>(pages: seq<seq<T>>): seq<T>
  {
    if pages == [] then [] else Flatten(pages[..|pages| - 1]) + pages[|pages| - 1]
  }

  /** Every page is non-empty; every page but the last holds exactly
      `pageSize` items and the last holds what remains. */
  lemma PageSizes<T>(items: seq<T>, pageSize: nat, k: nat)
    requires pageSize > 0
    requires k < GetPageCount(items, pageSize)
    ensures var count := GetPageCount(items, pageSize);
            && 0 < |AllPages(items, pageSize)[k]| <= pageSize
            && (k < count - 1 ==> |AllPages(items, pageSize)[k]| == pageSize)
            && (k == count - 1 ==> |AllPages(items, pageSize)[k]| == |items| - (count - 1) * pageSize)
  {
    var count, n := GetPageCount(items, pageSize), |items|;
    var offset, last := k * pageSize, (count - 1) * pageSize;
    MulMonotone(k, count - 1, pageSize);
    assert offset <= last < n;
    assert |AllPages(items, pageSize)[k]| == Min(pageSize, n - offset);
    if k < count - 1 {
      MulMonotone(k + 1, count - 1, pageSize);
      MulSucc(k, pageSize);
      assert offset + pageSize <= last;
    }
  }

  lemma MulSucc(k: int, s: int)
    ensures (k + 1) * s == k * s + s
  {
  }

  /** The first `m` pages put together are the first `m * pageSize` items
      (or the whole list, once that runs out). */
  lemma {:induction false} FlattenPrefix<T>(items: seq<T>, pageSize: nat, m: nat)
    requires pageSize > 0
    requires m <= GetPageCount(items, pageSize)
    ensures Min(m * pageSize, |items|) <= |items|
    ensures Flatten(AllPages(items, pageSize)[..m]) == items[..Min(m * pageSize, |items|)]
  {
    var pages := AllPages(items, pageSize);
    if m == 0 {
      assert pages[..0] == [];
    } else {
      FlattenPrefix(items, pageSize, m - 1);
      var a, b := LastPageOfPrefix(items, pageSize, m);
      FlattenPrefixStep(pages, m);
      assert items[..b] == items[..a] + items[a..b];
    }
  }

  /** Flattening one more page appends that page. */
  lemma FlattenPrefixStep<T>(pages: seq<seq<T>>, m: nat)
    requires 0 < m <= |pages|
    ensures Flatten(pages[..m]) == Flatten(pages[..m - 1]) + pages[m - 1]
  {
    assert pages[..m][..m - 1] == pages[..m - 1];
  }

  /** Where page `m - 1` sits in the list, for a page that exists. */
  lemma LastPageOfPrefix<T>(items: seq<T>, pageSize: nat, m: nat) returns (a: nat, b: nat)
    requires pageSize > 0
    requires 0 < m <= GetPageCount(items, pageSize)
    ensures a == Min((m - 1) * pageSize, |items|) && b == Min(m * pageSize, |items|)
    ensures a <= b <= |items|
    ensures AllPages(items, pageSize)[m - 1] == items[a..b]
  {
    MulMonotone(m - 1, GetPageCount(items, pageSize) - 1, pageSize);
    a := (m - 1) * pageSize;
    MulSucc(m - 1, pageSize);
    b := Min(m * pageSize, |items|);
    PageContents(items, pageSize, m - 1);
  }

  /** Round trip: concatenating all pages in order gives back the list. */
  lemma PagesRoundTrip<T>(items: seq<T>, pageSize: nat)
    requires pageSize > 0
    ensures Flatten(AllPages(items, pageSize)) == items
  {
    var count := GetPageCount(items, pageSize);
    FlattenPrefix(items, pageSize, count);
    assert AllPages(items, pageSize)[..count] == AllPages(items, pageSize);
    assert items[..|items|] == items;
  }
}
