/** The client's list pagination, client/src/utils/pagination.js: the
    number of pages of a list and the items of one page, cut with
    JavaScript's `Array.prototype.slice`. */
module Pagination {

  /** The defaults of `paginate`'s parameters. */
  const DEFAULT_PAGE: int := 1
  const DEFAULT_PER_PAGE: int := 10

  function Min(a: int, b: int): int {
    if a < b then a else b
  }

  /** How `slice` reads one of its indices against a length: a negative
      index counts back from the end, and the result is clamped to
      `0..len`. */
  function SliceIndex(i: int, len: nat): (r: nat)
    ensures r <= len
  {
    if i < 0 then (if len + i < 0 then 0 else len + i)
    else if i < len then i else len
  }

  /** `s.slice(start, end)`: the elements from the read start up to the read
      end, or none when the end does not lie after the start. */
  function Slice<T>(s: seq<T>, start: int, end: int): (r: seq<T>)
    ensures |r| <= |s|
    ensures 0 <= start <= end ==> r == s[Min(start, |s|)..Min(end, |s|)]
  {
    var a, b := SliceIndex(start, |s|), SliceIndex(end, |s|);
    if a < b then s[a..b] else []
  }

  /** `Math.ceil(n / d)` for a positive divisor. */
  function CeilDiv(n: nat, d: int): (q: nat)
    requires d >= 1
    ensures (q - 1) * d < n <= q * d
    ensures q == 0 <==> n == 0
  {
    var q := (n + d - 1) / d;
    var rem := (n + d - 1) % d;
    assert q * d + rem == n + d - 1;
    assert (q - 1) * d == q * d - d;
    q
  }

  datatype Page<T> = Page(totalPages: nat, paginatedItems: seq<T>)

  /** `paginate(items, page, perPage)`. The page count is the least number of
      pages of `perPage` items that hold the list, so an empty list has no
      page; page `p` from 1 on holds the items from `(p - 1) * perPage` up to
      `p * perPage`, cut at the end of the list; every page has at most
      `perPage` items; a page past the last, and page 0, are empty. */
  function Paginate<T>(items: seq<T>, page: int, perPage: int): (r: Page<T>)
    requires perPage >= 1
    ensures (r.totalPages - 1) * perPage < |items| <= r.totalPages * perPage
    ensures r.totalPages == 0 <==> |items| == 0
    ensures |r.paginatedItems| <= perPage
    ensures page >= 1 ==>
      var start := (page - 1) * perPage;
      start >= 0 && r.paginatedItems == items[Min(start, |items|)..Min(start + perPage, |items|)]
    ensures page > r.totalPages || page == 0 ==> r.paginatedItems == []
  {
    var totalPages := CeilDiv(|items|, perPage);
    var startIndex := (page - 1) * perPage;
    PageSlice(items, page, perPage, totalPages);
    Page(totalPages, Slice(items, startIndex, startIndex + perPage))
  }

  /** The slice `paginate` takes for page `page`. */
  lemma PageSlice<T>(items: seq<T>, page: int, perPage: int, totalPages: nat)
    requires perPage >= 1 && |items| <= totalPages * perPage
    ensures var r := Slice(items, (page - 1) * perPage, (page - 1) * perPage + perPage);
      && |r| <= perPage
      && (page >= 1 ==> var start := (page - 1) * perPage;
           start >= 0 && r == items[Min(start, |items|)..Min(start + perPage, |items|)])
      && (page > totalPages || page == 0 ==> r == [])
  {
    var start := (page - 1) * perPage;
    PageBounds(page, perPage, totalPages);
    SliceAtMost(items, start, perPage);
    if page > totalPages {
      assert start >= |items|;
    }
  }

  /** A slice `d` long at most has at most `d` elements. */
  lemma SliceAtMost<T>(s: seq<T>, start: int, d: int)
    requires d >= 0
    ensures |Slice(s, start, start + d)| <= d
  {
  }

  /** Where page `page` starts and ends, for `totalPages` pages: page `p`
      from 1 on ends where page `p + 1` starts, at `p * perPage`. */
  lemma PageBounds(page: int, perPage: int, totalPages: nat)
    requires perPage >= 1
    ensures page >= 1 ==> (page - 1) * perPage >= 0 && (page - 1) * perPage + perPage == page * perPage
    ensures page > totalPages ==> (page - 1) * perPage >= totalPages * perPage
    ensures page == 0 ==> (page - 1) * perPage + perPage == 0
  {
    if page >= 1 {
      assert (page - 1) * perPage + perPage == page * perPage;
    }
    if page > totalPages {
      MulMonotone(totalPages, page - 1, perPage);
    }
  }

  lemma MulMonotone(a: int, b: int, d: int)
    requires a <= b && d >= 0
    ensures a * d <= b * d
  {
    assert b * d == a * d + (b - a) * d;
  }

  /** A page holds items of the list only. */
  lemma PageItemsInList<T>(items: seq<T>, page: int, perPage: int)
    requires perPage >= 1
    ensures forall x :: x in Paginate(items, page, perPage).paginatedItems ==> x in items
  {
    var start := (page - 1) * perPage;
    var a, b := SliceIndex(start, |items|), SliceIndex(start + perPage, |items|);
    if a < b {
      assert forall x :: x in items[a..b] ==> x in items;
    }
  }

  /** `paginate(items)` with its defaults: the first ten items. */
  function PaginateDefault<T>(items: seq<T>): (r: Page<T>)
    ensures r.paginatedItems == items[..Min(10, |items|)]
  {
    Paginate(items, DEFAULT_PAGE, DEFAULT_PER_PAGE)
  }

  /** Pages 1 to `n`, one after the other. */
  function Pages<T>(items: seq<T>, perPage: int, n: nat): seq<T>
    requires perPage >= 1
  {
    if n == 0 then [] else Pages(items, perPage, n - 1) + Paginate(items, n, perPage).paginatedItems
  }

  /** The first `n` pages are the list's first `n * perPage` items. */
  lemma {:induction false} PagesArePrefix<T>(items: seq<T>, perPage: int, n: nat)
    requires perPage >= 1
    ensures Pages(items, perPage, n) == items[..Min(n * perPage, |items|)]
  {
    if n > 0 {
      PagesArePrefix(items, perPage, n - 1);
      PageBounds(n, perPage, 0);
      var start, end := (n - 1) * perPage, n * perPage;
      ConcatSlices(items, start, end);
    }
  }

  /** A prefix followed by the slice after it is the longer prefix. */
  lemma ConcatSlices<T>(items: seq<T>, a: int, b: int)
    requires 0 <= a <= b
    ensures items[..Min(a, |items|)] + items[Min(a, |items|)..Min(b, |items|)] == items[..Min(b, |items|)]
  {
  }

  /** Every page from the first to the last, in order, is the whole list:
      pagination loses, repeats and reorders nothing. */
  lemma PagesReassemble<T>(items: seq<T>, perPage: int)
    requires perPage >= 1
    ensures Pages(items, perPage, Paginate(items, 1, perPage).totalPages) == items
  {
    var n := Paginate(items, 1, perPage).totalPages;
    PagesArePrefix(items, perPage, n);
  }
}
