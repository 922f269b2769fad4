/**
  Table pagination (js/pagination.js): slicing the data of one page, the controls that
  `createPaginationHTML` emits, and the per-container state kept in `window.paginationState`.

  The controls are modelled as the sequence of widgets the HTML string is built from, in
  the order they are appended; markup, translations and the rendering callback's effect
  on the page are left out.
*/
module Pagination {
  import opened Wrappers

  const MaxVisiblePages: int := 5
  const DefaultItemsPerPage: nat := 10

  function Min(a: int, b: int): int { if a < b then a else b }
  function Max(a: int, b: int): int { if a < b then b else a }

  /** `Math.ceil(n / d)` for a non-negative length and a positive page size. */
  function CeilDiv(n: nat, d: nat): nat
    requires d > 0
  {
    (n + d - 1) / d
  }

  /** The page count is the least number of pages of size `d` that hold `n` items. */
  lemma CeilDivBounds(n: nat, d: nat)
    requires d > 0
    ensures (CeilDiv(n, d) - 1) * d < n <= CeilDiv(n, d) * d
  {
    var q, r := (n + d - 1) / d, (n + d - 1) % d;
    assert n + d - 1 == q * d + r && 0 <= r < d;
    assert (q - 1) * d == q * d - d;
  }

  /** How `Array.prototype.slice` reads an index: negative counts from the end, then clamped. */
  function SliceIndex(i: int, len: nat): (r: nat)
    ensures r <= len
    ensures 0 <= i <= len ==> r == i
  {
    if i < 0 then Max(len + i, 0) else Min(i, len)
  }

  /** `s.slice(start, end)`. */
  function Slice<T>(s: seq<T>, start: int, end: int): seq<T>
  {
    var a, b := SliceIndex(start, |s|), SliceIndex(end, |s|);
    if a < b then s[a..b] else []
  }

  /** What `getPaginatedData` returns. */
  datatype Page<T> = Page(paginatedData: seq<T>, totalPages: nat, currentPage: int,
                          totalItems: nat, itemsPerPage: nat)

  /** `getPaginatedData(data, currentPage, itemsPerPage)`. */
  function GetPaginatedData<T>(data: seq<T>, currentPage: int, itemsPerPage: nat): (p: Page<T>)
    requires itemsPerPage > 0
    ensures p.totalItems == |data| && p.itemsPerPage == itemsPerPage
    ensures p.totalPages == 0 <==> data == []
    ensures p.currentPage == Min(currentPage, if p.totalPages == 0 then 1 else p.totalPages)
  {
    var totalPages := CeilDiv(|data|, itemsPerPage);
    Page(PageItems(data, currentPage, itemsPerPage), totalPages,
         Min(currentPage, if totalPages == 0 then 1 else totalPages), |data|, itemsPerPage)
  }

  /** The `paginatedData` of `getPaginatedData`: `itemsPerPage` items from `(currentPage - 1) * itemsPerPage`. */
  function PageItems<T>(data: seq<T>, currentPage: int, itemsPerPage: nat): seq<T>
  {
    var startIndex := (currentPage - 1) * itemsPerPage;
    var endIndex := startIndex + itemsPerPage;
    Slice(data, startIndex, endIndex)
  }

  /** `totalPages` is `ceil(|data| / itemsPerPage)`: just enough pages to hold every item. */
  lemma TotalPagesIsCeiling<T>(data: seq<T>, currentPage: int, itemsPerPage: nat)
    requires itemsPerPage > 0
    ensures var n := GetPaginatedData(data, currentPage, itemsPerPage).totalPages;
            (n - 1) * itemsPerPage < |data| <= n * itemsPerPage
  {
    CeilDivBounds(|data|, itemsPerPage);
  }

  /** A page never holds more than `itemsPerPage` items, whatever page is asked for. */
  lemma PageSizeBounded<T>(data: seq<T>, currentPage: int, itemsPerPage: nat)
    requires itemsPerPage > 0
    ensures |GetPaginatedData(data, currentPage, itemsPerPage).paginatedData| <= itemsPerPage
  {
  }

  /** Multiplying by a non-negative page size keeps the order of page numbers. */
  lemma {:induction false} MulMonotone(a: int, b: int, d: nat)
    requires a <= b
    ensures a * d <= b * d
    decreases d
  {
    if d > 0 {
      MulMonotone(a, b, d - 1);
      assert a * d == a * (d - 1) + a && b * d == b * (d - 1) + b;
    }
  }

  /** The slice of `itemsPerPage` items from a non-negative start, clamped to the data. */
  lemma SliceFrom<T>(data: seq<T>, lo: nat, itemsPerPage: nat)
    requires itemsPerPage > 0
    ensures Slice(data, lo, lo + itemsPerPage) == data[Min(lo, |data|)..Min(lo + itemsPerPage, |data|)]
    ensures Slice(data, lo, lo + itemsPerPage) == [] <==> lo >= |data|
  {
  }

  /** Page `p` (counted from 1) holds the items from index `(p - 1) * itemsPerPage` up to `p * itemsPerPage` or the end. */
  lemma PageSlice<T>(data: seq<T>, p: int, itemsPerPage: nat)
    requires itemsPerPage > 0 && p >= 1
    ensures PageItems(data, p, itemsPerPage)
            == data[Min((p - 1) * itemsPerPage, |data|)..Min(p * itemsPerPage, |data|)]
  {
    MulMonotone(0, p - 1, itemsPerPage);
    var lo: nat := (p - 1) * itemsPerPage;
    assert p * itemsPerPage == lo + itemsPerPage;
    SliceFrom(data, lo, itemsPerPage);
  }

  /** A page is empty exactly when it comes after the last page. */
  lemma PageEmptyPastEnd<T>(data: seq<T>, p: int, itemsPerPage: nat)
    requires itemsPerPage > 0 && p >= 1
    ensures var page := GetPaginatedData(data, p, itemsPerPage);
            page.paginatedData == [] <==> p > page.totalPages
  {
    var n := CeilDiv(|data|, itemsPerPage);
    CeilDivBounds(|data|, itemsPerPage);
    MulMonotone(0, p - 1, itemsPerPage);
    var lo: nat := (p - 1) * itemsPerPage;
    SliceFrom(data, lo, itemsPerPage);
    if p <= n {
      MulMonotone(p - 1, n - 1, itemsPerPage);
    } else {
      MulMonotone(n, p - 1, itemsPerPage);
    }
  }

  /**
    Pages 1 to `k` laid end to end: page `p` holds the items from `(p - 1) * itemsPerPage`,
    at most `itemsPerPage` of them. `PagesAreConsecutivePages` shows that each added page
    is the `paginatedData` of `getPaginatedData`.
  */
  function Pages<T>(data: seq<T>, itemsPerPage: nat, k: nat): seq<T>
  {
    if k == 0 then []
    else
      var start := (k - 1) * itemsPerPage;
      Pages(data, itemsPerPage, k - 1) + data[Min(start, |data|)..Min(start + itemsPerPage, |data|)]
  }

  /** Pages 1 to `k` are pages 1 to `k - 1` followed by page `k` as `getPaginatedData` returns it. */
  lemma PagesAreConsecutivePages<T>(data: seq<T>, itemsPerPage: nat, k: nat)
    requires itemsPerPage > 0 && k > 0
    ensures Pages(data, itemsPerPage, k)
            == Pages(data, itemsPerPage, k - 1) + GetPaginatedData(data, k, itemsPerPage).paginatedData
  {
    assert k * itemsPerPage == (k - 1) * itemsPerPage + itemsPerPage;
    PageSlice(data, k, itemsPerPage);
  }

  /** Pages 1 to `k` together are the first `k * itemsPerPage` items, or all of them. */
  lemma {:induction false} PagesPrefix<T>(data: seq<T>, itemsPerPage: nat, k: nat)
    requires itemsPerPage > 0
    ensures Pages(data, itemsPerPage, k) == data[..Min(k * itemsPerPage, |data|)]
  {
    if k > 0 {
      var start := (k - 1) * itemsPerPage;
      var a, b := Min(start, |data|), Min(start + itemsPerPage, |data|);
      assert k * itemsPerPage == start + itemsPerPage;
      PagesPrefix(data, itemsPerPage, k - 1);
      ConcatSlices(data, data[..a], data[a..b], a, b);
    }
  }

  lemma ConcatSlices<T>(s: seq<T>, prefix: seq<T>, middle: seq<T>, a: nat, b: nat)
    requires a <= b <= |s| && prefix == s[..a] && middle == s[a..b]
    ensures prefix + middle == s[..b]
  {
  }

  /** Reading every page in turn gives back the whole data, in order, with nothing repeated. */
  lemma AllPagesReproduceData<T>(data: seq<T>, itemsPerPage: nat)
    requires itemsPerPage > 0
    ensures Pages(data, itemsPerPage, GetPaginatedData(data, 1, itemsPerPage).totalPages) == data
  {
    PagesPrefix(data, itemsPerPage, GetPaginatedData(data, 1, itemsPerPage).totalPages);
    CeilDivBounds(|data|, itemsPerPage);
  }

  /** The visible page numbers, at most five around the current page (`startPage`, `endPage`). */
  function Window(currentPage: int, totalPages: int): (int, int)
  {
    var start := Max(1, currentPage - MaxVisiblePages / 2);
    var end := Min(totalPages, start + MaxVisiblePages - 1);
    if end - start < MaxVisiblePages - 1 then (Max(1, end - MaxVisiblePages + 1), end) else (start, end)
  }

  /** For a page in range the window contains it, stays in range and shows `min(5, totalPages)` numbers. */
  lemma WindowBounds(currentPage: int, totalPages: int)
    requires 1 <= currentPage <= totalPages
    ensures var (start, end) := Window(currentPage, totalPages);
            1 <= start <= currentPage <= end <= totalPages
            && end - start + 1 == Min(MaxVisiblePages, totalPages)
  {
  }

  /** One piece of the controls, in the order the HTML string is built. */
  datatype Control =
    | Info(page: int, of: int)                // "Page x of y"
    | Prev(disabled: bool, target: int)       // previous button
    | FirstPage                               // the jump to page 1 before the window
    | Ellipsis
    | PageButton(number: int, active: bool)   // a numbered button in the window
    | LastPage(number: int)                   // the jump to the last page after the window
    | Next(disabled: bool, target: int)       // next button

  /** The numbered buttons `lo` up to but excluding `hi`. */
  function Buttons(lo: int, hi: int, currentPage: int): seq<Control>
    decreases hi - lo
  {
    if hi <= lo then [] else Buttons(lo, hi - 1, currentPage) + [PageButton(hi - 1, hi - 1 == currentPage)]
  }

  function Leading(start: int): seq<Control>
  {
    if start > 2 then [FirstPage, Ellipsis] else if start > 1 then [FirstPage] else []
  }

  function Trailing(end: int, totalPages: int): seq<Control>
  {
    if end < totalPages - 1 then [Ellipsis, LastPage(totalPages)]
    else if end < totalPages then [LastPage(totalPages)] else []
  }

  /** The controls `createPaginationHTML(currentPage, totalPages)` builds. */
  function Controls(currentPage: int, totalPages: int): seq<Control>
  {
    if totalPages <= 1 then []
    else
      var (start, end) := Window(currentPage, totalPages);
      [Info(currentPage, totalPages), Prev(currentPage == 1, currentPage - 1)]
      + Leading(start) + Buttons(start, end + 1, currentPage) + Trailing(end, totalPages)
      + [Next(currentPage == totalPages, currentPage + 1)]
  }

  lemma {:induction false} ButtonsAt(lo: int, hi: int, currentPage: int)
    ensures |Buttons(lo, hi, currentPage)| == Max(0, hi - lo)
    ensures forall k :: 0 <= k < hi - lo ==>
              Buttons(lo, hi, currentPage)[k] == PageButton(lo + k, lo + k == currentPage)
    decreases hi - lo
  {
    if lo < hi {
      ButtonsAt(lo, hi - 1, currentPage);
    }
  }

  /** Every `PageButton` in the controls is one of the window's numbers, active only for the current page. */
  lemma ControlsButtons(currentPage: int, totalPages: int, n: int, active: bool)
    requires totalPages > 1
    ensures var (start, end) := Window(currentPage, totalPages);
            PageButton(n, active) in Controls(currentPage, totalPages)
            <==> start <= n <= end && active == (n == currentPage)
  {
    var (start, end) := Window(currentPage, totalPages);
    ButtonsAt(start, end + 1, currentPage);
    var bs := Buttons(start, end + 1, currentPage);
    if start <= n <= end && active == (n == currentPage) {
      assert bs[n - start] == PageButton(n, active);
    }
  }

  /**
    The controls are empty exactly when there is at most one page. Otherwise Prev is
    disabled only on page 1 and Next only on the last page; page 1 gets its own button
    exactly when the window starts after it, followed by an ellipsis when the window
    starts after page 2; symmetrically for the last page and the window's end.
  */
  lemma ControlsShape(currentPage: int, totalPages: int)
    ensures Controls(currentPage, totalPages) == [] <==> totalPages <= 1
    ensures totalPages > 1 ==>
              var c := Controls(currentPage, totalPages);
              var (start, end) := Window(currentPage, totalPages);
              && start <= end
              && c[0] == Info(currentPage, totalPages)
              && c[1] == Prev(currentPage == 1, currentPage - 1)
              && c[|c| - 1] == Next(currentPage == totalPages, currentPage + 1)
              && (c[2] == FirstPage <==> start > 1)
              && (start > 1 ==> (c[3] == Ellipsis <==> start > 2))
              && (c[|c| - 2] == LastPage(totalPages) <==> end < totalPages)
              && (end < totalPages ==> (c[|c| - 3] == Ellipsis <==> end < totalPages - 1))
  {
    if totalPages > 1 {
      var (start, end) := Window(currentPage, totalPages);
      ButtonsAt(start, end + 1, currentPage);
    }
  }

  /** `createPaginationHTML`, building its output piece by piece as the source appends to `html`. */
  method CreatePaginationHtml(currentPage: int, totalPages: int) returns (html: seq<Control>)
    ensures html == Controls(currentPage, totalPages)
  {
    if totalPages <= 1 {
      return [];
    }
    html := [Info(currentPage, totalPages)];
    html := html + [Prev(currentPage == 1, currentPage - 1)];
    var startPage := Max(1, currentPage - MaxVisiblePages / 2);
    var endPage := Min(totalPages, startPage + MaxVisiblePages - 1);
    if endPage - startPage < MaxVisiblePages - 1 {
      startPage := Max(1, endPage - MaxVisiblePages + 1);
    }
    if startPage > 1 {
      html := html + [FirstPage];
      if startPage > 2 {
        html := html + [Ellipsis];
      }
    }
    assert (startPage, endPage) == Window(currentPage, totalPages) && startPage <= endPage;
    assert html == [Info(currentPage, totalPages), Prev(currentPage == 1, currentPage - 1)] + Leading(startPage);
    html := AppendPageButtons(html, startPage, endPage, currentPage);
    ghost var body := html;
    assert Controls(currentPage, totalPages)
           == body + Trailing(endPage, totalPages) + [Next(currentPage == totalPages, currentPage + 1)];
    if endPage < totalPages {
      if endPage < totalPages - 1 {
        html := html + [Ellipsis];
      }
      html := html + [LastPage(totalPages)];
    }
    assert html == body + Trailing(endPage, totalPages);
    html := html + [Next(currentPage == totalPages, currentPage + 1)];
  }

  /** The `for` loop of `createPaginationHTML` appending the numbered buttons `startPage` to `endPage`. */
  method AppendPageButtons(html: seq<Control>, startPage: int, endPage: int, currentPage: int)
    returns (out: seq<Control>)
    requires startPage <= endPage
    ensures out == html + Buttons(startPage, endPage + 1, currentPage)
  {
    out := html;
    var i := startPage;
    while i <= endPage
      invariant startPage <= i <= endPage + 1
      invariant out == html + Buttons(startPage, i, currentPage)
      decreases endPage - i
    {
      out := out + [PageButton(i, i == currentPage)];
      i := i + 1;
    }
  }

  /** One container's entry in `window.paginationState`. */
  datatype ContainerState<T, R> = ContainerState(data: seq<T>, currentPage: int, itemsPerPage: nat,
                                                 renderFunction: Option<R>)

  /** The container's page size is positive and its current page is a page of its data (page 1 when empty). */
  predicate InRange<T, R>(s: ContainerState<T, R>)
  {
    s.itemsPerPage > 0 && 1 <= s.currentPage <= Max(1, CeilDiv(|s.data|, s.itemsPerPage))
  }

  /**
    What `updatePagination` shows: the rows handed to the render function, if any, and the
    controls inserted after the container, none when the container element is missing.
  */
  datatype View<T> = View(rendered: Option<seq<T>>, controls: Option<seq<Control>>)

  /**
    The view `updatePagination` produces for a stored state: the rows of the current page
    go to the render function when there is one, and the controls of the current page are
    shown only when the container element exists.
  */
  function ShowState<T, R>(s: ContainerState<T, R>, hasContainer: bool): (v: View<T>)
    requires InRange(s)
    ensures v.rendered.Some? <==> s.renderFunction.Some?
    ensures v.rendered.Some? ==>
              var lo := (s.currentPage - 1) * s.itemsPerPage;
              && 0 <= lo <= |s.data|
              && v.rendered.value == s.data[lo..Min(lo + s.itemsPerPage, |s.data|)]
    ensures v.controls.Some? <==> hasContainer
    ensures v.controls.Some? ==>
              v.controls.value == Controls(s.currentPage, CeilDiv(|s.data|, s.itemsPerPage))
  {
    StoredPageRows(s);
    View(if s.renderFunction.Some? then Some(PageItems(s.data, s.currentPage, s.itemsPerPage)) else None,
         if hasContainer then Some(Controls(s.currentPage, CeilDiv(|s.data|, s.itemsPerPage))) else None)
  }

  /** `window.paginationState`: pagination state per container id. */
  class PaginationRegistry<T, R> {
    var states: map<string, ContainerState<T, R>>

    ghost predicate Valid()
      reads this
    {
      forall id :: id in states ==> InRange(states[id])
    }

    constructor ()
      ensures Valid() && states == map[]
    {
      states := map[];
    }

    /**
      `initPagination`: (re)starts the container on page 1 and renders it. `hasContainer`
      says whether the page has an element with id `containerId`.
    */
    method InitPagination(containerId: string, data: seq<T>, renderFunction: Option<R>, itemsPerPage: nat,
                          hasContainer: bool)
      returns (view: View<T>)
      requires Valid() && itemsPerPage > 0
      modifies this
      ensures Valid()
      ensures states == old(states)[containerId := ContainerState(data, 1, itemsPerPage, renderFunction)]
      ensures view == ShowState(states[containerId], hasContainer)
    {
      states := states[containerId := ContainerState(data, 1, itemsPerPage, renderFunction)];
      var shown := UpdatePagination(containerId, hasContainer);
      view := shown.value;
    }

    /**
      `updatePagination`: nothing for an unknown container; otherwise the current page's rows
      (when a render function is set), and the controls for the current page when the
      container element exists.
    */
    method UpdatePagination(containerId: string, hasContainer: bool) returns (view: Option<View<T>>)
      requires Valid()
      ensures view.None? <==> containerId !in states
      ensures view.Some? ==> view.value == ShowState(states[containerId], hasContainer)
    {
      if containerId !in states {
        return None;
      }
      var s := states[containerId];
      var page := GetPaginatedData(s.data, s.currentPage, s.itemsPerPage);
      var rendered := if s.renderFunction.Some? then Some(page.paginatedData) else None;
      if !hasContainer {
        return Some(View(rendered, None));
      }
      var controls := CreatePaginationHtml(s.currentPage, page.totalPages);
      view := Some(View(rendered, Some(controls)));
    }

    /**
      `goToPage`: moves to `page` and re-renders when `page` is a page of the data, and
      otherwise does nothing and renders nothing.
    */
    method GoToPage(containerId: string, page: int, hasContainer: bool) returns (view: Option<View<T>>)
      requires Valid()
      modifies this
      ensures Valid()
      ensures containerId !in old(states) ==> states == old(states) && view.None?
      ensures containerId in old(states) ==>
                var s := old(states)[containerId];
                if 1 <= page <= CeilDiv(|s.data|, s.itemsPerPage)
                then states == old(states)[containerId := s.(currentPage := page)]
                     && view == Some(ShowState(states[containerId], hasContainer))
                else states == old(states) && view.None?
    {
      if containerId !in states {
        return None;
      }
      var s := states[containerId];
      var totalPages := GetPaginatedData(s.data, 1, s.itemsPerPage).totalPages;
      if page < 1 || page > totalPages {
        return None;
      }
      states := states[containerId := s.(currentPage := page)];
      view := UpdatePagination(containerId, hasContainer);
    }

    /**
      `updatePaginationData`: new data from page 1, or a fresh entry of 10 rows per page
      without a render function; either way the container is re-rendered.
    */
    method UpdatePaginationData(containerId: string, newData: seq<T>, hasContainer: bool)
      returns (view: View<T>)
      requires Valid()
      modifies this
      ensures Valid()
      ensures containerId in old(states) ==>
                states == old(states)[containerId := old(states)[containerId].(data := newData, currentPage := 1)]
      ensures containerId !in old(states) ==>
                states == old(states)[containerId := ContainerState(newData, 1, DefaultItemsPerPage, None)]
      ensures view == ShowState(states[containerId], hasContainer)
    {
      if containerId in states {
        var s := states[containerId];
        states := states[containerId := s.(data := newData, currentPage := 1)];
        var shown := UpdatePagination(containerId, hasContainer);
        view := shown.value;
      } else {
        view := InitPagination(containerId, newData, None, DefaultItemsPerPage, hasContainer);
      }
    }
  }

  /** Under the registry's invariant the stored page starts within the data (at 0 when the data is empty). */
  lemma StoredPageStartsInData<T, R>(s: ContainerState<T, R>)
    requires InRange(s)
    ensures 0 <= (s.currentPage - 1) * s.itemsPerPage <= |s.data|
  {
    var n := CeilDiv(|s.data|, s.itemsPerPage);
    CeilDivBounds(|s.data|, s.itemsPerPage);
    MulMonotone(0, s.currentPage - 1, s.itemsPerPage);
    if n > 0 {
      MulMonotone(s.currentPage - 1, n - 1, s.itemsPerPage);
    }
  }

  /** Under the registry's invariant the stored page is the unclamped slice from its first row. */
  lemma StoredPageRows<T, R>(s: ContainerState<T, R>)
    requires InRange(s)
    ensures var lo := (s.currentPage - 1) * s.itemsPerPage;
            && 0 <= lo <= |s.data|
            && PageItems(s.data, s.currentPage, s.itemsPerPage) == s.data[lo..Min(lo + s.itemsPerPage, |s.data|)]
  {
    var lo := (s.currentPage - 1) * s.itemsPerPage;
    StoredPageStartsInData(s);
    PageSlice(s.data, s.currentPage, s.itemsPerPage);
    assert s.currentPage * s.itemsPerPage == lo + s.itemsPerPage;
  }

  /** Under the registry's invariant the stored page needs no clamping: `getPaginatedData` reports it unchanged. */
  lemma StoredPageIsReported<T, R>(s: ContainerState<T, R>)
    requires InRange(s)
    ensures GetPaginatedData(s.data, s.currentPage, s.itemsPerPage).currentPage == s.currentPage
  {
  }
}
