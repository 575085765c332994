/**
 * components/custom/PaginationCustom.tsx: the page strip under every paged
 * list. It shows the first and last page, the pages within two of the
 * current one, an ellipsis for each gap, and previous/next buttons.
 */
module PaginationCustom {
  import opened Common

  datatype PageItem = Page(n: int) | Ellipsis

  /** How many pages either side of the current one are listed. */
  const Range := 2

  function Max(a: int, b: int): int { if a >= b then a else b }

  function Min(a: int, b: int): int { if a <= b then a else b }

  /** Page p has its own button in the strip. */
  predicate Listed(current: int, total: int, p: int)
  {
    p == 1 || p == total || (1 < p < total && current - Range <= p <= current + Range)
  }

  /** The consecutive page buttons from..to-1. */
  function Run(from: int, to: int): (r: seq<PageItem>)
    requires from <= to
    ensures |r| == to - from
    ensures forall k :: 0 <= k < |r| ==> r[k] == Page(from + k)
  {
    seq(to - from, k requires 0 <= k < to - from => Page(from + k))
  }

  /**
   * What the strip promises for every current page: it starts at 1 and ends
   * at the last page, lists exactly the pages near the current one in
   * increasing order, has at most nine entries, never shows two ellipses
   * side by side, and shows neighbouring numbers only when they are
   * consecutive.
   */
  ghost predicate Strip(current: int, total: int, pages: seq<PageItem>)
  {
    |pages| >= 2 && |pages| <= 9 &&
    pages[0] == Page(1) && pages[|pages| - 1] == Page(total) &&
    (forall p :: Page(p) in pages <==> Listed(current, total, p)) &&
    (forall i, j :: 0 <= i < j < |pages| && pages[i].Page? && pages[j].Page? ==> pages[i].n < pages[j].n) &&
    (forall i :: 0 <= i < |pages| - 1 && pages[i].Page? && pages[i + 1].Page? ==> pages[i + 1].n == pages[i].n + 1) &&
    (forall i :: 0 <= i < |pages| - 1 ==> pages[i].Page? || pages[i + 1].Page?)
  }

  /**
   * For a current page within 1..total the strip also opens with an ellipsis
   * exactly when page 2 is skipped, ends with one exactly when page
   * total - 1 is skipped, and every ellipsis stands for at least one skipped
   * page.
   */
  ghost predicate StripInRange(current: int, total: int, pages: seq<PageItem>)
    requires |pages| >= 2
  {
    (pages[1] == Ellipsis <==> current - Range > 2) &&
    (pages[|pages| - 2] == Ellipsis <==> current + Range < total - 1) &&
    (forall i :: 0 < i < |pages| - 1 && pages[i] == Ellipsis ==>
      pages[i - 1].Page? && pages[i + 1].Page? && pages[i + 1].n > pages[i - 1].n + 1)
  }

  /** generatePageNumbers (lines 17-34), called once there are at least two pages. */
  method GeneratePageNumbers(currentPage: int, totalPages: int) returns (pages: seq<PageItem>)
    requires totalPages >= 2
    ensures Strip(currentPage, totalPages, pages)
    ensures 1 <= currentPage <= totalPages ==> StripInRange(currentPage, totalPages, pages)
  {
    var startPage := Max(2, currentPage - Range);
    var endPage := Min(totalPages - 1, currentPage + Range);
    pages := [Page(1)];
    if startPage > 2 {
      pages := pages + [Ellipsis];
    }
    ghost var head := pages;
    var stop := Max(startPage, endPage + 1);
    var i := startPage;
    while i <= endPage
      invariant startPage <= i <= stop
      invariant pages == head + Run(startPage, i)
    {
      pages := pages + [Page(i)];
      i := i + 1;
    }
    assert i == stop;
    if endPage < totalPages - 1 {
      pages := pages + [Ellipsis];
    }
    pages := pages + [Page(totalPages)];
    LayoutFacts(currentPage, totalPages, startPage, endPage, head, Run(startPage, stop), pages);
  }

  /**
   * The layout generatePageNumbers builds, entry by entry: 1, an optional
   * ellipsis (h == 2), the run s..e at indices h..m-1, an optional ellipsis,
   * and the last page.
   */
  ghost predicate Layout(c: int, t: int, pages: seq<PageItem>, s: int, e: int, h: int, m: int)
  {
    t >= 2 && s == Max(2, c - Range) && e == Min(t - 1, c + Range) &&
    h == (if s > 2 then 2 else 1) && m == h + Max(0, e - s + 1) &&
    |pages| == m + (if e < t - 1 then 2 else 1) &&
    pages[0] == Page(1) && (h == 2 ==> pages[1] == Ellipsis) &&
    (forall k :: h <= k < m ==> pages[k] == Page(s + k - h)) &&
    (e < t - 1 ==> pages[m] == Ellipsis) &&
    pages[|pages| - 1] == Page(t)
  }

  lemma LayoutFacts(c: int, t: int, s: int, e: int, head: seq<PageItem>, run: seq<PageItem>, pages: seq<PageItem>)
    requires t >= 2
    requires s == Max(2, c - Range) && e == Min(t - 1, c + Range)
    requires head == if s > 2 then [Page(1), Ellipsis] else [Page(1)]
    requires run == Run(s, Max(s, e + 1))
    requires pages == head + run + (if e < t - 1 then [Ellipsis] else []) + [Page(t)]
    ensures Strip(c, t, pages)
    ensures 1 <= c <= t ==> StripInRange(c, t, pages)
  {
    var h := |head|;
    var m := h + |run|;
    assert forall k :: h <= k < m ==> pages[k] == run[k - h];
    assert Layout(c, t, pages, s, e, h, m);
    LayoutLists(c, t, pages, s, e, h, m);
    LayoutOrdered(c, t, pages, s, e, h, m);
    if 1 <= c <= t {
      LayoutInRange(c, t, pages, s, e, h, m);
    }
  }

  lemma LayoutLists(c: int, t: int, pages: seq<PageItem>, s: int, e: int, h: int, m: int)
    requires Layout(c, t, pages, s, e, h, m)
    ensures forall p :: Page(p) in pages <==> Listed(c, t, p)
  {
    forall p
      ensures Page(p) in pages <==> Listed(c, t, p)
    {
      if Listed(c, t, p) {
        if p == 1 {
          assert pages[0] == Page(p);
        } else if p == t {
          assert pages[|pages| - 1] == Page(p);
        } else {
          assert pages[h + (p - s)] == Page(p);
        }
      }
      if Page(p) in pages {
        var k :| 0 <= k < |pages| && pages[k] == Page(p);
        if h <= k < m {
          assert pages[k] == Page(s + k - h);
        }
      }
    }
  }

  /** The number carried by a page entry, as a function of its index. */
  lemma LayoutNumber(c: int, t: int, pages: seq<PageItem>, s: int, e: int, h: int, m: int, k: int)
    requires Layout(c, t, pages, s, e, h, m)
    requires 0 <= k < |pages| && pages[k].Page?
    ensures k == 0 ==> pages[k].n == 1
    ensures h <= k < m ==> pages[k].n == s + k - h && 2 <= pages[k].n <= t - 1
    ensures k == |pages| - 1 ==> pages[k].n == t
    ensures k == 0 || (h <= k < m) || k == |pages| - 1
  {
  }

  lemma LayoutOrdered(c: int, t: int, pages: seq<PageItem>, s: int, e: int, h: int, m: int)
    requires Layout(c, t, pages, s, e, h, m)
    ensures Strip(c, t, pages)
  {
    LayoutLists(c, t, pages, s, e, h, m);
    forall i, j | 0 <= i < j < |pages| && pages[i].Page? && pages[j].Page?
      ensures pages[i].n < pages[j].n
    {
      LayoutNumber(c, t, pages, s, e, h, m, i);
      LayoutNumber(c, t, pages, s, e, h, m, j);
    }
    forall i | 0 <= i < |pages| - 1 && pages[i].Page? && pages[i + 1].Page?
      ensures pages[i + 1].n == pages[i].n + 1
    {
      LayoutNumber(c, t, pages, s, e, h, m, i);
      LayoutNumber(c, t, pages, s, e, h, m, i + 1);
    }
    forall i | 0 <= i < |pages| - 1
      ensures pages[i].Page? || pages[i + 1].Page?
    {
      if h <= i < m || h <= i + 1 < m {
      }
    }
  }

  lemma LayoutInRange(c: int, t: int, pages: seq<PageItem>, s: int, e: int, h: int, m: int)
    requires Layout(c, t, pages, s, e, h, m)
    requires 1 <= c <= t
    ensures StripInRange(c, t, pages)
  {
    forall i | 0 < i < |pages| - 1 && pages[i] == Ellipsis
      ensures pages[i - 1].Page? && pages[i + 1].Page? && pages[i + 1].n > pages[i - 1].n + 1
    {
      if i == 1 && h == 2 {
        LayoutNumber(c, t, pages, s, e, h, m, 2);
      } else {
        assert i == m;
        LayoutNumber(c, t, pages, s, e, h, m, i - 1);
      }
    }
  }

  /** The whole component: nothing for a single page, the strip otherwise (line 15). */
  method Render(currentPage: int, totalPages: int) returns (strip: Option<seq<PageItem>>)
    ensures strip.None? <==> totalPages <= 1
    ensures strip.Some? ==> Strip(currentPage, totalPages, strip.value)
  {
    if totalPages <= 1 {
      return None;
    }
    var pages := GeneratePageNumbers(currentPage, totalPages);
    return Some(pages);
  }

  /** The previous button: disabled on page 1, otherwise asks for the page before (lines 43-44). */
  function PreviousTarget(currentPage: int): (r: Option<int>)
    ensures r.None? <==> currentPage == 1
    ensures r.Some? ==> r.value == currentPage - 1 < currentPage
  {
    if currentPage == 1 then None else Some(currentPage - 1)
  }

  /** The next button: disabled on the last page, otherwise asks for the page after (lines 73-74). */
  function NextTarget(currentPage: int, totalPages: int): (r: Option<int>)
    ensures r.None? <==> currentPage == totalPages
    ensures r.Some? ==> r.value == currentPage + 1 > currentPage
  {
    if currentPage == totalPages then None else Some(currentPage + 1)
  }

  /** From a page within 1..total, the buttons only ever ask for pages within 1..total. */
  lemma TargetsStayInRange(currentPage: int, totalPages: int)
    requires 1 <= currentPage <= totalPages
    ensures PreviousTarget(currentPage).Some? ==> 1 <= PreviousTarget(currentPage).value <= totalPages
    ensures NextTarget(currentPage, totalPages).Some? ==> 1 <= NextTarget(currentPage, totalPages).value <= totalPages
  {
  }

  /** Previous then next comes back to the page one started on. */
  lemma PreviousThenNext(currentPage: int, totalPages: int)
    requires 1 < currentPage <= totalPages
    ensures NextTarget(PreviousTarget(currentPage).value, totalPages) == Some(currentPage)
  {
  }
}
