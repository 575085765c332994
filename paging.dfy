/**
 * Client-side paging as the list pages compute it: the page count
 * `Math.ceil(n / size)` and the page `items.slice((p - 1) * size, p * size)`.
 */
module Paging {

  /** `Math.ceil(n / d)` for a positive divisor. */
  function CeilDiv(n: int, d: int): (r: int)
    requires d > 0
    ensures d * (r - 1) < n <= d * r
    ensures n >= 0 ==> r >= 0
  {
    var q := (-n) / d;
    assert -n == d * q + (-n) % d;
    -q
  }

  /** A relative index of `Array.prototype.slice`, clamped into [0, len]. */
  function Clamp(i: int, len: nat): (r: nat)
    ensures r <= len
    ensures 0 <= i <= len ==> r == i
  {
    if i < 0 then (if len + i < 0 then 0 else len + i)
    else if i > len then len
    else i
  }

  /** `xs.slice(start, end)`. */
  function JsSlice<T>(xs: seq<T>, start: int, end: int): (r: seq<T>)
    ensures |r| <= |xs|
    ensures 0 <= start <= end <= |xs| ==> r == xs[start..end]
    ensures 0 <= start && |xs| <= start ==> r == []
  {
    var s := Clamp(start, |xs|);
    var e := Clamp(end, |xs|);
    if e <= s then [] else xs[s..e]
  }

  function Min(a: int, b: int): int
  {
    if a <= b then a else b
  }

  /** Number of pages of `size` items needed for n items. */
  function PageCount(n: nat, size: int): (r: nat)
    requires size > 0
    ensures n == 0 <==> r == 0
  {
    CeilDiv(n, size)
  }

  /** The items shown on page p (pages count from 1). */
  function PageView<T>(xs: seq<T>, p: int, size: int): (r: seq<T>)
    requires size > 0
    ensures |r| <= size
    ensures p >= 1 ==> r == xs[Min((p - 1) * size, |xs|)..Min(p * size, |xs|)]
  {
    var start := (p - 1) * size;
    var end := p * size;
    assert end == start + size by { MulStep(p, size); }
    assert p >= 1 ==> start >= 0 by {
      if p >= 1 { MulMonotone(p - 1, 0, size); }
    }
    SliceWindow(xs, start, end, size);
    JsSlice(xs, start, end)
  }

  /** The slice a list page takes for page p is PageView. */
  lemma SliceIsPage<T>(xs: seq<T>, p: int, size: int)
    requires size > 0
    ensures JsSlice(xs, (p - 1) * size, (p - 1) * size + size) == PageView(xs, p, size)
  {
  }

  /** A page shows only items of the list. */
  lemma PageMembers<T>(xs: seq<T>, p: int, size: int)
    requires size > 0
    ensures forall x :: x in PageView(xs, p, size) ==> x in xs
  {
    var start := (p - 1) * size;
    var s := Clamp(start, |xs|);
    var e := Clamp(start + size, |xs|);
    assert e > s ==> PageView(xs, p, size) == xs[s..e];
  }

  /** A slice `size` wide never holds more than `size` items. */
  lemma SliceWindow<T>(xs: seq<T>, start: int, end: int, size: int)
    requires size > 0 && end == start + size
    ensures |JsSlice(xs, start, end)| <= size
    ensures start >= 0 ==> JsSlice(xs, start, end) == xs[Min(start, |xs|)..Min(end, |xs|)]
  {
  }

  lemma MulStep(k: int, size: int)
    ensures (k - 1) * size + size == k * size
  {
  }

  lemma MulMonotone(a: int, b: int, c: int)
    requires a >= b && c >= 0
    ensures a * c >= b * c && c * a >= c * b
  {
  }

  /** Pages 1..k laid end to end. */
  function FirstPages<T>(xs: seq<T>, k: nat, size: int): seq<T>
    requires size > 0
  {
    if k == 0 then [] else FirstPages(xs, k - 1, size) + PageView(xs, k, size)
  }

  lemma {:induction false} FirstPagesArePrefix<T>(xs: seq<T>, k: nat, size: int)
    requires size > 0
    ensures FirstPages(xs, k, size) == xs[..Min(k * size, |xs|)]
  {
    if k > 0 {
      FirstPagesArePrefix(xs, k - 1, size);
      MulStep(k, size);
      var a := Min((k - 1) * size, |xs|);
      var b := Min(k * size, |xs|);
      assert a <= b;
      assert FirstPages(xs, k, size) == xs[..a] + xs[a..b];
      PrefixThenSlice(xs, a, b);
    }
  }

  lemma PrefixThenSlice<T>(xs: seq<T>, a: int, b: int)
    requires 0 <= a <= b <= |xs|
    ensures xs[..a] + xs[a..b] == xs[..b]
  {
  }

  /** Pages 1..PageCount together show every item exactly once, in order. */
  lemma PagesCoverAll<T>(xs: seq<T>, size: int)
    requires size > 0
    ensures FirstPages(xs, PageCount(|xs|, size), size) == xs
  {
    var k := PageCount(|xs|, size);
    FirstPagesArePrefix(xs, k, size);
    assert k * size >= |xs|;
  }

  /** A page past the last page is empty. */
  lemma PastLastPageEmpty<T>(xs: seq<T>, p: int, size: int)
    requires size > 0
    requires p > PageCount(|xs|, size) && p >= 1
    ensures PageView(xs, p, size) == []
  {
    var k := PageCount(|xs|, size);
    MulMonotone(p - 1, k, size);
    assert size * k == k * size;
  }

  lemma NegativeFactor(a: int, b: int)
    requires a > 0 && a * b < 0
    ensures b < 0
  {
  }

  /**
   * When a list already fits on one page (as a server page of the same size
   * does), at most one page is counted and every page from 2 on is empty.
   */
  lemma ServerPageCollapse<T>(xs: seq<T>, p: int, size: int)
    requires size > 0
    requires |xs| <= size && p >= 2
    ensures PageCount(|xs|, size) <= 1
    ensures PageView(xs, p, size) == []
  {
    var k := PageCount(|xs|, size);
    assert size * (k as int - 1) == size * (k as int - 2) + size;
    NegativeFactor(size, k as int - 2);
    PastLastPageEmpty(xs, p, size);
  }
}
