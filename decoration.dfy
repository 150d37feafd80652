/**
 * Book decoration values of the FlipBook component: reading progress, the
 * thickness of the page stacks drawn beside the book, and the cover clip
 * that shows only the right half of the engine's double-wide canvas.
 * Progress is an exact rational here; `Math.round` is floor(x + 0.5).
 */
module Decoration {
  import opened JsMath
  import Layout

  const MAX_STACK_PX := 8
  const MIN_RIGHT_STACK_PX := 4

  /** (currentPage - 1) / (pageCount - 1) when more than one page is loaded, else 0. */
  function PageProgress(currentPage: int, pageCount: int): (p: real)
    ensures pageCount <= 1 ==> p == 0.0
    ensures 1 <= currentPage <= pageCount ==> 0.0 <= p <= 1.0
    ensures pageCount > 1 && currentPage == 1 ==> p == 0.0
    ensures pageCount > 1 && currentPage == pageCount ==> p == 1.0
  {
    if pageCount > 1 then (currentPage - 1) as real / (pageCount - 1) as real else 0.0
  }

  /** Pages still to read: 8 px scaled by the remaining share, never below 4 px. */
  function RightStackPx(currentPage: int, pageCount: int): (px: int)
    ensures px >= MIN_RIGHT_STACK_PX
    ensures pageCount <= 1 ==> px == MAX_STACK_PX
    ensures 1 <= currentPage <= pageCount ==> px <= MAX_STACK_PX
  {
    Max(MIN_RIGHT_STACK_PX, Round((1.0 - PageProgress(currentPage, pageCount)) * MAX_STACK_PX as real))
  }

  /** Pages already read: 8 px scaled by the progress. */
  function LeftStackPx(currentPage: int, pageCount: int): (px: int)
    ensures pageCount <= 1 ==> px == 0
    ensures 1 <= currentPage <= pageCount ==> 0 <= px <= MAX_STACK_PX
  {
    Round(PageProgress(currentPage, pageCount) * MAX_STACK_PX as real)
  }

  /** The first page is the cover, once at least one page is loaded. */
  predicate IsCover(currentPage: int, pageCount: int)
    ensures IsCover(currentPage, pageCount) ==> PageProgress(currentPage, pageCount) <= 0.0
    ensures IsCover(currentPage, pageCount) && currentPage == 1 ==> LeftStackPx(currentPage, pageCount) == 0
  {
    currentPage <= 1 && pageCount > 0
  }

  /** Width of the visible box around the canvas: one page on a wide cover. */
  function ClipWidth(currentPage: int, pageCount: int, d: Layout.Dims): (w: int)
    ensures IsCover(currentPage, pageCount) && d.isWide ==> w == d.width
    ensures !(IsCover(currentPage, pageCount) && d.isWide) ==> w == d.totalWidth
  {
    if IsCover(currentPage, pageCount) && d.isWide then d.width else d.totalWidth
  }

  /** Horizontal offset of the canvas in that box: one page to the left on a wide cover. */
  function CanvasShift(currentPage: int, pageCount: int, d: Layout.Dims): (shift: int)
    ensures IsCover(currentPage, pageCount) && d.isWide ==> shift == -ClipWidth(currentPage, pageCount, d)
    ensures !(IsCover(currentPage, pageCount) && d.isWide) ==> shift == 0
  {
    if IsCover(currentPage, pageCount) && d.isWide then -d.width else 0
  }

  /** Dividing by a positive number keeps the order. */
  lemma DivideKeepsOrder(x: real, y: real, d: real)
    requires x <= y && d > 0.0
    ensures x / d <= y / d
  {
    assert y / d - x / d == (y - x) / d;
  }

  /** Progress grows with the page number. */
  lemma {:induction false} ProgressMonotone(p1: int, p2: int, pageCount: int)
    requires p1 <= p2
    ensures PageProgress(p1, pageCount) <= PageProgress(p2, pageCount)
  {
    if pageCount > 1 {
      DivideKeepsOrder((p1 - 1) as real, (p2 - 1) as real, (pageCount - 1) as real);
    }
  }

  /**
   * With nothing or one page loaded the book shows no progress: an empty left
   * stack and a full 8 px right stack.
   */
  lemma SinglePageStacks(currentPage: int, pageCount: int)
    requires pageCount <= 1
    ensures PageProgress(currentPage, pageCount) == 0.0
    ensures LeftStackPx(currentPage, pageCount) == 0
    ensures RightStackPx(currentPage, pageCount) == MAX_STACK_PX
  {
  }

  /**
   * For a page in [1, pageCount] the right stack is 4..8 px and the left
   * stack 0..8 px; on the first page the left stack is empty and on the last
   * of several the right stack is at its 4 px minimum.
   */
  lemma StackBounds(currentPage: int, pageCount: int)
    requires 1 <= currentPage <= pageCount
    ensures MIN_RIGHT_STACK_PX <= RightStackPx(currentPage, pageCount) <= MAX_STACK_PX
    ensures 0 <= LeftStackPx(currentPage, pageCount) <= MAX_STACK_PX
    ensures currentPage == 1 ==> LeftStackPx(currentPage, pageCount) == 0
    ensures 1 < currentPage == pageCount ==> RightStackPx(currentPage, pageCount) == MIN_RIGHT_STACK_PX
  {
    var p := PageProgress(currentPage, pageCount);
    assert 0.0 <= p * 8.0 <= 8.0;
    assert 0.0 <= (1.0 - p) * 8.0 <= 8.0;
  }

  /** Turning forward never thins the left stack and never thickens the right one. */
  lemma StacksMonotone(p1: int, p2: int, pageCount: int)
    requires p1 <= p2
    ensures LeftStackPx(p1, pageCount) <= LeftStackPx(p2, pageCount)
    ensures RightStackPx(p1, pageCount) >= RightStackPx(p2, pageCount)
  {
    var a, b := PageProgress(p1, pageCount), PageProgress(p2, pageCount);
    ProgressMonotone(p1, p2, pageCount);
    RoundMonotone(a * 8.0, b * 8.0);
    RoundMonotone((1.0 - b) * 8.0, (1.0 - a) * 8.0);
  }

  /**
   * On a wide cover the visible box is meant to show the right half of the
   * engine's double-wide canvas, the window [width, 2 * width). It lies
   * inside the canvas exactly when the 200 px width minimum did not apply;
   * then it is exactly the right half. When the minimum applies, the canvas
   * is built from the unclamped width and the window runs past its end.
   */
  lemma CoverShowsRightHalf(measured: Layout.Box, vp: Layout.Viewport, currentPage: int, pageCount: int)
    requires IsCover(currentPage, pageCount) && Layout.UpdateDimensions(measured, vp).isWide
    ensures var d := Layout.UpdateDimensions(measured, vp);
            var r := Layout.Raw(Layout.UpdateContainer(measured, vp), vp);
            var start := -CanvasShift(currentPage, pageCount, d);
            var end := start + ClipWidth(currentPage, pageCount, d);
            && (end <= d.totalWidth <==> r.pageWidth >= Layout.MIN_PAGE_WIDTH)
            && (r.pageWidth >= Layout.MIN_PAGE_WIDTH ==> 2 * start == d.totalWidth && end == d.totalWidth)
  {
  }
}
