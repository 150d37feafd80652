/**
 * The footer's page label and slider (src/components/Footer.jsx): which
 * pages the label names, the text it shows, and the page a slider position
 * selects.
 */
module Footer {
  import opened JsMath
  import Text
  import Config

  /** First page of the spread shown in the label: the odd page of the pair holding the current page. */
  function StartPage(currentPage: int, isTwoPageSpread: bool): (s: int)
    ensures !isTwoPageSpread ==> s == currentPage
    ensures isTwoPageSpread ==> s >= 1 && s % 2 == 1
    ensures isTwoPageSpread && currentPage >= 1 ==> s <= currentPage <= s + 1
    ensures isTwoPageSpread && currentPage < 1 ==> s == 1
  {
    if isTwoPageSpread then Max(1, ((currentPage - 1) / 2) * 2 + 1) else currentPage
  }

  /** Last page of the spread shown in the label, cut at the page count. */
  function EndPage(currentPage: int, totalPages: int, isTwoPageSpread: bool): (e: int)
    ensures !isTwoPageSpread ==> e == currentPage
    ensures isTwoPageSpread ==> e <= totalPages && e <= StartPage(currentPage, true) + 1
    ensures isTwoPageSpread && StartPage(currentPage, true) < totalPages ==> e == StartPage(currentPage, true) + 1
    ensures isTwoPageSpread && totalPages <= StartPage(currentPage, true) + 1 ==> e == totalPages
  {
    if isTwoPageSpread then Min(totalPages, StartPage(currentPage, true) + 1) else currentPage
  }

  /** Whether the label names a two-page range rather than one page. */
  predicate ShowsRange(currentPage: int, totalPages: int, isTwoPageSpread: bool)
    ensures ShowsRange(currentPage, totalPages, isTwoPageSpread) && currentPage <= totalPages ==>
              EndPage(currentPage, totalPages, true) == StartPage(currentPage, true) + 1 <= totalPages
  {
    totalPages > 1 && isTwoPageSpread && StartPage(currentPage, true) != EndPage(currentPage, totalPages, true)
  }

  /** The footer's page label. */
  function PageRangeText(currentPage: int, totalPages: int, isTwoPageSpread: bool): (text: string)
    ensures totalPages <= 1 ==> text == "1 / 1"
    ensures totalPages > 1 ==>
              && |text| > 3 + |Text.IntToString(totalPages)|
              && text[|text| - 3 - |Text.IntToString(totalPages)|..] == " / " + Text.IntToString(totalPages)
    ensures totalPages > 1 && ShowsRange(currentPage, totalPages, isTwoPageSpread) ==>
              text == Text.IntToString(StartPage(currentPage, true)) + "-" +
                      Text.IntToString(EndPage(currentPage, totalPages, true)) + " / " + Text.IntToString(totalPages)
    ensures totalPages > 1 && !ShowsRange(currentPage, totalPages, isTwoPageSpread) ==>
              text == Text.IntToString(currentPage) + " / " + Text.IntToString(totalPages)
  {
    var suffix := " / " + Text.IntToString(totalPages);
    if totalPages <= 1 then
      "1 / 1"
    else if ShowsRange(currentPage, totalPages, isTwoPageSpread) then
      var range := Text.IntToString(StartPage(currentPage, true)) + "-" +
                   Text.IntToString(EndPage(currentPage, totalPages, true));
      assert (range + suffix)[|range|..] == suffix;
      range + suffix
    else
      var page := Text.IntToString(currentPage);
      assert (page + suffix)[|page|..] == suffix;
      page + suffix
  }

  /**
   * In two-page mode, for a page of a book of more than one page, the label
   * names a range exactly unless the page is the odd last page, which stands
   * alone; the range is always a pair holding the current page.
   */
  lemma RangeUnlessOddLastPage(currentPage: int, totalPages: int)
    requires 1 <= currentPage <= totalPages && totalPages > 1
    ensures ShowsRange(currentPage, totalPages, true) <==> !(currentPage == totalPages && currentPage % 2 == 1)
    ensures ShowsRange(currentPage, totalPages, true) ==>
              var s := StartPage(currentPage, true);
              EndPage(currentPage, totalPages, true) == s + 1 && s <= currentPage <= s + 1
  {
  }

  /**
   * The label trusts the current page to lie within the book. A deep link
   * past the end (`/page/50` in a book of 12 pages) keeps page 50 as the
   * current page, and the two-page label then names a backwards range.
   */
  lemma RangePastLastPage()
    ensures StartPage(50, true) == 49 && EndPage(50, 12, true) == 12
    ensures PageRangeText(50, 12, true) ==
              Text.IntToString(49) + "-" + Text.IntToString(12) + " / " + Text.IntToString(12)
  {
  }

  /** The label for the current page clamped into the book first. */
  function ClampedPageRangeText(currentPage: int, totalPages: int, isTwoPageSpread: bool): (text: string)
    ensures 1 <= currentPage <= totalPages ==> text == PageRangeText(currentPage, totalPages, isTwoPageSpread)
    ensures totalPages > 1 && currentPage > totalPages ==>
              text == PageRangeText(totalPages, totalPages, isTwoPageSpread)
  {
    PageRangeText(Config.SafePage(currentPage, totalPages), totalPages, isTwoPageSpread)
  }

  /**
   * With the page clamped, a two-page label always names a forward pair
   * inside the book that holds the page shown, whatever the current page.
   */
  lemma ClampedRangeWithinBook(currentPage: int, totalPages: int)
    requires totalPages > 1
    ensures var p := Config.SafePage(currentPage, totalPages);
            ShowsRange(p, totalPages, true) ==>
              && 1 <= StartPage(p, true)
              && EndPage(p, totalPages, true) == StartPage(p, true) + 1 <= totalPages
              && StartPage(p, true) <= p <= EndPage(p, totalPages, true)
    ensures var p := Config.SafePage(currentPage, totalPages);
            !ShowsRange(p, totalPages, true) ==> p == totalPages && p % 2 == 1
  {
    var p := Config.SafePage(currentPage, totalPages);
    RangeUnlessOddLastPage(p, totalPages);
  }

  /** In single-page mode the label always names the current page alone. */
  lemma SinglePageModeShowsCurrentPage(currentPage: int, totalPages: int)
    requires totalPages > 1
    ensures PageRangeText(currentPage, totalPages, false) ==
              Text.IntToString(currentPage) + " / " + Text.IntToString(totalPages)
  {
  }

  /** The slider's upper bound. */
  function SliderMax(totalPages: int): (m: int)
    ensures m >= 1 && m >= totalPages
    ensures totalPages >= 1 ==> m == totalPages
  {
    Max(1, totalPages)
  }

  /** The slider is disabled for a book of at most one page, the zero page count included. */
  predicate SliderDisabled(totalPages: int)
    ensures SliderDisabled(totalPages) <==> totalPages <= 1
  {
    totalPages == 0 || totalPages <= 1
  }

  /** The slider is disabled exactly when its range holds a single position. */
  lemma SliderDisabledIffSinglePosition(totalPages: int)
    ensures SliderDisabled(totalPages) <==> SliderMax(totalPages) == 1
  {
  }

  /** The page a slider value selects: the nearest whole page, kept in [1, page count]. */
  function SliderPage(value: real, totalPages: int): (page: int)
    ensures 1 <= page <= Max(1, totalPages)
    ensures page == Config.SafePage(Round(value), totalPages)
    ensures totalPages >= 1 && 0.5 <= value < totalPages as real + 0.5 ==>
              page as real - 0.5 <= value < page as real + 0.5
  {
    Max(1, Min(if totalPages == 0 then 1 else totalPages, Round(value)))
  }

  /** A slider at a whole page in range selects that page. */
  lemma SliderSelectsWholePage(page: int, totalPages: int)
    requires 1 <= page <= totalPages
    ensures SliderPage(page as real, totalPages) == page
  {
  }
}
