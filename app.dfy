/**
 * The host shell (src/App.jsx): the current page, page count, zoom level,
 * loader flag and spread mode it holds, the handlers that change them, and
 * the URL synchronisation through browser history.
 */
module App {
  import opened Wrappers
  import opened JsMath
  import Config
  import Text
  import Engine
  import FlipBook

  const ZOOM_MIN := 1.0
  const ZOOM_MAX := 2.5
  const ZOOM_STEP := 0.25

  /** The engine index for a page read from the URL on back/forward, clamped to the engine's pages. */
  function PopStateIndex(page: int, pageCount: nat): (i: int)
    ensures 0 <= i < Max(1, pageCount)
    ensures 1 <= page <= pageCount ==> i == page - 1
  {
    Max(0, Min(page - 1, (if pageCount == 0 then 1 else pageCount) - 1))
  }

  /** JavaScript truthiness of a reported error. */
  predicate Truthy(error: Option<string>) {
    error.Some? && error.value != ""
  }

  /** `handleLoadStateChange` hides the loader on readiness, an error, or content. */
  predicate ClearsLoader(s: FlipBook.LoadState) {
    s.isReady || Truthy(s.error) || s.hasContent
  }

  /**
   * The loader is hidden by every state the book reports once it has images,
   * an error or readiness; the only reports that keep it are those of an
   * empty, error-free, unready book, and the immediate report of a load error
   * whose message is empty.
   */
  lemma LoaderClearedByReports(imageCount: nat, initError: Option<string>, isReady: bool, message: string)
    ensures ClearsLoader(FlipBook.LoadReport(imageCount, initError, isReady)) <==>
              isReady || imageCount > 0 || Truthy(initError)
    ensures ClearsLoader(FlipBook.LoadReport(imageCount, Some(FlipBook.MessageOr(message, "Failed to load flipbook pages")), isReady))
    ensures ClearsLoader(FlipBook.LoadState(false, Some(message), false, false)) <==> message != ""
  {
  }

  /**
   * Back/forward onto a path the shell wrote itself does not add a history
   * entry: the page read back is the page written, so the URL sync that
   * follows finds the location already there.
   */
  lemma BackForwardDoesNotPush(page: int, totalPages: int, baseUrl: string, origin: string)
    requires 1 <= page <= totalPages
    requires Config.GetBase(baseUrl)[0] == '/'
    requires Config.FindPageSegment(Config.BasePath(Config.GetBase(baseUrl)), 0).None?
    ensures var path := Config.PagePath(page, totalPages, baseUrl);
            Config.UrlStep(origin + path, origin,
                           Config.PagePath(Config.GetPageFromUrl(path), totalPages, baseUrl), true) == Config.Unchanged
  {
    Config.PageUrlRoundTrip(page, totalPages, baseUrl);
  }

  /**
   * A path that is not the shell's own spelling of its page is rewritten with
   * a push after back/forward: `/page/05` reads as page 5, whose path is `/page/5`.
   */
  lemma BackForwardToOtherSpellingPushes()
    ensures Config.GetPageFromUrl("/page/05") == 5
    ensures Config.PagePath(5, 10, "") == "/page/5"
    ensures Config.UrlStep("http://x/page/05", "http://x", "/page/5", true) == Config.Push("/page/5")
  {
    var path := "/page/05";
    assert Config.MatchAt(path, 0);
    assert Config.FindPageSegment(path, 0) == Some(0);
    Text.DigitRunOfDigitSuffix(path, 6);
    assert path[6..] == "05";
    assert Text.ParseDecimal("05") == 5 by {
      assert "05"[..1] == "0";
    }
  }

  class App {
    const baseUrl: string
    const history: Config.History
    var currentPage: int
    var totalPages: int
    var zoomLevel: real
    /** The zoom level in quarter steps: zoomLevel == zoomSteps * 0.25. */
    ghost var zoomSteps: int
    var isLoading: bool
    var imageUrls: seq<string>
    var isTwoPageSpread: bool
    /** `isInitialUrlSync.current` */
    var isInitialUrlSync: bool
    /** `pageFlipInstanceRef.current` */
    var pageFlipInstance: Engine.PageFlip?

    ghost predicate Valid()
      reads this, history
    {
      && history.Valid()
      && totalPages >= 1
      && 4 <= zoomSteps <= 10
      && zoomLevel == zoomSteps as real * ZOOM_STEP
    }

    constructor (history: Config.History, baseUrl: string)
      requires history.Valid()
      ensures Valid() && this.history == history && this.baseUrl == baseUrl
      ensures currentPage == Config.GetPageFromUrl(history.Current()) && currentPage >= 1
      ensures totalPages == 1 && zoomLevel == ZOOM_MIN && isLoading && imageUrls == []
      ensures isTwoPageSpread && isInitialUrlSync && pageFlipInstance == null
    {
      this.history := history;
      this.baseUrl := baseUrl;
      currentPage := Config.GetPageFromUrl(history.Current());
      totalPages := 1;
      zoomLevel := 1.0;
      zoomSteps := 4;
      isLoading := true;
      imageUrls := [];
      isTwoPageSpread := true;
      isInitialUrlSync := true;
      pageFlipInstance := null;
    }

    /** `handleFlipbookReady`: keeps the engine and takes its page count when above 1. */
    method HandleFlipbookReady(instance: Engine.PageFlip?)
      requires Valid()
      modifies this`pageFlipInstance, this`totalPages
      ensures Valid() && pageFlipInstance == instance
      ensures instance != null && instance.pageCount > 1 ==> totalPages == instance.pageCount
      ensures !(instance != null && instance.pageCount > 1) ==> totalPages == old(totalPages)
    {
      pageFlipInstance := instance;
      if instance != null {
        var count := instance.pageCount;
        if count > 1 {
          totalPages := count;
        }
      }
    }

    /** `handlePageChange`: stores the requested page clamped to [1, totalPages]. */
    method HandlePageChange(page: int)
      requires Valid()
      modifies this`currentPage
      ensures Valid() && currentPage == Config.SafePage(page, totalPages)
      ensures 1 <= currentPage <= totalPages
      ensures 1 <= page <= totalPages ==> currentPage == page
    {
      var total := if totalPages == 0 then 1 else totalPages;
      currentPage := Max(1, Min(page, total));
    }

    /**
     * `handlePrev`: with a trampoline in place, starts an animated turn in
     * the book and leaves the page alone; otherwise steps back, not below 1.
     */
    method HandlePrev(book: FlipBook.FlipBook)
      requires Valid()
      modifies this`currentPage, book`isFlipping, book`steps
      ensures Valid()
      ensures old(book.prevTarget) != null ==>
                currentPage == old(currentPage) && book.isFlipping &&
                book.steps == old(book.steps) + [FlipBook.SetFlipping(true), FlipBook.CallFlipPrev]
      ensures old(book.prevTarget) == null ==>
                currentPage == Max(1, old(currentPage) - 1) &&
                book.isFlipping == old(book.isFlipping) && book.steps == old(book.steps)
    {
      if book.prevTarget != null {
        book.PrevTrampoline();
      } else {
        currentPage := Max(1, currentPage - 1);
      }
    }

    /**
     * `handleNext`: with a trampoline in place, starts an animated turn in
     * the book and leaves the page alone; otherwise steps forward, not past
     * the page count.
     */
    method HandleNext(book: FlipBook.FlipBook)
      requires Valid()
      modifies this`currentPage, book`isFlipping, book`steps
      ensures Valid()
      ensures old(book.nextTarget) != null ==>
                currentPage == old(currentPage) && book.isFlipping &&
                book.steps == old(book.steps) + [FlipBook.SetFlipping(true), FlipBook.CallFlipNext]
      ensures old(book.nextTarget) == null ==>
                currentPage == Min(totalPages, old(currentPage) + 1) &&
                book.isFlipping == old(book.isFlipping) && book.steps == old(book.steps)
    {
      if book.nextTarget != null {
        book.NextTrampoline();
      } else {
        currentPage := Min(totalPages, currentPage + 1);
      }
    }

    /** `handleZoomIn`: one quarter step up, saturating at 2.5. */
    method HandleZoomIn()
      requires Valid()
      modifies this`zoomLevel, this`zoomSteps
      ensures Valid() && ZOOM_MIN <= zoomLevel <= ZOOM_MAX
      ensures zoomLevel == (if old(zoomLevel) + ZOOM_STEP <= ZOOM_MAX then old(zoomLevel) + ZOOM_STEP else ZOOM_MAX)
      ensures zoomLevel == old(zoomLevel) + ZOOM_STEP || zoomLevel == ZOOM_MAX
    {
      if zoomLevel + ZOOM_STEP <= ZOOM_MAX {
        zoomLevel := zoomLevel + ZOOM_STEP;
        zoomSteps := zoomSteps + 1;
      } else {
        zoomLevel := ZOOM_MAX;
        zoomSteps := 10;
      }
    }

    /** `handleZoomOut`: one quarter step down, saturating at 1. */
    method HandleZoomOut()
      requires Valid()
      modifies this`zoomLevel, this`zoomSteps
      ensures Valid() && ZOOM_MIN <= zoomLevel <= ZOOM_MAX
      ensures zoomLevel == (if old(zoomLevel) - ZOOM_STEP >= ZOOM_MIN then old(zoomLevel) - ZOOM_STEP else ZOOM_MIN)
      ensures zoomLevel == old(zoomLevel) - ZOOM_STEP || zoomLevel == ZOOM_MIN
    {
      if zoomLevel - ZOOM_STEP >= ZOOM_MIN {
        zoomLevel := zoomLevel - ZOOM_STEP;
        zoomSteps := zoomSteps - 1;
      } else {
        zoomLevel := ZOOM_MIN;
        zoomSteps := 4;
      }
    }

    /** `handleFlipbookState`: takes the image list and spread mode; the page count only from a non-empty list. */
    method HandleFlipbookState(urls: seq<string>, isWide: bool)
      requires Valid()
      modifies this`imageUrls, this`isTwoPageSpread, this`totalPages
      ensures Valid() && imageUrls == urls && isTwoPageSpread == isWide
      ensures urls != [] ==> totalPages == |urls|
      ensures urls == [] ==> totalPages == old(totalPages)
    {
      imageUrls := urls;
      isTwoPageSpread := isWide;
      if |urls| > 0 {
        totalPages := |urls|;
      }
    }

    /** `handleLoadStateChange`: hides the loader on readiness, an error or content. */
    method HandleLoadStateChange(s: FlipBook.LoadState)
      modifies this`isLoading
      ensures isLoading == (old(isLoading) && !ClearsLoader(s))
    {
      if s.isReady || Truthy(s.error) || s.hasContent {
        isLoading := false;
      }
    }

    /** The loader's safety timeout has fired. */
    method OnLoaderTimeout()
      modifies this`isLoading
      ensures !isLoading
    {
      isLoading := false;
    }

    /**
     * The URL sync effect, run after a change of page or page count: the
     * first run replaces the history entry, every later run pushes.
     */
    method SyncUrl() returns (step: Config.HistoryStep)
      requires Valid()
      modifies this`isInitialUrlSync, history
      ensures Valid() && !isInitialUrlSync
      ensures step == Config.UrlStep(old(history.Href()), history.origin,
                                     Config.PagePath(currentPage, totalPages, baseUrl), !old(isInitialUrlSync))
      ensures step.Push? ==> !old(isInitialUrlSync)
      ensures step.Replace? ==> old(isInitialUrlSync)
      ensures history.Current() == Config.PagePath(currentPage, totalPages, baseUrl)
      ensures old(history.Href()) == history.origin + Config.PagePath(currentPage, totalPages, baseUrl) ==>
                step.Unchanged? && history.entries == old(history.entries) && history.pos == old(history.pos)
      ensures step.Unchanged? ==> history.entries == old(history.entries) && history.pos == old(history.pos)
      ensures step.Push? ==> history.entries == old(history.entries[..history.pos + 1]) + [step.path] &&
                             history.pos == old(history.pos) + 1
      ensures step.Replace? ==> history.entries == old(history.entries[history.pos := step.path]) &&
                                history.pos == old(history.pos)
    {
      var push := !isInitialUrlSync;
      step := Config.UpdateUrlForPage(history, currentPage, totalPages, push, baseUrl);
      isInitialUrlSync := false;
    }

    /**
     * `handlePageChangeWithUrl`: a page from the book or the footer is stored
     * and pushed; the location then already holds the page's path, so the
     * URL sync that follows adds no second entry (see `SyncUrl`).
     */
    method HandlePageChangeWithUrl(page: int) returns (step: Config.HistoryStep)
      requires Valid()
      modifies this`currentPage, history
      ensures Valid() && currentPage == page
      ensures !step.Replace?
      ensures step == Config.UrlStep(old(history.Href()), history.origin,
                                     Config.PagePath(page, totalPages, baseUrl), true)
      ensures history.Current() == Config.PagePath(page, totalPages, baseUrl)
      ensures history.Href() == history.origin + Config.PagePath(currentPage, totalPages, baseUrl)
      ensures step.Unchanged? ==> history.entries == old(history.entries) && history.pos == old(history.pos)
      ensures step.Push? ==> history.entries == old(history.entries[..history.pos + 1]) + [step.path] &&
                             history.pos == old(history.pos) + 1
    {
      currentPage := page;
      step := Config.UpdateUrlForPage(history, page, totalPages, true, baseUrl);
    }

    /**
     * The `popstate` handler: reads the page from the location and, when an
     * engine is known, turns it to that page's index clamped to its pages.
     */
    method OnPopState()
      requires Valid()
      modifies this`currentPage, pageFlipInstance
      ensures Valid() && currentPage == Config.GetPageFromUrl(history.Current()) && currentPage >= 1
      ensures pageFlipInstance != null ==>
                pageFlipInstance.index == PopStateIndex(currentPage, pageFlipInstance.pageCount) &&
                0 <= pageFlipInstance.index < Max(1, pageFlipInstance.pageCount)
    {
      var page := Config.GetPageFromUrl(history.Current());
      currentPage := page;
      var pf := pageFlipInstance;
      if pf != null {
        var count := if pf.pageCount == 0 then 1 else pf.pageCount;
        pf.TurnToPage(Max(0, Min(page - 1, count - 1)));
      }
    }
  }
}
