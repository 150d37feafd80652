/**
 * The FlipBook component's adapter around the page-turn engine
 * (src/components/FlipBook.jsx): the refs that keep the external current page
 * and the engine in step (`lastReportedPageRef`, `isFlippingRef`,
 * `pageFlipRef`), the engine's event handlers, the prev/next trampolines it
 * hands to the shell, the external-to-engine sync, teardown, and the load
 * state it reports.
 */
module FlipBook {
  import opened Wrappers
  import opened JsMath
  import Layout
  import Manifest
  import Engine

  /** The `data` of a `flip` event: a page index, or something that is not a number. */
  datatype FlipData = Index(i: nat) | NotANumber

  /** The 1-based page a `flip` event reports; non-numeric data counts as index 0. */
  function FlippedPage(data: FlipData): (page: int)
    ensures page >= 1
    ensures data.Index? ==> page - 1 == data.i
    ensures data.NotANumber? ==> page == 1
  {
    match data
    case Index(i) => i + 1
    case NotANumber => 1
  }

  /** The engine's start index: the current page's index, clamped to the loaded pages. */
  function StartIndex(currentPage: int, pageCount: int): (i: int)
    ensures i >= 0
    ensures pageCount >= 1 ==> i < pageCount
    ensures 1 <= currentPage <= pageCount ==> i == currentPage - 1
  {
    Max(0, Min(currentPage - 1, pageCount - 1))
  }

  /** What the external-to-engine sync does for one run of its effect. */
  datatype SyncAction = Skip | Turn(target: int)

  /**
   * The sync decision (lines 271-285): turn the engine to `currentPage - 1`
   * only when an engine exists and is ready, the page is within the loaded
   * pages, it is not the page last reported, no flip is animating, and the
   * engine is not already there.
   */
  function SyncDecision(hasEngine: bool, isReady: bool, currentPage: int, pageCount: int,
                        lastReported: int, isFlipping: bool, engineIndex: int): (a: SyncAction)
    ensures a.Turn? <==>
              hasEngine && isReady && 1 <= currentPage <= pageCount &&
              lastReported != currentPage && !isFlipping && engineIndex != currentPage - 1
    ensures a.Turn? ==> a.target == currentPage - 1 && 0 <= a.target < pageCount
  {
    if !hasEngine || !isReady || currentPage < 1 || currentPage > pageCount then Skip
    else if lastReported == currentPage then Skip
    else if isFlipping then Skip
    else if engineIndex != currentPage - 1 then Turn(currentPage - 1)
    else Skip
  }

  /** Asking for the page already reported never moves the engine. */
  lemma SyncNoRedundantJump(hasEngine: bool, isReady: bool, page: int, pageCount: int,
                            isFlipping: bool, engineIndex: int)
    ensures SyncDecision(hasEngine, isReady, page, pageCount, page, isFlipping, engineIndex) == Skip
  {
  }

  /** While a flip animates, no external page change moves the engine. */
  lemma SyncWaitsForFlip(hasEngine: bool, isReady: bool, currentPage: int, pageCount: int,
                         lastReported: int, engineIndex: int)
    ensures SyncDecision(hasEngine, isReady, currentPage, pageCount, lastReported, true, engineIndex) == Skip
  {
  }

  /**
   * Whenever every guard passes, the engine ends at `currentPage - 1`: it was
   * there already or is turned there; and the `flip` event for that index
   * names `currentPage` again.
   */
  lemma SyncSettlesEngine(isReady: bool, currentPage: int, pageCount: int,
                          lastReported: int, engineIndex: int)
    requires isReady && 1 <= currentPage <= pageCount && lastReported != currentPage
    ensures var a := SyncDecision(true, isReady, currentPage, pageCount, lastReported, false, engineIndex);
            (if a.Turn? then a.target else engineIndex) == currentPage - 1
    ensures var a := SyncDecision(true, isReady, currentPage, pageCount, lastReported, false, engineIndex);
            a.Turn? ==> FlippedPage(Index(a.target)) == currentPage
  {
  }

  /**
   * No feedback loop: after the engine reports a flip and the shell echoes
   * that page back as `currentPage`, the sync does nothing; and a sync that
   * turned the engine does nothing when run again for the same page.
   */
  lemma SyncQuietAfterReport(data: FlipData, hasEngine: bool, isReady: bool, pageCount: int,
                             isFlipping: bool, engineIndex: int)
    ensures var page := FlippedPage(data);
            SyncDecision(hasEngine, isReady, page, pageCount, page, isFlipping, engineIndex) == Skip
  {
  }

  /** What the component passes to `onLoadStateChange`. */
  datatype LoadState = LoadState(isLoading: bool, error: Option<string>, isReady: bool, hasContent: bool)

  /**
   * The load state reported after every change of readiness, error or image
   * count (lines 291-294): loading only while there is neither content nor
   * an error.
   */
  function LoadReport(imageCount: nat, initError: Option<string>, isReady: bool): (s: LoadState)
    ensures s.hasContent <==> imageCount > 0
    ensures s.isLoading <==> imageCount == 0 && initError.None?
    ensures s.error == initError && s.isReady == isReady
  {
    LoadState(imageCount == 0 && initError.None?, initError, isReady, imageCount > 0)
  }

  /** `err.message || fallback`: an empty message is replaced. */
  function MessageOr(message: string, fallback: string): (m: string)
    ensures message != "" ==> m == message
    ensures message == "" ==> m == fallback
    ensures |fallback| > 0 ==> |m| > 0
  {
    if message == "" then fallback else message
  }

  /** The adapter's own actions, in the order it performs them. */
  datatype Step =
    | SetFlipping(on: bool)
    | SetLastReported(page: int)
    | ReportPage(page: int)
    | TurnTo(index: int)
    | RenderUpdate
    | CallFlipPrev
    | CallFlipNext
    | ClearTrampolines
    | DestroyEngine
    | ClearReady

  class FlipBook {
    var dims: Layout.Dims
    var isReady: bool
    var initError: Option<string>
    var imageUrls: seq<string>
    /** `pageFlipRef.current` */
    var pageFlip: Engine.PageFlip?
    /** `isFlippingRef.current` */
    var isFlipping: bool
    /** `lastReportedPageRef.current` */
    var lastReported: int
    /** The engine the shell's `onPrevRef.current` trampoline flips, or null when cleared. */
    var prevTarget: Engine.PageFlip?
    /** The engine the shell's `onNextRef.current` trampoline flips, or null when cleared. */
    var nextTarget: Engine.PageFlip?
    /** The `cancelled` flag of the engine effect now in place. */
    var cancelled: bool
    ghost var steps: seq<Step>

    constructor (currentPage: int)
      ensures dims == Layout.DEFAULT_DIMS && !isReady && initError.None? && imageUrls == []
      ensures pageFlip == null && !isFlipping && lastReported == currentPage
      ensures prevTarget == null && nextTarget == null && !cancelled && steps == []
    {
      dims := Layout.DEFAULT_DIMS;
      isReady := false;
      initError := None;
      imageUrls := [];
      pageFlip := null;
      isFlipping := false;
      lastReported := currentPage;
      prevTarget, nextTarget := null, null;
      cancelled := false;
      steps := [];
    }

    /** `updateDimensions`: re-measures when there is an element to measure. */
    method UpdateDimensions(measured: Option<Layout.Box>, vp: Layout.Viewport)
      modifies this`dims
      ensures measured.None? ==> dims == old(dims)
      ensures measured.Some? ==> dims == Layout.UpdateDimensions(measured.value, vp)
    {
      if measured.Some? {
        dims := Layout.UpdateDimensions(measured.value, vp);
      }
    }

    /**
     * The manifest effect: publishes the image URLs or records the error,
     * and neither once the component has been torn down (`cancelled`). On an
     * error it also returns the load state it reports straight away.
     */
    method LoadManifest(resp: Manifest.ManifestResponse, origin: string, baseUrl: string, cancelled: bool)
      returns (report: Option<LoadState>)
      modifies this`imageUrls, this`initError
      ensures var r := Manifest.ResolveManifest(resp, origin, baseUrl);
              && (cancelled ==> imageUrls == old(imageUrls) && initError == old(initError) && report.None?)
              && (!cancelled && r.Ok? ==> imageUrls == r.value && initError == old(initError) && report.None?)
              && (!cancelled && r.Err? ==>
                    imageUrls == old(imageUrls) &&
                    initError == Some(MessageOr(r.error, "Failed to load flipbook pages")) &&
                    report == Some(LoadState(false, Some(r.error), false, false)))
    {
      report := None;
      var r := Manifest.ResolveManifest(resp, origin, baseUrl);
      if !cancelled {
        match r {
          case Ok(urls) => imageUrls := urls;
          case Err(message) =>
            initError := Some(MessageOr(message, "Failed to load flipbook pages"));
            report := Some(LoadState(false, Some(message), false, false));
        }
      }
    }

    /** The engine effect starts for a non-empty image list: a fresh `cancelled` flag. */
    method StartEngineEffect()
      modifies this`cancelled
      ensures cancelled == (old(cancelled) && imageUrls == [])
    {
      if imageUrls != [] {
        cancelled := false;
      }
    }

    /**
     * The delayed `init`: builds the engine over the image list with the
     * engine size and a start index clamped to the pages, unless the
     * container is missing; a construction error is recorded and reported.
     */
    method Init(measured: Layout.Box, vp: Layout.Viewport, hasContainer: bool, currentPage: int,
                failure: Option<string>)
      returns (report: Option<LoadState>)
      requires imageUrls != [] && !cancelled
      modifies this`pageFlip, this`initError
      ensures !hasContainer ==> pageFlip == old(pageFlip) && initError == old(initError) && report.None?
      ensures hasContainer && failure.Some? ==>
                pageFlip == old(pageFlip) && report.Some? &&
                initError == Some(MessageOr(failure.value, "Failed to initialize flipbook")) &&
                report.value == LoadState(false, initError, false, false)
      ensures hasContainer && failure.None? ==>
                pageFlip != null && fresh(pageFlip) && initError == old(initError) && report.None? &&
                pageFlip.pageCount == |imageUrls| &&
                pageFlip.index == StartIndex(currentPage, |imageUrls|) &&
                0 <= pageFlip.index < pageFlip.pageCount &&
                pageFlip.width == Layout.InitSize(measured, vp).width &&
                pageFlip.height == Layout.InitSize(measured, vp).height &&
                pageFlip.portrait == !Layout.InitSize(measured, vp).isWide && !pageFlip.destroyed
    {
      report := None;
      if hasContainer {
        var size := Layout.InitSize(measured, vp);
        if failure.Some? {
          var message := MessageOr(failure.value, "Failed to initialize flipbook");
          initError := Some(message);
          report := Some(LoadState(false, Some(message), false, false));
        } else {
          pageFlip := new Engine.PageFlip(size, StartIndex(currentPage, |imageUrls|), |imageUrls|);
        }
      }
    }

    /**
     * The engine's `init` event: unless cancelled, marks the book ready,
     * binds both trampolines to that engine and schedules a redraw; returns
     * the engine handed to `onFlipbookReady`.
     */
    method OnEngineReady(engine: Engine.PageFlip) returns (announced: Engine.PageFlip?)
      modifies this`isReady, this`prevTarget, this`nextTarget, this`steps
      ensures cancelled ==> announced == null && isReady == old(isReady) &&
                            prevTarget == old(prevTarget) && nextTarget == old(nextTarget) && steps == old(steps)
      ensures !cancelled ==> announced == engine && isReady &&
                             prevTarget == engine && nextTarget == engine && steps == old(steps) + [RenderUpdate]
    {
      announced := null;
      if !cancelled {
        isReady := true;
        announced := engine;
        prevTarget := engine;
        nextTarget := engine;
        steps := steps + [RenderUpdate];
      }
    }

    /**
     * The `flip` event: the engine has come to rest on the event's index (so
     * its `getCurrentPageIndex()` now answers that index); the animation is
     * over, and the settled page (index + 1) becomes the last reported page
     * and is returned for `onPageChange`.
     */
    method OnFlip(data: FlipData) returns (page: int)
      modifies this`isFlipping, this`lastReported, this`steps, pageFlip
      ensures page == FlippedPage(data) && page >= 1
      ensures !isFlipping && lastReported == page
      ensures steps == old(steps) + [SetFlipping(false), SetLastReported(page), ReportPage(page)]
      ensures pageFlip != null && data.Index? ==> pageFlip.index == data.i
      ensures pageFlip != null && data.NotANumber? ==> pageFlip.index == old(pageFlip.index)
      ensures pageFlip != null ==> pageFlip.destroyed == old(pageFlip.destroyed)
    {
      if pageFlip != null && data.Index? {
        pageFlip.Settle(data.i);
      }
      isFlipping := false;
      steps := steps + [SetFlipping(false)];
      page := FlippedPage(data);
      lastReported := page;
      steps := steps + [SetLastReported(page), ReportPage(page)];
    }

    /** The `changeState` event: flipping exactly when the new state is `flipping`. */
    method OnChangeState(state: string)
      modifies this`isFlipping, this`steps
      ensures isFlipping <==> state == "flipping"
      ensures steps == old(steps) + [SetFlipping(state == "flipping")]
    {
      isFlipping := state == "flipping";
      steps := steps + [SetFlipping(isFlipping)];
    }

    /** The shell's `onPrevRef.current()`: marks a flip in progress, then flips back. */
    method PrevTrampoline()
      requires prevTarget != null
      modifies this`isFlipping, this`steps
      ensures isFlipping
      ensures steps == old(steps) + [SetFlipping(true), CallFlipPrev]
    {
      isFlipping := true;
      steps := steps + [SetFlipping(true)];
      prevTarget.FlipPrev();
      steps := steps + [CallFlipPrev];
    }

    /** The shell's `onNextRef.current()`: marks a flip in progress, then flips forward. */
    method NextTrampoline()
      requires nextTarget != null
      modifies this`isFlipping, this`steps
      ensures isFlipping
      ensures steps == old(steps) + [SetFlipping(true), CallFlipNext]
    {
      isFlipping := true;
      steps := steps + [SetFlipping(true)];
      nextTarget.FlipNext();
      steps := steps + [CallFlipNext];
    }

    /**
     * The external-to-engine sync for the current `currentPage` prop: when
     * the decision is to turn, the page is recorded as last reported BEFORE
     * `turnToPage` is called; an exception from the engine is swallowed (the
     * page stays recorded and the engine does not move).
     */
    method SyncToPage(currentPage: int, turnFails: bool)
      modifies this`lastReported, this`steps, pageFlip
      ensures var a := SyncDecision(pageFlip != null, isReady, currentPage, |imageUrls|,
                                    old(lastReported), isFlipping,
                                    if pageFlip != null then old(pageFlip.index) else -1);
              && (a.Skip? ==> lastReported == old(lastReported) && steps == old(steps) &&
                              (pageFlip != null ==> pageFlip.index == old(pageFlip.index)))
              && (a.Turn? ==> lastReported == currentPage &&
                              pageFlip.index == (if turnFails then old(pageFlip.index) else a.target) &&
                              steps == old(steps) + [SetLastReported(currentPage), TurnTo(a.target)] +
                                       (if turnFails then [] else [RenderUpdate]))
      ensures pageFlip != null ==> pageFlip.destroyed == old(pageFlip.destroyed)
    {
      var engineIndex := if pageFlip != null then pageFlip.index else -1;
      var a := SyncDecision(pageFlip != null, isReady, currentPage, |imageUrls|,
                            lastReported, isFlipping, engineIndex);
      if a.Turn? {
        lastReported := currentPage;
        steps := steps + [SetLastReported(currentPage), TurnTo(a.target)];
        if !turnFails {
          pageFlip.TurnToPage(a.target);
          steps := steps + [RenderUpdate];
        }
      }
    }

    /**
     * The engine effect's cleanup: cancels it, clears both trampolines, then
     * destroys the engine (an exception is swallowed) and drops it, then
     * clears the ready flag.
     */
    method Teardown(destroyFails: bool)
      modifies this`cancelled, this`prevTarget, this`nextTarget, this`pageFlip, this`isReady, this`steps, pageFlip
      ensures cancelled && prevTarget == null && nextTarget == null && pageFlip == null && !isReady
      ensures old(pageFlip) != null ==>
                old(pageFlip).destroyed == (destroyFails ==> old(pageFlip.destroyed)) &&
                old(pageFlip).index == old(pageFlip.index) &&
                steps == old(steps) + [ClearTrampolines, DestroyEngine, ClearReady]
      ensures old(pageFlip) == null ==> steps == old(steps) + [ClearTrampolines, ClearReady]
    {
      cancelled := true;
      prevTarget, nextTarget := null, null;
      steps := steps + [ClearTrampolines];
      if pageFlip != null {
        if !destroyFails {
          pageFlip.Destroy();
        }
        steps := steps + [DestroyEngine];
        pageFlip := null;
      }
      isReady := false;
      steps := steps + [ClearReady];
    }
  }
  /**
   * A turn the reader makes in the engine is seen by the sync: with five
   * pages, the engine built on page 1, the reader flips to index 2 (page 3),
   * and the shell then asks for page 1 again. The engine is no longer on
   * index 0, so the sync records page 1 and turns the engine back to index 0.
   */
  method ReaderFlipThenExternalPage() returns (engineIndex: int, lastReported: int)
    ensures engineIndex == 0 && lastReported == 1
  {
    var book := new FlipBook(1);
    var pages := ["p1.jpg", "p2.jpg", "p3.jpg", "p4.jpg", "p5.jpg"];
    var resp := Manifest.Response(true, 200, Manifest.Parsed(Some(pages)));
    var report := book.LoadManifest(resp, "https://example.org", "/", false);
    assert |book.imageUrls| == 5;
    book.StartEngineEffect();
    report := book.Init(Layout.Box(1200, 800), Layout.Viewport(1280, 900), true, 1, None);
    var engine := book.pageFlip;
    var announced := book.OnEngineReady(engine);
    book.OnChangeState("flipping");
    var page := book.OnFlip(Index(2));
    assert engine.index == 2 && book.lastReported == 3;
    book.OnChangeState("read");
    book.SyncToPage(1, false);
    engineIndex := engine.index;
    lastReported := book.lastReported;
  }
}
