# Flipbook viewer — a Dafny model of its page state, layout and URL sync

The flipbook app shows a PDF magazine as a page-turning book in the browser.
Its core is small but stateful:

- the shell (`App`) owns the current page, the page count, the zoom level,
  the loader flag and the two-page spread flag, and keeps the current page
  in the address bar as `/page/N` through browser history;
- the `FlipBook` component loads a manifest of page images, sizes the book
  for the window, drives a third-party page-turn engine, and keeps that
  engine and the shell's current page in step through two refs
  (`lastReportedPageRef`, `isFlippingRef`);
- the `Footer` shows the page label ("3-4 / 12") and a page slider.

This project models that core in Dafny and proves properties of it.

| module | file | models |
|---|---|---|
| `Wrappers` | wrappers.dfy | `Option` and `Result` |
| `Text` | text.dfy | decimal printing and parsing, as used by template literals, `parseInt` and `\d+` |
| `JsMath` | jsmath.dfy | `Math.max`, `Math.min`, `Math.round` |
| `Config` | config.dfy | `getBase`, `getPageFromUrl`, `updateUrlForPage`, and a browser history (`History` class: entry list and position) |
| `Layout` | layout.dfy | `updateDimensions` and the engine size computed in `init` |
| `Decoration` | decoration.dfy | page progress, page-edge stacks and the cover clip |
| `Manifest` | manifest.dfy | the manifest load's outcome and the page-URL resolution |
| `Engine` | engine.dfy | the page-turn engine as the adapter sees it: page count, current index, destroyed flag |
| `FlipBook` | flipbook.dfy | the adapter's sync decision, load report, and a `FlipBook` class holding its refs and state, with the engine's event handlers, the prev/next trampolines, the sync and teardown |
| `App` | app.dfy | the shell as an `App` class: its handlers, the URL-sync effect, the `popstate` handler and the loader timeout |
| `Footer` | footer.dfy | the page label and slider |

Design points:

- **Shared state.** The engine is a class instance shared by reference:
  - the `FlipBook` builds it and keeps it in `pageFlip`;
  - it hands it to the shell through `onFlipbookReady`;
  - its trampolines call it;
  - the shell's `popstate` handler turns it.

  The shell's `HandlePrev`/`HandleNext` take the `FlipBook` object and call its trampolines when these are set.
- **Order of actions.** The adapter records its ref writes and engine calls in a ghost `steps` trace. The contracts therefore state the order the source relies on. For example:
  - the sync writes `lastReportedPageRef` before it calls `turnToPage`;
  - a trampoline sets `isFlippingRef` before it calls `flipPrev`/`flipNext`;
  - teardown clears the trampolines, then destroys the engine, then clears readiness.
- **Inputs from outside.** I/O and the browser enter as parameters:
  - measured boxes and the window size;
  - the manifest response;
  - the `flip` and `changeState` event data;
  - whether an engine call throws;
  - the history's origin and current path.

## Model

| member | source | states |
|---|---|---|
| Text.DigitRun | src/config.js:14 | the `\d+` group: a run of digits starting at the position, maximal (the next character is not a digit), and a slice of the input |
| Text.ParseNatToString | src/config.js:15 | `parseInt` of a decimal page number as the template literal writes it gives that number back |
| JsMath.Round | src/components/Footer.jsx:26 | `Math.round`: the result is within half a unit of the argument (ties upward) |
| Config.GetBase | src/config.js:7-10 | the base ends in `/`; an empty base URL gives `/`; otherwise the base URL is kept as a prefix and at most one `/` is added, none when it already ends in `/` |
| Config.FindPageSegment | src/config.js:14 | the regex search: `None` means no `/page/<digit>` anywhere from the start position on; `Some(j)` is a match with none before it (leftmost) |
| Config.GetPageFromUrl | src/config.js:13-16 | the page read from the path is at least 1, and 1 when the path has no `/page/<digits>` segment |
| Config.SafePage | src/config.js:21 | the page written is in [1, max(1, total)], equal to the page when in range, 1 below, the total above |
| Config.BasePath | src/config.js:22 | the base `/` gives an empty base path; any other base is its base path plus the trailing `/` |
| Config.PagePath | src/config.js:23-24 | the written path is absolute (non-empty, starts with `/`) |
| Config.PagePathShape | src/config.js:22-24 | page 1 is written as the base path (or `/`), every other page as `<basePath>/page/<n>` |
| Config.PageUrlRoundTrip | src/config.js:13-24 | reading back the path written for a page in [1, total] gives that page, for every base without a `/page/<digit>` segment of its own |
| Config.UrlStep | src/config.js:25-31 | history is left alone exactly when the location already equals origin + path; otherwise push exactly when `push`, else replace, both with the path |
| Config.History.PushState | src/config.js:28 | a push drops the forward entries, appends the path and moves onto it |
| Config.History.ReplaceState | src/config.js:30 | a replace overwrites the current entry only |
| Config.UpdateUrlForPage | src/config.js:19-33 | the step taken is `UrlStep` of the old location; afterwards the current entry is the page's path; the entries change exactly as that step says |
| Layout.UpdateContainer | src/components/FlipBook.jsx:71-76 | the container used is at least 100 px each way; a measured box of at least 100 px each way is used as is; a measured width or a measured height in (0, 100) replaces both sides by the fallbacks |
| Layout.InitContainer | src/components/FlipBook.jsx:159-162 | each side is replaced independently; a side of at least 100 px is kept |
| Layout.Raw | src/components/FlipBook.jsx:78-86 | spread mode exactly from 1024 px; the page width is the smaller of the two width limits; the page height is within the available height |
| Layout.UpdateDimensions | src/components/FlipBook.jsx:63-95 | the displayed page is at least 200 x 300; the width and height are the unclamped values lifted to those minimums; the canvas width is twice the unclamped width in spread mode |
| Layout.InitSize | src/components/FlipBook.jsx:150-170 | the engine's page is at least 200 x 300; its width is the unclamped width lifted to 200 and its height the unclamped height lifted to 300 (although the source takes it from the clamped width); spread mode from a 1024 px container |
| Layout.HeightFromClampedWidth | src/components/FlipBook.jsx:169-170 | taking the height from the width lifted to 200 px gives the same engine height as lifting the unclamped height to 300 px |
| Layout.RawHeightFollowsWidth | src/components/FlipBook.jsx:79-86 | the unclamped height always equals floor(width x 792 / 612): the height limit never binds |
| Layout.SpreadModeAtBreakpoint | src/components/FlipBook.jsx:78 | with usable measurements, both computations show two pages exactly when the measured width is at least 1024 |
| Layout.AspectRatioKept | src/components/FlipBook.jsx:79-94 | when no minimum applies, the displayed page keeps the 612:792 ratio up to the floor |
| Layout.PageSizeBounds | src/components/FlipBook.jsx:80-94 | the unclamped size respects the height limit, the container limit and the available height; the displayed size is never below it |
| Layout.UpdateAndInitAgree | src/components/FlipBook.jsx:150-170 | with both measured sides at least 100 px, the engine gets the same width, height and mode as the display (`updateDimensions`, lines 63-95) |
| Layout.UpdateAndInitDisagreeOnOneSidedFallback | src/components/FlipBook.jsx:159-162 | a 1200 x 50 box in a 1100 x 900 window gives 514 px to the display and 596 px to the engine |
| Layout.TotalWidthBelowTwoPages | src/components/FlipBook.jsx:87-91 | in a wide, short container the canvas (296 px) is narrower than two displayed pages (2 x 200 px) |
| Decoration.PageProgress | src/components/FlipBook.jsx:49 | progress is 0 for books of at most one page, in [0, 1] for a page in range, 0 on the first page and 1 on the last |
| Decoration.ProgressMonotone | src/components/FlipBook.jsx:49 | progress never decreases as the page increases |
| Decoration.SinglePageStacks | src/components/FlipBook.jsx:49-52 | a book of at most one page shows no left stack and a full 8 px right stack |
| Decoration.StackBounds | src/components/FlipBook.jsx:51-52 | for a page in range the right stack is 4-8 px and the left 0-8 px; no left stack on page 1; the 4 px minimum on the last page |
| Decoration.StacksMonotone | src/components/FlipBook.jsx:51-52 | turning forward never shrinks the left stack nor grows the right one |
| Decoration.RightStackPx | src/components/FlipBook.jsx:51 | the right stack is never below 4 px, is 8 px for a book of at most one page, and at most 8 px for a page in range |
| Decoration.LeftStackPx | src/components/FlipBook.jsx:52 | the left stack is 0 for a book of at most one page and within 0-8 px for a page in range |
| Decoration.IsCover | src/components/FlipBook.jsx:50 | on the cover no progress has been made, and page 1 shows no left stack |
| Decoration.ClipWidth | src/components/FlipBook.jsx:59 | the visible box is one page wide on a wide cover and the whole canvas otherwise |
| Decoration.CanvasShift | src/components/FlipBook.jsx:60 | on a wide cover the canvas moves left by exactly the visible box's width; otherwise it is not moved |
| Decoration.CoverShowsRightHalf | src/components/FlipBook.jsx:55-60 | on a wide cover the visible window [width, 2 width) lies inside the canvas exactly when the 200 px width minimum did not apply, and is then exactly the right half of the canvas |
| Manifest.PagesBasePath | src/components/FlipBook.jsx:127 | the pages path is absolute |
| Manifest.StripLeadingSlash | src/components/FlipBook.jsx:129 | exactly one leading `/` is removed, and nothing else |
| Manifest.PageUrls | src/components/FlipBook.jsx:128-131 | one URL per file name, in order |
| Manifest.ResolveManifest | src/components/FlipBook.jsx:118-139 | a success holds one URL per listed file name and needs a non-empty list; a failed fetch and unreadable JSON fail with their own message |
| Manifest.ResolveSucceedsExactly | src/components/FlipBook.jsx:118-132 | the load succeeds exactly for an ok response with a non-empty `pages` list; the not-found and no-pages messages |
| Manifest.ResolvedUrls | src/components/FlipBook.jsx:126-131 | each URL is origin + pages path + `/` + the file name without its leading `/`, and the file name can be read back from it |
| Manifest.ResolvedUrlsDistinct | src/components/FlipBook.jsx:128-131 | distinct file names give distinct image URLs |
| FlipBook.FlippedPage | src/components/FlipBook.jsx:194-195 | the reported page is the event's index + 1, and page 1 for non-numeric data |
| FlipBook.StartIndex | src/components/FlipBook.jsx:182 | the start index is a valid page index, and the current page's index when it is in range |
| FlipBook.SyncDecision | src/components/FlipBook.jsx:271-285 | the engine is turned iff it exists, is ready, the page is in range, not last reported, no flip animates and the engine is elsewhere; the target is the page's index |
| FlipBook.SyncNoRedundantJump | src/components/FlipBook.jsx:275 | the page last reported never causes a turn |
| FlipBook.SyncWaitsForFlip | src/components/FlipBook.jsx:276 | nothing is turned while a flip animates |
| FlipBook.SyncSettlesEngine | src/components/FlipBook.jsx:278-283 | once past the guards the engine ends on the page's index, and the flip event for that index reports the same page |
| FlipBook.SyncQuietAfterReport | src/components/FlipBook.jsx:192-199 | a page reported by a flip and echoed back as the current page never turns the engine again (no feedback loop) |
| FlipBook.LoadReport | src/components/FlipBook.jsx:291-294 | content iff images exist; loading iff there are neither images nor an error; error and readiness passed through |
| FlipBook.MessageOr | src/components/FlipBook.jsx:136 | a non-empty message is kept; an empty one is replaced by the fallback, so the result is non-empty when the fallback is |
| FlipBook.FlipBook.constructor | src/components/FlipBook.jsx:33-45 | default dimensions, not ready, no error, no images, no engine, not flipping, last reported = the initial page |
| FlipBook.FlipBook.UpdateDimensions | src/components/FlipBook.jsx:63-65 | without an element nothing changes; otherwise the dimensions become `Layout.UpdateDimensions` |
| FlipBook.FlipBook.LoadManifest | src/components/FlipBook.jsx:116-143 | nothing changes once cancelled; on success the image list; on failure the error (with fallback) and an immediate report with the raw message |
| FlipBook.FlipBook.StartEngineEffect | src/components/FlipBook.jsx:146-148 | a non-empty image list starts a fresh, uncancelled engine effect |
| FlipBook.FlipBook.Init | src/components/FlipBook.jsx:150-247 | no container: nothing; a construction error: recorded and reported; else a fresh engine with the engine size, one page per image and the clamped start index |
| FlipBook.FlipBook.OnEngineReady | src/components/FlipBook.jsx:205-214 | unless cancelled: ready, the engine announced, both trampolines bound to it, a redraw scheduled |
| FlipBook.FlipBook.OnFlip | src/components/FlipBook.jsx:192-199 | the engine rests on the event's index (unchanged for non-numeric data); flipping ends, then the page is recorded as last reported, then reported |
| FlipBook.FlipBook.OnChangeState | src/components/FlipBook.jsx:201-203 | flipping exactly when the state is `flipping` |
| FlipBook.FlipBook.PrevTrampoline | src/components/FlipBook.jsx:210 | marks flipping, then flips back |
| FlipBook.FlipBook.NextTrampoline | src/components/FlipBook.jsx:211 | marks flipping, then flips forward |
| FlipBook.FlipBook.SyncToPage | src/components/FlipBook.jsx:271-285 | does nothing on `Skip`; on `Turn` records the page, then turns the engine and redraws; a throwing turn leaves the page recorded and the engine where it was |
| FlipBook.ReaderFlipThenExternalPage | src/components/FlipBook.jsx:192-203 | after the reader flips a five-page book to page 3, asking for page 1 turns the engine back to index 0 and records page 1 (the sync reads the engine's settled index, line 279) |
| FlipBook.FlipBook.Teardown | src/components/FlipBook.jsx:251-261 | cancelled, trampolines cleared, then the engine destroyed (a throw swallowed) and dropped, then not ready |
| App.PopStateIndex | src/App.jsx:175 | the index turned to on back/forward is valid for the engine and is the page's index when in range |
| App.LoaderClearedByReports | src/App.jsx:189-191 | a report hides the loader iff ready, with images or with a non-empty error; the deferred error report always hides it; the immediate error report does only for a non-empty message |
| App.BackForwardDoesNotPush | src/App.jsx:160-181 | going back or forward to a path the app wrote leads the URL sync to leave history alone |
| App.BackForwardToOtherSpellingPushes | src/App.jsx:168-172 | `/page/05` reads as page 5, written `/page/5`, so the sync pushes a new entry |
| App.App.constructor | src/App.jsx:15-29 | current page from the URL, one page, zoom 1, loading, spread mode, first URL sync pending, no engine |
| App.App.HandleFlipbookReady | src/App.jsx:40-46 | keeps the engine; takes its page count only when above 1 |
| App.App.HandlePageChange | src/App.jsx:49-53 | the page stored is clamped to [1, total] and equals the requested page when in range |
| App.App.HandlePrev | src/App.jsx:55-62 | with a trampoline: flips back through it and leaves the page; without: one page back, not below 1 |
| App.App.HandleNext | src/App.jsx:64-71 | with a trampoline: flips forward through it and leaves the page; without: one page forward, not past the count |
| App.App.HandleZoomIn | src/App.jsx:73-75 | zoom rises by 0.25 or saturates at 2.5, and stays a quarter step in [1, 2.5] |
| App.App.HandleZoomOut | src/App.jsx:77-79 | zoom falls by 0.25 or saturates at 1, and stays a quarter step in [1, 2.5] |
| App.App.HandleFlipbookState | src/App.jsx:183-187 | images and mode taken; the page count only from a non-empty list |
| App.App.HandleLoadStateChange | src/App.jsx:189-191 | the loader is hidden exactly on a report that clears it, and never shown again |
| App.App.OnLoaderTimeout | src/App.jsx:155-158 | the loader is hidden |
| App.App.SyncUrl | src/App.jsx:160-166 | the first run replaces, later runs push (when the location differs); the current entry is the page's path; a location already there is left alone |
| App.App.HandlePageChangeWithUrl | src/App.jsx:193-196 | stores the page and never replaces; afterwards the location holds the page's path, so the following sync adds no second entry |
| App.App.OnPopState | src/App.jsx:168-181 | the page comes from the location; a known engine is turned to its clamped index |
| Footer.StartPage | src/components/Footer.jsx:13-15 | in spread mode the label starts at the odd page of the pair holding the current page (1 for pages below 1); otherwise at the current page |
| Footer.EndPage | src/components/Footer.jsx:16 | in spread mode the label ends on the pair's second page when that is within the book, and on the page count otherwise |
| Footer.ShowsRange | src/components/Footer.jsx:20 | for a current page not past the count, a range label names a pair (start, start + 1) inside the book |
| Footer.PageRangeText | src/components/Footer.jsx:17-22 | `1 / 1` for at most one page; otherwise `<start>-<end> / <total>` when a range is shown and `<current> / <total>` when not, so it always ends in ` / <total>` |
| Footer.RangePastLastPage | src/components/Footer.jsx:13-22 | page 50 of a 12-page book in spread mode is labelled `49-12 / 12` |
| Footer.ClampedPageRangeText | src/components/Footer.jsx:17-22 | the label of the page clamped into the book: the same label for a page in range, the last page's label past the end |
| Footer.ClampedRangeWithinBook | src/components/Footer.jsx:13-22 | with the page clamped, a two-page label names a forward pair inside the book holding the page shown, or the odd last page alone |
| Footer.RangeUnlessOddLastPage | src/components/Footer.jsx:13-22 | in spread mode the label names a pair holding the current page, except on the odd last page, which stands alone |
| Footer.SinglePageModeShowsCurrentPage | src/components/Footer.jsx:17-22 | in single-page mode the label is `<page> / <total>` |
| Footer.SliderMax | src/components/Footer.jsx:57 | the slider's upper bound is at least 1 and at least the page count, and equals the count for a non-empty book |
| Footer.SliderDisabled | src/components/Footer.jsx:60 | the slider is disabled exactly for a page count of at most 1 |
| Footer.SliderDisabledIffSinglePosition | src/components/Footer.jsx:57-60 | the slider is disabled exactly when its range holds one position |
| Footer.SliderPage | src/components/Footer.jsx:24-28 | the selected page is in [1, max(1, total)], equals `SafePage` of the rounded value, and lies within half a page of an in-range value |
| Footer.SliderSelectsWholePage | src/components/Footer.jsx:24-28 | a whole page in range selects itself |

## Findings

| source | as written | input that shows it | evidently intended | confidence | as-written member | corrected member |
|---|---|---|---|---|---|---|
| src/components/Footer.jsx:13-22 | the label is built from `currentPage` unclamped, while the URL (`src/config.js:21`) and the engine's start page (`src/components/FlipBook.jsx:182`) clamp it to the book | a deep link `/page/50` to a 12-page book in spread mode: `currentPage` stays 50, and the label reads `49-12 / 12` | the label names the page actually shown, clamped to [1, totalPages] | medium, not executed | Footer.RangePastLastPage | Footer.ClampedRangeWithinBook |

## Left out

- The page-turn engine's internals (animation, rendering, gestures) and the high-DPI canvas patch (`src/components/FlipBook.jsx:218-237`). The engine is reduced to its page count, current index and destroyed flag. `flipPrev`/`flipNext` change nothing the adapter can see until the engine's own `flip` event; the engine's settling on the event's index is modelled as part of `OnFlip` (`Engine.PageFlip.Settle`).
- Timers. The 250 ms `init` delay, the 150 ms resize debounce, `requestAnimationFrame` and the 15 s loader timeout become explicit method calls (`Init`, `UpdateDimensions`, the `RenderUpdate` step, `OnLoaderTimeout`). Cancelling a pending timer is the `cancelled` flag.
- `fetch`, JSON parsing and `ResizeObserver`. Their results are parameters: a `ManifestResponse`, and measured boxes of whole pixels.
- Floating point. Page and container sizes are whole pixels, and the ratio is the exact 612/792 = 17/22 with floor division. JavaScript's binary `612 / 792` can differ by one pixel after `Math.floor` at some sizes. Page progress is an exact `real`.
- Engine.PageFlip.TurnToPage: a programmatic turn fires no `flip` event in the model, so it does not refresh `lastReportedPageRef`. After `OnPopState` turns the engine directly, asking again for the last reported page makes the sync skip while the engine shows another page. Whether the real engine reports such a turn is not visible in the program's own code.
- App.App.HandlePrev, App.App.HandleNext: an exception thrown by the trampoline (`src/App.jsx:58`, `src/App.jsx:67`) is not modelled; the engine's `flipPrev`/`flipNext` never throw here.
- FlipBook.FlippedPage: a numeric `flip` payload is taken as a non-negative whole index. Negative or fractional numbers are not modelled.
- The shell reads the page count through `totalPagesRef`, which lags one render behind a `setTotalPages`. The model's handlers read `totalPages` directly.
- The location is the origin plus a path. A query string or fragment in `href` is not modelled; one would make the `href` comparison fail and force a push or replace.
- `onPrevRef`/`onNextRef` are always passed by the shell (`src/App.jsx:251-252`). The `if (onPrevRef)` absent case is not modelled.
- The redraw effect on dimension changes (`src/components/FlipBook.jsx:264-268`), the `onStateChange` effect (287-289, modelled by its receiver `HandleFlipbookState`), and the unmount destroy (296-301, the same as the engine part of `Teardown`).
- The duplicate `getBasePath` (`src/components/FlipBook.jsx:5-8`) is the same computation as `getBase`, so it is modelled by `Config.GetBase`.
- JSX rendering, themes, fullscreen, share, download, print, toasts, the keyboard handler, the header, thumbnails, the loader component, the PDF renderer hook, sound, and the build scripts: presentation or I/O outside the page-state core.

Remarks on the code as written, kept as the model:

- **Pending external page after a flip.** When the current page changes during a flip animation, the sync skips. It does not run again when the flip ends, because its effect depends only on the page, the image count and readiness. `isFlippingRef` is a ref. `FlipBook.SyncWaitsForFlip` states the skip.
- **Dead page-count fallback.** `handlePageChange` (`src/App.jsx:49-53`) is not wired to any component. Its `|| 1` fallback changes nothing, because `SafePage` already yields 1 for a zero total.
- **Footer pairs versus the engine.** The footer pairs pages as 1-2, 3-4, … while the engine is built with `showCover`, which shows the cover alone. The label follows the code.
