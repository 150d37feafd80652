/**
 * Book layout arithmetic of the FlipBook component
 * (src/components/FlipBook.jsx): the page size and spread mode derived from
 * the measured container box and the window size, computed twice in the
 * source, by `updateDimensions` (for the displayed box) and by `init` (for
 * the page-turn engine), with small differences kept here.
 *
 * Sizes are whole pixels. The page aspect ratio 612/792 is exactly 17/22, so
 * `Math.floor(h * 612 / 792)` is `(h * 17) / 22` and `Math.floor(w / (612 / 792))`
 * or `Math.floor(w * 792 / 612)` is `(w * 22) / 17` (floor division; the
 * divisors are positive).
 */
module Layout {
  import opened JsMath

  const WIDE_BREAKPOINT := 1024
  const MIN_MEASURE := 100
  const MIN_PAGE_WIDTH := 200
  const MIN_PAGE_HEIGHT := 300

  /** A measured box (`getBoundingClientRect`); a side of 0 means nothing was measured. */
  datatype Box = Box(width: int, height: int)

  /** `window.innerWidth` and `window.innerHeight`. */
  datatype Viewport = Viewport(innerWidth: int, innerHeight: int)

  /** The `dimensions` state: page size, the width of the engine's canvas, spread mode. */
  datatype Dims = Dims(width: int, height: int, totalWidth: int, isWide: bool)

  /** The page size and mode given to the engine when it is built. */
  datatype EngineSize = EngineSize(width: int, height: int, isWide: bool)

  /** Page width, page height and mode before the minimum-size clamp. */
  datatype RawLayout = RawLayout(pageWidth: int, pageHeight: int, isWide: bool)

  /** The state before the first measurement: 400 x 560, two pages wide. */
  const DEFAULT_DIMS := Dims(400, 560, 800, true)

  predicate IsMobile(vp: Viewport) {
    vp.innerWidth < WIDE_BREAKPOINT
  }

  function HorizontalPadding(vp: Viewport): int { if IsMobile(vp) then 40 else 64 }
  function VerticalPadding(vp: Viewport): int { if IsMobile(vp) then 96 else 120 }
  function VerticalChrome(vp: Viewport): int { if IsMobile(vp) then 4 else 8 }
  function HorizontalChrome(vp: Viewport): int { if IsMobile(vp) then 12 else 16 }

  /** `measured || fallback`: a measured side of 0 is replaced. */
  function OrElse(measured: int, fallback: int): int {
    if measured == 0 then fallback else measured
  }

  /** The container size first taken from the box, with window estimates for a side of 0. */
  function FirstEstimate(measured: Box, vp: Viewport): Box {
    Box(OrElse(measured.width, Max(200, vp.innerWidth - HorizontalPadding(vp))),
        OrElse(measured.height, Max(280, vp.innerHeight - VerticalPadding(vp))))
  }

  /** `updateDimensions` replaces BOTH sides when either is below 100 px. */
  function UpdateContainer(measured: Box, vp: Viewport): (c: Box)
    ensures c.width >= MIN_MEASURE && c.height >= MIN_MEASURE
    ensures measured.width >= MIN_MEASURE && measured.height >= MIN_MEASURE ==> c == measured
    ensures measured.width < MIN_MEASURE && measured.width != 0 ==>
              c == Box(Max(260, vp.innerWidth - HorizontalPadding(vp)), Max(340, vp.innerHeight - VerticalPadding(vp)))
    ensures measured.height < MIN_MEASURE && measured.height != 0 ==>
              c == Box(Max(260, vp.innerWidth - HorizontalPadding(vp)), Max(340, vp.innerHeight - VerticalPadding(vp)))
  {
    var first := FirstEstimate(measured, vp);
    if first.width < MIN_MEASURE || first.height < MIN_MEASURE then
      Box(Max(260, vp.innerWidth - HorizontalPadding(vp)), Max(340, vp.innerHeight - VerticalPadding(vp)))
    else first
  }

  /** `init` replaces EACH side below 100 px on its own. */
  function InitContainer(measured: Box, vp: Viewport): (c: Box)
    ensures c.width >= MIN_MEASURE && c.height >= MIN_MEASURE
    ensures measured.width >= MIN_MEASURE ==> c.width == measured.width
    ensures measured.height >= MIN_MEASURE ==> c.height == measured.height
  {
    var first := FirstEstimate(measured, vp);
    Box(if first.width < MIN_MEASURE then Max(260, vp.innerWidth - HorizontalPadding(vp)) else first.width,
        if first.height < MIN_MEASURE then Max(340, vp.innerHeight - VerticalPadding(vp)) else first.height)
  }

  function AvailableHeight(c: Box, vp: Viewport): int {
    c.height - VerticalChrome(vp)
  }

  /** The widest page whose height fits: floor(availH * 612 / 792). */
  function WidthFromHeight(availH: int): int {
    (availH * 17) / 22
  }

  /** The widest page the container holds: half of it less a gutter when wide. */
  function WidthFromContainer(c: Box, wide: bool, vp: Viewport): int {
    if wide then c.width / 2 - 4 else c.width - HorizontalChrome(vp)
  }

  /**
   * The unclamped page size for a container (lines 78-86): the smaller of
   * the two width limits, and the height from that width, capped by the
   * available height.
   */
  function Raw(c: Box, vp: Viewport): (r: RawLayout)
    ensures r.isWide <==> c.width >= WIDE_BREAKPOINT
    ensures r.pageWidth <= WidthFromHeight(AvailableHeight(c, vp))
    ensures r.pageWidth <= WidthFromContainer(c, r.isWide, vp)
    ensures r.pageWidth == WidthFromHeight(AvailableHeight(c, vp)) || r.pageWidth == WidthFromContainer(c, r.isWide, vp)
    ensures r.pageHeight <= AvailableHeight(c, vp)
  {
    var wide := c.width >= WIDE_BREAKPOINT;
    var availH := AvailableHeight(c, vp);
    var pageWidth := Min(WidthFromHeight(availH), WidthFromContainer(c, wide, vp));
    RawLayout(pageWidth, Min(availH, (pageWidth * 22) / 17), wide)
  }

  /**
   * `updateDimensions`: the displayed page size, clamped to at least 200 x 300,
   * and the canvas width, which is taken from the UNCLAMPED page width.
   */
  function UpdateDimensions(measured: Box, vp: Viewport): (d: Dims)
    ensures d.width >= MIN_PAGE_WIDTH && d.height >= MIN_PAGE_HEIGHT
    ensures d.isWide <==> UpdateContainer(measured, vp).width >= WIDE_BREAKPOINT
    ensures var r := Raw(UpdateContainer(measured, vp), vp);
            && d.width == Max(MIN_PAGE_WIDTH, r.pageWidth)
            && d.height == Max(MIN_PAGE_HEIGHT, r.pageHeight)
            && d.totalWidth == (if d.isWide then 2 * r.pageWidth else r.pageWidth)
  {
    var r := Raw(UpdateContainer(measured, vp), vp);
    Dims(Max(MIN_PAGE_WIDTH, r.pageWidth), Max(MIN_PAGE_HEIGHT, r.pageHeight),
         if r.isWide then r.pageWidth * 2 else r.pageWidth, r.isWide)
  }

  /**
   * `init`: the size given to the engine; here the height comes from the
   * CLAMPED width (`width * 792 / 612`).
   */
  function InitSize(measured: Box, vp: Viewport): (e: EngineSize)
    ensures e.width >= MIN_PAGE_WIDTH && e.height >= MIN_PAGE_HEIGHT
    ensures e.isWide <==> InitContainer(measured, vp).width >= WIDE_BREAKPOINT
    ensures e.width == Max(MIN_PAGE_WIDTH, Raw(InitContainer(measured, vp), vp).pageWidth)
    ensures e.height == Max(MIN_PAGE_HEIGHT, Raw(InitContainer(measured, vp), vp).pageHeight)
  {
    var c := InitContainer(measured, vp);
    var wide := c.width >= WIDE_BREAKPOINT;
    var availH := AvailableHeight(c, vp);
    var width := Max(MIN_PAGE_WIDTH, Min(WidthFromHeight(availH), WidthFromContainer(c, wide, vp)));
    HeightFromClampedWidth(c, vp);
    EngineSize(width, Max(MIN_PAGE_HEIGHT, Min(availH, (width * 22) / 17)), wide)
  }

  /**
   * Taking the height from the width lifted to 200 px, as `init` does, gives
   * the same engine height as lifting the unclamped height to 300 px: a
   * width under 200 px has a height of at most 257 px, and 200 px gives
   * 258 px, both below the 300 px minimum.
   */
  lemma HeightFromClampedWidth(c: Box, vp: Viewport)
    ensures var r := Raw(c, vp);
            Max(MIN_PAGE_HEIGHT, Min(AvailableHeight(c, vp), (Max(MIN_PAGE_WIDTH, r.pageWidth) * 22) / 17)) ==
            Max(MIN_PAGE_HEIGHT, r.pageHeight)
  {
    var r := Raw(c, vp);
    RawHeightFollowsWidth(c, vp);
    if r.pageWidth < MIN_PAGE_WIDTH {
      DivBy17Monotone(r.pageWidth * 22, 199 * 22);
      assert (200 * 22) / 17 == 258;
    }
  }

  /** Floor division by 17 never reverses the order of two values. */
  lemma DivBy17Monotone(a: int, b: int)
    requires a <= b
    ensures a / 17 <= b / 17
  {
  }

  /**
   * The height limit never binds: a width that fits the available height
   * gives floor(width * 22 / 17) <= availH, so the unclamped height is exactly
   * floor(pageWidth * 792 / 612).
   */
  lemma RawHeightFollowsWidth(c: Box, vp: Viewport)
    ensures var r := Raw(c, vp); r.pageHeight == (r.pageWidth * 22) / 17
  {
    var r := Raw(c, vp);
    var a := AvailableHeight(c, vp);
    var w := r.pageWidth;
    assert w <= (a * 17) / 22;
    assert (a * 17) / 22 * 22 <= a * 17;
    assert w * 22 <= (a * 17) / 22 * 22;
    DivBy17Monotone(w * 22, a * 17);
    assert (a * 17) / 17 == a;
  }

  /**
   * Spread mode is decided by the measured width alone when both measured
   * sides are usable: two pages exactly from 1024 px on, in both computations.
   */
  lemma SpreadModeAtBreakpoint(measured: Box, vp: Viewport)
    requires measured.width >= MIN_MEASURE && measured.height >= MIN_MEASURE
    ensures UpdateDimensions(measured, vp).isWide <==> measured.width >= WIDE_BREAKPOINT
    ensures InitSize(measured, vp).isWide <==> measured.width >= WIDE_BREAKPOINT
  {
  }

  /**
   * Aspect ratio: when neither minimum applies, the displayed page keeps the
   * 612:792 shape up to the floor, 17 * height <= 22 * width < 17 * (height + 1).
   */
  lemma AspectRatioKept(measured: Box, vp: Viewport)
    requires var r := Raw(UpdateContainer(measured, vp), vp);
             r.pageWidth >= MIN_PAGE_WIDTH && r.pageHeight >= MIN_PAGE_HEIGHT
    ensures var d := UpdateDimensions(measured, vp);
            17 * d.height <= 22 * d.width < 17 * (d.height + 1)
  {
    RawHeightFollowsWidth(UpdateContainer(measured, vp), vp);
  }

  /**
   * The unclamped sizes obey both limits, and the displayed width and height
   * are never below them.
   */
  lemma PageSizeBounds(measured: Box, vp: Viewport)
    ensures var c := UpdateContainer(measured, vp);
            var r := Raw(c, vp);
            var d := UpdateDimensions(measured, vp);
            && r.pageWidth <= WidthFromHeight(AvailableHeight(c, vp))
            && r.pageWidth <= (if r.isWide then c.width / 2 - 4 else c.width - HorizontalChrome(vp))
            && r.pageHeight <= AvailableHeight(c, vp)
            && r.pageWidth <= d.width && r.pageHeight <= d.height
  {
  }

  /**
   * The two computations agree whenever both measured sides are at least
   * 100 px, even when the width minimum applies: a clamped width of 200 gives
   * a height of at most 258, which the height minimum lifts to 300 in both.
   */
  lemma {:induction false} UpdateAndInitAgree(measured: Box, vp: Viewport)
    requires measured.width >= MIN_MEASURE && measured.height >= MIN_MEASURE
    ensures var d := UpdateDimensions(measured, vp);
            InitSize(measured, vp) == EngineSize(d.width, d.height, d.isWide)
  {
    var c := UpdateContainer(measured, vp);
    assert c == InitContainer(measured, vp);
    var r := Raw(c, vp);
    if r.pageWidth < MIN_PAGE_WIDTH {
      DivBy17Monotone(r.pageWidth * 22, 199 * 22);
      assert (r.pageWidth * 22) / 17 <= 257;
      assert (200 * 22) / 17 == 258;
    }
  }

  /**
   * They can disagree when only one side falls back: a 1200 x 50 box in a
   * 1100 x 900 window gives a 514 px page to the display and 596 px to the engine.
   */
  lemma UpdateAndInitDisagreeOnOneSidedFallback()
    ensures UpdateDimensions(Box(1200, 50), Viewport(1100, 900)).width == 514
    ensures InitSize(Box(1200, 50), Viewport(1100, 900)).width == 596
  {
  }

  /**
   * The canvas width comes from the unclamped width, so in a wide but short
   * container it is narrower than two displayed pages: 296 px for two 200 px pages.
   */
  lemma TotalWidthBelowTwoPages()
    ensures var d := UpdateDimensions(Box(1200, 200), Viewport(1400, 900));
            d.isWide && d.width == 200 && d.totalWidth == 296
  {
  }
}
