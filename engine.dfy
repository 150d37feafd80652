/**
 * The third-party page-turn engine (`PageFlip` from the `page-flip` package),
 * reduced to what the program relies on: its page size and mode, its page
 * count, the index of the page it shows, `turnToPage`, `flipPrev`/`flipNext`
 * and `destroy`. Its animation and drawing are outside the model; a flip it
 * animates reaches the program as `flip` and `changeState` events.
 */
module Engine {
  import Layout

  class PageFlip {
    const width: int
    const height: int
    const portrait: bool
    const pageCount: nat
    var index: int
    var destroyed: bool

    /** `new PageFlip(el, {width, height, usePortrait, startPage, ...})` then `loadFromImages`. */
    constructor (size: Layout.EngineSize, startPage: int, pageCount: nat)
      ensures width == size.width && height == size.height && portrait == !size.isWide
      ensures this.pageCount == pageCount && index == startPage && !destroyed
    {
      width := size.width;
      height := size.height;
      portrait := !size.isWide;
      this.pageCount := pageCount;
      index := startPage;
      destroyed := false;
    }

    /** Shows the page at index i at once, without animation. */
    method TurnToPage(i: int)
      modifies this
      ensures index == i && destroyed == old(destroyed)
    {
      index := i;
    }

    /** An animated turn has come to rest on index i; the engine then fires `flip` with i. */
    method Settle(i: int)
      modifies this
      ensures index == i && destroyed == old(destroyed)
    {
      index := i;
    }

    /** Starts an animated turn back; the settled index arrives with a later `flip` event. */
    method FlipPrev() {
    }

    /** Starts an animated turn forward; the settled index arrives with a later `flip` event. */
    method FlipNext() {
    }

    method Destroy()
      modifies this
      ensures destroyed && index == old(index)
    {
      destroyed := true;
    }
  }
}
