/**
 * The home page's scroll bubble: each scroll event records the direction,
 * shows the bubble once the user scrolls down past 50 pixels, and fades it
 * with depth. Offsets and opacity are exact reals.
 */
module Home {

  /** The four fields a scroll event updates. */
  datatype ScrollState = ScrollState(isScrolledDown: bool, isScrollingDown: bool, scrollOpacity: real, lastScrollTop: real)

  /** `Math.max` */
  function Max(a: real, b: real): (m: real)
    ensures m >= a && m >= b && (m == a || m == b)
  {
    if a >= b then a else b
  }

  /** The fade: 1 at the top, 0.75 at 50 pixels, down to 0.3 from 140 pixels on. */
  function Fade(scrollTop: real): real {
    Max(0.3, 1.0 - scrollTop / 200.0)
  }

  /**
   * The state after a scroll event at offset `t`. Only moving down past 50 pixels
   * shows the bubble, faded by depth; every other event hides it at full opacity.
   */
  function ScrollStep(s: ScrollState, t: real): (r: ScrollState)
    ensures r.lastScrollTop == t
    ensures r.isScrollingDown <==> t > s.lastScrollTop
    ensures r.isScrolledDown <==> t > s.lastScrollTop && t > 50.0
    ensures r.isScrolledDown ==> r.scrollOpacity == Fade(t) && r.scrollOpacity < 1.0
    ensures !r.isScrolledDown ==> r.scrollOpacity == 1.0
    ensures 0.3 <= r.scrollOpacity <= 1.0
  {
    var down := t > s.lastScrollTop;
    if down && t > 50.0 then ScrollState(true, true, Fade(t), t)
    else ScrollState(false, down, 1.0, t)
  }

  /** The state after a run of scroll events. */
  function Replay(s: ScrollState, offsets: seq<real>): ScrollState
    decreases |offsets|
  {
    if offsets == [] then s else Replay(ScrollStep(s, offsets[0]), offsets[1..])
  }

  /** Across any run of events the opacity stays within [0.3, 1] and the last offset is remembered. */
  lemma {:induction false} ReplayKeepsOpacity(s: ScrollState, offsets: seq<real>)
    requires 0.3 <= s.scrollOpacity <= 1.0
    ensures 0.3 <= Replay(s, offsets).scrollOpacity <= 1.0
    ensures offsets != [] ==> Replay(s, offsets).lastScrollTop == offsets[|offsets| - 1]
    decreases |offsets|
  {
    if offsets != [] {
      ReplayKeepsOpacity(ScrollStep(s, offsets[0]), offsets[1..]);
    }
  }

  /**
   * An event at the offset already remembered counts as "not scrolling down", so it
   * hides the bubble: `onScrollEnd` right after `onScroll` at the same offset always does.
   */
  lemma RepeatedOffsetHides(s: ScrollState, t: real)
    ensures !ScrollStep(ScrollStep(s, t), t).isScrolledDown
    ensures ScrollStep(ScrollStep(s, t), t).scrollOpacity == 1.0
  {
  }

  class HomePage {
    var isScrolledDown: bool
    var isScrollingDown: bool
    var scrollOpacity: real
    var lastScrollTop: real
    /** Whether the content's scroll element was obtained after the view was built. */
    var hasScrollElement: bool

    ghost predicate Valid()
      reads this
    {
      0.3 <= scrollOpacity <= 1.0
    }

    function State(): ScrollState
      reads this
    {
      ScrollState(isScrolledDown, isScrollingDown, scrollOpacity, lastScrollTop)
    }

    constructor ()
      ensures Valid() && !hasScrollElement
      ensures State() == ScrollState(false, false, 1.0, 0.0)
    {
      isScrolledDown := false;
      isScrollingDown := false;
      scrollOpacity := 1.0;
      lastScrollTop := 0.0;
      hasScrollElement := false;
    }

    /** `ngAfterViewInit` once the scroll element is found: start from its current offset. */
    method AttachScrollElement(scrollTop: real)
      requires Valid()
      modifies this`hasScrollElement, this`lastScrollTop
      ensures Valid()
      ensures hasScrollElement && lastScrollTop == scrollTop
    {
      hasScrollElement := true;
      lastScrollTop := scrollTop;
    }

    /** `updateScrollState` */
    method UpdateScrollState(scrollTop: real)
      requires Valid()
      modifies this`isScrolledDown, this`isScrollingDown, this`scrollOpacity, this`lastScrollTop
      ensures Valid()
      ensures State() == ScrollStep(old(State()), scrollTop)
    {
      var scrollingDown := scrollTop > lastScrollTop;
      isScrollingDown := scrollingDown;
      if scrollingDown && scrollTop > 50.0 {
        if !isScrolledDown {
          isScrolledDown := true;
        }
        scrollOpacity := Max(0.3, 1.0 - scrollTop / 200.0);
      } else if !scrollingDown || scrollTop <= 50.0 {
        if isScrolledDown {
          isScrolledDown := false;
        }
        scrollOpacity := 1.0;
      }
      lastScrollTop := scrollTop;
    }

    /**
     * `handleScroll`, with `elementScrollTop` the scroll element's current offset:
     * nothing without a scroll element, otherwise the same step as `updateScrollState`.
     */
    method HandleScroll(elementScrollTop: real)
      requires Valid()
      modifies this`isScrolledDown, this`isScrollingDown, this`scrollOpacity, this`lastScrollTop
      ensures Valid()
      ensures !hasScrollElement ==> State() == old(State())
      ensures hasScrollElement ==> State() == ScrollStep(old(State()), elementScrollTop)
    {
      if !hasScrollElement {
        return;
      }
      var scrollTop := elementScrollTop;
      var scrollingDown := scrollTop > lastScrollTop;
      isScrollingDown := scrollingDown;
      if scrollingDown && scrollTop > 50.0 {
        isScrolledDown := true;
        scrollOpacity := Max(0.3, 1.0 - scrollTop / 200.0);
      } else if !scrollingDown || scrollTop <= 70.0 {
        isScrolledDown := false;
        scrollOpacity := 1.0;
      }
      lastScrollTop := scrollTop;
    }

    /** `onScroll`: the event's own offset. */
    method OnScroll(detailScrollTop: real)
      requires Valid()
      modifies this`isScrolledDown, this`isScrollingDown, this`scrollOpacity, this`lastScrollTop
      ensures Valid()
      ensures State() == ScrollStep(old(State()), detailScrollTop)
    {
      UpdateScrollState(detailScrollTop);
    }

    /** `onScrollEnd`: the scroll element's offset, when there is an element. */
    method OnScrollEnd(elementScrollTop: real)
      requires Valid()
      modifies this`isScrolledDown, this`isScrollingDown, this`scrollOpacity, this`lastScrollTop
      ensures Valid()
      ensures !hasScrollElement ==> State() == old(State())
      ensures hasScrollElement ==> State() == ScrollStep(old(State()), elementScrollTop)
    {
      if hasScrollElement {
        UpdateScrollState(elementScrollTop);
      }
    }
  }
}
