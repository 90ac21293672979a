/** The header's show-on-scroll-up behaviour
    (src/shared/hooks/useScrollDirection.ts). Scroll positions are whole
    pixels. */
module ScrollDirection {
  /** Within this many pixels of the top the header is always shown. */
  const TopZone := 100

  /** The visibility after a scroll event to `current`: shown when scrolling
      up or near the top, hidden when scrolling down past the top zone,
      otherwise as it was. */
  function NextVisible(visible: bool, last: int, current: int): (r: bool)
    ensures current < last || current < TopZone ==> r
    ensures !(current < last || current < TopZone) && current > last && current > TopZone ==> !r
    ensures !(current < last || current < TopZone) && !(current > last && current > TopZone) ==> r == visible
  {
    if current < last || current < TopZone then true
    else if current > last && current > TopZone then false
    else visible
  }

  /** The header hides exactly on a move down that ends past the top zone. */
  lemma HidesIffScrolledDownPastTop(visible: bool, last: int, current: int)
    ensures visible && !NextVisible(visible, last, current) <==> visible && current > last && current > TopZone
  {
  }

  /** Where the two rules leave the header alone: staying put at or below
      the top zone, or arriving exactly at its edge from above. */
  lemma UnchangedCases(visible: bool, last: int)
    ensures last >= TopZone ==> NextVisible(visible, last, last) == visible
    ensures last < TopZone ==> NextVisible(visible, last, TopZone) == visible
  {
  }

  class HeaderVisibility {
    var isHeaderVisible: bool
    var lastScrollY: int

    /** The header is hidden only after the page has left the top zone. */
    predicate Valid()
      reads this
    {
      !isHeaderVisible ==> lastScrollY >= TopZone
    }

    constructor ()
      ensures Valid()
      ensures isHeaderVisible && lastScrollY == 0
    {
      isHeaderVisible := true;
      lastScrollY := 0;
    }

    /** `handleScroll` with `window.scrollY == current`. */
    method HandleScroll(current: int)
      requires Valid()
      modifies this
      ensures Valid()
      ensures isHeaderVisible == NextVisible(old(isHeaderVisible), old(lastScrollY), current)
      ensures lastScrollY == current
    {
      if current < lastScrollY || current < TopZone {
        isHeaderVisible := true;
      } else if current > lastScrollY && current > TopZone {
        isHeaderVisible := false;
      }
      lastScrollY := current;
    }
  }
}
