/** The index-stepping carousel of the Team section (the `useCarousel` hook
    and its two navigation bars in src/components/Team.jsx). The arithmetic
    is stated once here as functions; the Services section applies the same
    functions to its own constants. */
module Carousel {
  import opened Wrappers
  import opened RealArith

  /** A pixel width that a scroll offset can be divided by. */
  type Width = w: int | 0 < w witness 1

  // ---------------------------------------------------------------------
  // Index arithmetic of the arrow buttons
  // ---------------------------------------------------------------------

  /** `Math.max(0, itemsCount - itemsPerView)`: the last index the arrows reach. */
  function MaxIndex(itemsCount: int, itemsPerView: int): (m: nat)
    ensures m >= itemsCount - itemsPerView
    ensures m == 0 || m == itemsCount - itemsPerView
  {
    if itemsCount - itemsPerView > 0 then itemsCount - itemsPerView else 0
  }

  /** The index after the "previous" arrow: `Math.max(0, currentIndex - 1)`. */
  function StepLeft(i: int): (j: int)
    ensures j >= 0 && j >= i - 1
    ensures j == 0 || j == i - 1
  {
    if i - 1 > 0 then i - 1 else 0
  }

  /** The index after the "next" arrow: `Math.min(maxIndex, currentIndex + 1)`. */
  function StepRight(i: int, maxIndex: int): (j: int)
    ensures j <= maxIndex && j <= i + 1
    ensures j == maxIndex || j == i + 1
  {
    if i + 1 < maxIndex then i + 1 else maxIndex
  }

  /** The offset every handler asks `scrollTo` for: `index * itemWidth`,
      the left edge of item `index`. */
  function ScrollOffset(index: int, itemWidth: Width): (offset: int)
    ensures offset % itemWidth == 0 && offset / itemWidth == index
  {
    MultipleOfWidth(index, itemWidth);
    index * itemWidth
  }

  /** A non-zero multiple of `w` is at least `w` away from 0. */
  lemma MulAwayFromZero(d: int, w: Width)
    ensures d >= 1 ==> d * w >= w
    ensures d <= -1 ==> d * w + w <= 0
  {
  }

  /** Dividing `index * w` by `w` gives `index` back, with no remainder. */
  lemma MultipleOfWidth(index: int, w: Width)
    ensures (index * w) % w == 0 && (index * w) / w == index
  {
    var q, r := (index * w) / w, (index * w) % w;
    assert (q - index) * w == -r;
    MulAwayFromZero(q - index, w);
  }

  // ---------------------------------------------------------------------
  // Reading the index back from the scroll position
  // ---------------------------------------------------------------------

  /** JavaScript's `Math.round`: the nearest integer, halves rounded up
      (also for negative numbers: -2.5 rounds to -2). */
  function Round(x: real): (r: int)
    ensures r as real - 0.5 <= x < r as real + 0.5
  {
    (x + 0.5).Floor
  }

  /** The index `handleScroll` stores: `Math.round(scrollLeft / itemWidth)`,
      with no clamp to the valid range. The result is the item whose slot
      `[ (k - 1/2) * w, (k + 1/2) * w )` holds the offset. */
  function IndexAtOffset(scrollLeft: real, itemWidth: Width): (k: int)
    ensures (k as real - 0.5) * itemWidth as real <= scrollLeft
    ensures scrollLeft < (k as real + 0.5) * itemWidth as real
  {
    var q := scrollLeft / itemWidth as real;
    var k := Round(q);
    assert scrollLeft == q * itemWidth as real;
    MulLeq(k as real - 0.5, q, itemWidth as real);
    MulLess(q, k as real + 0.5, itemWidth as real);
    assert scrollLeft < (k as real + 0.5) * itemWidth as real;
    k
  }

  /** Only one index has the offset in its slot. */
  lemma {:induction false} SlotDeterminesIndex(scrollLeft: real, itemWidth: Width, k: int)
    requires (k as real - 0.5) * itemWidth as real <= scrollLeft
    requires scrollLeft < (k as real + 0.5) * itemWidth as real
    ensures IndexAtOffset(scrollLeft, itemWidth) == k
  {
    var j := IndexAtOffset(scrollLeft, itemWidth);
    var w := itemWidth as real;
    var jLo, jHi := (j as real - 0.5) * w, (j as real + 0.5) * w;
    var kLo, kHi := (k as real - 0.5) * w, (k as real + 0.5) * w;
    assert jLo <= scrollLeft < kHi && kLo <= scrollLeft < jHi;
    assert jLo < kHi && kLo < jHi;
    CancelLess(j as real - 0.5, k as real + 0.5, w);
    CancelLess(k as real - 0.5, j as real + 0.5, w);
  }

  /** Reconciliation after a programmatic scroll: once the viewport settles on
      the offset an arrow or dot asked for, `handleScroll` reads back the same
      index, so the two directions do not oscillate. */
  lemma {:induction false} IndexAtScrollOffset(k: int, itemWidth: Width)
    ensures IndexAtOffset(ScrollOffset(k, itemWidth) as real, itemWidth) == k
  {
    var w := itemWidth as real;
    assert ScrollOffset(k, itemWidth) as real == k as real * w;
    assert (k as real - 0.5) * w <= k as real * w < (k as real + 0.5) * w;
    SlotDeterminesIndex(k as real * w, itemWidth, k);
  }

  /** For whole-pixel offsets the rounded quotient is the integer expression
      `(2 * x + w) / (2 * w)` (floor division, as `w > 0`). */
  lemma {:induction false} IndexAtIntegerOffset(x: int, itemWidth: Width)
    ensures IndexAtOffset(x as real, itemWidth) == (2 * x + itemWidth) / (2 * itemWidth)
  {
    var w := itemWidth;
    var q := (2 * x + w) / (2 * w);
    var r := (2 * x + w) % (2 * w);
    assert 2 * x + w == q * (2 * w) + r && 0 <= r < 2 * w;
    assert (q as real - 0.5) * w as real == (2 * q * w - w) as real / 2.0;
    assert (q as real + 0.5) * w as real == (2 * q * w + w) as real / 2.0;
    SlotDeterminesIndex(x as real, itemWidth, q);
  }

  // ---------------------------------------------------------------------
  // Sequences of arrow presses
  // ---------------------------------------------------------------------

  datatype Arrow = Prev | Next

  /** The index after one arrow press with the container present. */
  function Press(i: int, arrow: Arrow, maxIndex: int): int
  {
    match arrow
    case Prev => StepLeft(i)
    case Next => StepRight(i, maxIndex)
  }

  /** The index after a run of arrow presses, first press first. */
  function PressAll(i: int, arrows: seq<Arrow>, maxIndex: int): int
    decreases |arrows|
  {
    if arrows == [] then i else PressAll(Press(i, arrows[0], maxIndex), arrows[1..], maxIndex)
  }

  /** From an index in `[0, maxIndex]` no run of arrow presses leaves that range. */
  lemma {:induction false} PressAllStaysInRange(i: int, arrows: seq<Arrow>, maxIndex: int)
    requires 0 <= i <= maxIndex
    ensures 0 <= PressAll(i, arrows, maxIndex) <= maxIndex
    decreases |arrows|
  {
    if arrows != [] {
      PressAllStaysInRange(Press(i, arrows[0], maxIndex), arrows[1..], maxIndex);
    }
  }

  /** A press of "previous" at 0 and of "next" at `maxIndex` change nothing. */
  lemma PressAtBoundIsNoOp(maxIndex: nat)
    ensures Press(0, Prev, maxIndex) == 0
    ensures Press(maxIndex, Next, maxIndex) == maxIndex
  {
  }

  /** Inside the range the two arrows undo each other. */
  lemma NextThenPrevReturns(i: int, maxIndex: int)
    requires 0 < i < maxIndex
    ensures PressAll(i, [Next, Prev], maxIndex) == i
    ensures PressAll(i, [Prev, Next], maxIndex) == i
  {
    assert [Next, Prev][1..] == [Prev];
    assert [Prev, Next][1..] == [Next];
  }

  /** From an index past `maxIndex` (left there by `handleScroll`,
      `scrollToIndex` or a smaller item count), "next" moves the index
      DOWN to `maxIndex`, and stays there on further presses. */
  lemma NextPastEndMovesBack(i: int, maxIndex: int)
    requires maxIndex < i
    ensures Press(i, Next, maxIndex) == maxIndex < i
    ensures PressAll(i, [Next, Next], maxIndex) == maxIndex
  {
    assert [Next, Next][1..] == [Next];
  }

  // ---------------------------------------------------------------------
  // Navigation flags (CarouselNavigation and MobileCarouselNavigation)
  // ---------------------------------------------------------------------

  /** `isAtStart`; also the mobile "previous" button's disabled flag. It
      holds exactly where "previous" would leave the index unchanged. */
  predicate PrevDisabled(currentIndex: int)
    ensures PrevDisabled(currentIndex) <==> StepLeft(currentIndex) == currentIndex
  {
    currentIndex == 0
  }

  /** `isAtEnd`: the desktop "next" button's disabled flag. At a
      non-negative index it holds exactly where "next" would not advance. */
  predicate NextDisabled(currentIndex: int, totalItems: int, itemsPerView: int)
    ensures 0 <= currentIndex ==>
      (NextDisabled(currentIndex, totalItems, itemsPerView)
       <==> StepRight(currentIndex, MaxIndex(totalItems, itemsPerView)) <= currentIndex)
  {
    currentIndex >= totalItems - itemsPerView
  }

  /** The mobile "next" button's disabled flag. While the index names an
      item, it holds exactly when the last dot is the lit one. */
  predicate MobileNextDisabled(currentIndex: int, totalItems: int)
    ensures 0 <= currentIndex < totalItems ==>
      (MobileNextDisabled(currentIndex, totalItems) <==> Dots(totalItems, currentIndex)[totalItems - 1])
  {
    currentIndex >= totalItems - 1
  }

  /** The mobile dot row: one dot per item, dot `k` lit iff `k == currentIndex`. */
  function Dots(totalItems: nat, currentIndex: int): (dots: seq<bool>)
    ensures |dots| == totalItems
    ensures forall k :: 0 <= k < totalItems ==> dots[k] == (k == currentIndex)
  {
    seq(totalItems, k => k == currentIndex)
  }

  /** The number of lit dots. */
  function CountLit(dots: seq<bool>): nat
  {
    if dots == [] then 0
    else CountLit(dots[..|dots| - 1]) + (if dots[|dots| - 1] then 1 else 0)
  }

  /** Exactly one dot is lit when the index names an item, and none when the
      index lies outside `[0, totalItems)`. */
  lemma {:induction false} LitDotCount(totalItems: nat, currentIndex: int)
    ensures CountLit(Dots(totalItems, currentIndex)) == if 0 <= currentIndex < totalItems then 1 else 0
  {
    if totalItems > 0 {
      var dots := Dots(totalItems, currentIndex);
      assert dots[..totalItems - 1] == Dots(totalItems - 1, currentIndex);
      LitDotCount(totalItems - 1, currentIndex);
    }
  }

  /** Inside `[0, maxIndex]` each desktop arrow is disabled exactly where
      pressing it would leave the index unchanged. */
  lemma DesktopFlagsMatchPresses(i: int, totalItems: int, itemsPerView: int)
    requires 0 <= i <= MaxIndex(totalItems, itemsPerView)
    ensures PrevDisabled(i) <==> Press(i, Prev, MaxIndex(totalItems, itemsPerView)) == i
    ensures NextDisabled(i, totalItems, itemsPerView) <==> Press(i, Next, MaxIndex(totalItems, itemsPerView)) == i
  {
  }

  /** Past `maxIndex` the desktop "next" arrow is always disabled. */
  lemma NextDisabledPastEnd(i: int, totalItems: int, itemsPerView: int)
    requires MaxIndex(totalItems, itemsPerView) < i
    ensures NextDisabled(i, totalItems, itemsPerView)
  {
  }

  /** With at least one item per view, a disabled mobile "next" implies a
      disabled desktop "next": the mobile bar is never the stricter one. */
  lemma MobileNextNoStricter(i: int, totalItems: int, itemsPerView: int)
    requires 1 <= itemsPerView
    ensures MobileNextDisabled(i, totalItems) ==> NextDisabled(i, totalItems, itemsPerView)
  {
  }

  /** With two or more items per view and enough items, the mobile "next"
      button is enabled at `maxIndex`, where pressing it does nothing. */
  lemma MobileNextEnabledAtEnd(totalItems: int, itemsPerView: int)
    requires 2 <= itemsPerView <= totalItems
    ensures !MobileNextDisabled(MaxIndex(totalItems, itemsPerView), totalItems)
    ensures Press(MaxIndex(totalItems, itemsPerView), Next, MaxIndex(totalItems, itemsPerView))
            == MaxIndex(totalItems, itemsPerView)
  {
  }

  // ---------------------------------------------------------------------
  // The hook's state
  // ---------------------------------------------------------------------

  /** The state `useCarousel(itemsCount, itemWidth, itemsPerView)` keeps
      across renders: `currentIndex`, and whether `scrollContainerRef`
      points at a mounted element. The item count is passed in anew on
      each render, so it can change while `currentIndex` stays. */
  class CarouselState {
    var currentIndex: int
    var itemsCount: nat
    const itemWidth: Width
    const itemsPerView: int
    const attached: bool

    /** `0 <= currentIndex <= maxIndex` for the current item count. */
    predicate InRange()
      reads this
    {
      0 <= currentIndex <= MaxIndex(itemsCount, itemsPerView)
    }

    constructor (itemsCount: nat, itemWidth: Width, itemsPerView: int, attached: bool)
      ensures this.currentIndex == 0 && this.itemsCount == itemsCount
      ensures this.itemWidth == itemWidth && this.itemsPerView == itemsPerView
      ensures this.attached == attached
      ensures InRange()
    {
      this.currentIndex := 0;
      this.itemsCount := itemsCount;
      this.itemWidth := itemWidth;
      this.itemsPerView := itemsPerView;
      this.attached := attached;
    }

    /** `scrollLeft`: with the container present, step back and scroll
        there; without it, do nothing. */
    method ScrollLeft() returns (target: Option<int>)
      modifies this`currentIndex
      ensures attached ==> currentIndex == StepLeft(old(currentIndex))
      ensures attached ==> target == Some(ScrollOffset(currentIndex, itemWidth))
      ensures !attached ==> currentIndex == old(currentIndex) && target == None
      ensures old(InRange()) ==> InRange()
    {
      target := None;
      if attached {
        var newIndex := StepLeft(currentIndex);
        currentIndex := newIndex;
        target := Some(ScrollOffset(newIndex, itemWidth));
      }
    }

    /** `scrollRight`: with the container present, step forward up to
        `maxIndex` and scroll there; without it, do nothing. */
    method ScrollRight() returns (target: Option<int>)
      modifies this`currentIndex
      ensures attached ==> currentIndex == StepRight(old(currentIndex), MaxIndex(itemsCount, itemsPerView))
      ensures attached ==> target == Some(ScrollOffset(currentIndex, itemWidth))
      ensures !attached ==> currentIndex == old(currentIndex) && target == None
      ensures old(InRange()) ==> InRange()
    {
      target := None;
      if attached {
        var maxIndex := MaxIndex(itemsCount, itemsPerView);
        var newIndex := StepRight(currentIndex, maxIndex);
        currentIndex := newIndex;
        target := Some(ScrollOffset(newIndex, itemWidth));
      }
    }

    /** `handleScroll`: with the container present, store the rounded
        quotient of its offset, unclamped; issues no scroll. */
    method HandleScroll(scrollLeft: real)
      modifies this`currentIndex
      ensures attached ==> currentIndex == IndexAtOffset(scrollLeft, itemWidth)
      ensures !attached ==> currentIndex == old(currentIndex)
    {
      if attached {
        currentIndex := IndexAtOffset(scrollLeft, itemWidth);
      }
    }

    /** `scrollToIndex` (the dot click): store `index` unclamped, even when
        the container is absent, and scroll there when it is present. */
    method ScrollToIndex(index: int) returns (target: Option<int>)
      modifies this`currentIndex
      ensures currentIndex == index
      ensures target == if attached then Some(ScrollOffset(index, itemWidth)) else None
    {
      currentIndex := index;
      target := None;
      if attached {
        target := Some(ScrollOffset(index, itemWidth));
      }
    }

    /** A re-render with a new item count: only the count changes. */
    method SetItemsCount(itemsCount: nat)
      modifies this`itemsCount
      ensures this.itemsCount == itemsCount
    {
      this.itemsCount := itemsCount;
    }
  }
}
