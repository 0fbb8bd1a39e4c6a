/** The Services section (src/components/Services.jsx): its own index
    carousel with the card width fixed at 400, six services and three
    cards per view, built on the arithmetic of the Carousel module. */
module Services {
  import opened Wrappers
  import opened Carousel

  /** `cardWidth`, "approximate card width + gap". */
  const CardWidth: Width := 400

  /** `services.length`. */
  const ServiceCount: nat := 6

  /** The cards per view in `services.length - 3`. */
  const CardsPerView: int := 3

  /** The section's `currentIndex` and whether `scrollContainerRef` is set. */
  class ServicesSection {
    var currentIndex: int
    const attached: bool

    constructor (attached: bool)
      ensures currentIndex == 0 && this.attached == attached
    {
      currentIndex := 0;
      this.attached := attached;
    }

    /** `scrollLeft`: with the container present, step back and scroll there. */
    method ScrollLeft() returns (target: Option<int>)
      modifies this`currentIndex
      ensures attached ==> currentIndex == StepLeft(old(currentIndex))
      ensures attached ==> target == Some(ScrollOffset(currentIndex, CardWidth))
      ensures !attached ==> currentIndex == old(currentIndex) && target == None
    {
      target := None;
      if attached {
        var newIndex := StepLeft(currentIndex);
        currentIndex := newIndex;
        target := Some(ScrollOffset(newIndex, CardWidth));
      }
    }

    /** `scrollRight`: with the container present, step forward up to
        `Math.max(0, services.length - 3)` and scroll there. */
    method ScrollRight() returns (target: Option<int>)
      modifies this`currentIndex
      ensures attached ==> currentIndex == StepRight(old(currentIndex), MaxIndex(ServiceCount, CardsPerView))
      ensures attached ==> target == Some(ScrollOffset(currentIndex, CardWidth))
      ensures !attached ==> currentIndex == old(currentIndex) && target == None
    {
      target := None;
      if attached {
        var maxIndex := MaxIndex(ServiceCount, CardsPerView);
        var newIndex := StepRight(currentIndex, maxIndex);
        currentIndex := newIndex;
        target := Some(ScrollOffset(newIndex, CardWidth));
      }
    }

    /** `handleScroll`: `Math.round(scrollLeft / 400)`, unclamped. */
    method HandleScroll(scrollLeft: real)
      modifies this`currentIndex
      ensures attached ==> currentIndex == IndexAtOffset(scrollLeft, CardWidth)
      ensures !attached ==> currentIndex == old(currentIndex)
    {
      if attached {
        currentIndex := IndexAtOffset(scrollLeft, CardWidth);
      }
    }

    /** A click on dot `index`: store it, and scroll to `index * 400` when
        the container is present. */
    method DotClick(index: int) returns (target: Option<int>)
      modifies this`currentIndex
      ensures currentIndex == index
      ensures target == if attached then Some(ScrollOffset(index, CardWidth)) else None
    {
      currentIndex := index;
      target := None;
      if attached {
        target := Some(ScrollOffset(index, CardWidth));
      }
    }

    /** Both "previous" buttons' `disabled`: set exactly where `scrollLeft`
        would leave the index unchanged. */
    predicate PrevButtonDisabled()
      reads this
      ensures PrevButtonDisabled() <==> StepLeft(currentIndex) == currentIndex
    {
      PrevDisabled(currentIndex)
    }

    /** The desktop "next" button's `disabled`, `currentIndex >= services.length - 3`:
        from index 3 on, and at a non-negative index exactly where `scrollRight`
        would not advance. */
    predicate DesktopNextDisabled()
      reads this
      ensures DesktopNextDisabled() <==> currentIndex >= 3
      ensures 0 <= currentIndex ==>
        (DesktopNextDisabled() <==> StepRight(currentIndex, MaxIndex(ServiceCount, CardsPerView)) <= currentIndex)
    {
      NextDisabled(currentIndex, ServiceCount, CardsPerView)
    }

    /** The mobile "next" button's `disabled`, `currentIndex >= services.length - 1`:
        only from index 5 on, so it stays enabled at 3 and 4 where `scrollRight`
        no longer advances. */
    predicate MobileNextButtonDisabled()
      reads this
      ensures MobileNextButtonDisabled() <==> currentIndex >= 5
      ensures 0 <= currentIndex < ServiceCount ==> (MobileNextButtonDisabled() <==> DotRow()[ServiceCount - 1])
    {
      MobileNextDisabled(currentIndex, ServiceCount)
    }

    /** The six dots, dot `k` lit iff `k == currentIndex`: exactly one lit
        while the index names a service, none otherwise. */
    function DotRow(): (dots: seq<bool>)
      reads this
      ensures |dots| == ServiceCount
      ensures forall k :: 0 <= k < ServiceCount ==> dots[k] == (k == currentIndex)
      ensures CountLit(dots) == if 0 <= currentIndex < ServiceCount then 1 else 0
    {
      LitDotCount(ServiceCount, currentIndex);
      Dots(ServiceCount, currentIndex)
    }
  }

  /** From index 0 the "next" arrow reaches 1, 2 and 3; a fourth press
      leaves the index at 3, and the scroll targets are the matching offsets. */
  method FourNextPresses() returns (indices: seq<int>, targets: seq<Option<int>>)
    ensures indices == [1, 2, 3, 3]
    ensures targets == [Some(400), Some(800), Some(1200), Some(1200)]
  {
    var s := new ServicesSection(true);
    indices, targets := [], [];
    var t := s.ScrollRight();
    indices, targets := indices + [s.currentIndex], targets + [t];
    t := s.ScrollRight();
    indices, targets := indices + [s.currentIndex], targets + [t];
    t := s.ScrollRight();
    indices, targets := indices + [s.currentIndex], targets + [t];
    t := s.ScrollRight();
    indices, targets := indices + [s.currentIndex], targets + [t];
  }

  /** The mobile "next" button stays enabled at indices 3 and 4 (disabled
      only from 5), yet at 3 pressing it leaves the index at 3. */
  method MobileNextAtLastPage() returns (enabledAt3: bool, enabledAt4: bool, enabledAt5: bool, indexAfter: int)
    ensures enabledAt3 && enabledAt4 && !enabledAt5
    ensures indexAfter == 3
  {
    var s := new ServicesSection(true);
    var t := s.DotClick(5);
    enabledAt5 := !s.MobileNextButtonDisabled();
    t := s.DotClick(4);
    enabledAt4 := !s.MobileNextButtonDisabled();
    t := s.DotClick(3);
    enabledAt3 := !s.MobileNextButtonDisabled();
    t := s.ScrollRight();
    indexAfter := s.currentIndex;
  }

  /** Half way between two cards `handleScroll` rounds up: offset 600 reads
      as index 2, offset 599 as index 1, and offset 2400 (past the last
      page) as index 6, which no dot shows. */
  lemma ScrollReadings()
    ensures IndexAtOffset(600.0, CardWidth) == 2
    ensures IndexAtOffset(599.0, CardWidth) == 1
    ensures IndexAtOffset(2400.0, CardWidth) == 6
    ensures CountLit(Dots(ServiceCount, 6)) == 0
  {
    IndexAtIntegerOffset(600, CardWidth);
    IndexAtIntegerOffset(599, CardWidth);
    IndexAtIntegerOffset(2400, CardWidth);
    LitDotCount(ServiceCount, 6);
  }
}
