/** The Case Studies section (src/components/CaseStudies.jsx): a freely
    scrolling strip whose vertical wheel input is turned into horizontal
    scrolling, and a progress bar computed from the scroll offset. Offsets
    and widths are exact reals here. */
module CaseStudies {
  import opened RealArith

  /** The progress percentage `handleScroll` stores:
      `maxScroll > 0 ? (scrollLeft / maxScroll) * 100 : 0` with
      `maxScroll = scrollWidth - clientWidth`; no clamp to `[0, 100]`. */
  function Progress(scrollLeft: real, scrollWidth: real, clientWidth: real): (p: real)
    ensures scrollWidth - clientWidth <= 0.0 ==> p == 0.0
    ensures scrollWidth - clientWidth > 0.0 ==> p * (scrollWidth - clientWidth) == 100.0 * scrollLeft
  {
    var maxScroll := scrollWidth - clientWidth;
    if maxScroll > 0.0 then scrollLeft / maxScroll * 100.0 else 0.0
  }

  /** While the offset stays inside `[0, maxScroll]` the bar stays inside
      `[0, 100]`. */
  lemma ProgressWithinBounds(scrollLeft: real, scrollWidth: real, clientWidth: real)
    requires 0.0 <= scrollLeft <= scrollWidth - clientWidth
    ensures 0.0 <= Progress(scrollLeft, scrollWidth, clientWidth) <= 100.0
  {
    var m := scrollWidth - clientWidth;
    if m > 0.0 {
      var p := Progress(scrollLeft, scrollWidth, clientWidth);
      assert p * m == 100.0 * scrollLeft;
      assert 0.0 * m <= p * m <= 100.0 * m;
      CancelLeq(0.0, p, m);
      CancelLeq(p, 100.0, m);
    }
  }

  /** The bar reads exactly 0 at the left end and exactly 100 at the right. */
  lemma ProgressAtEnds(scrollWidth: real, clientWidth: real)
    requires scrollWidth - clientWidth > 0.0
    ensures Progress(0.0, scrollWidth, clientWidth) == 0.0
    ensures Progress(scrollWidth - clientWidth, scrollWidth, clientWidth) == 100.0
  {
    var m := scrollWidth - clientWidth;
    assert m / m == 1.0;
  }

  /** For a fixed strip, scrolling right never makes the bar go back. */
  lemma ProgressMonotone(a: real, b: real, scrollWidth: real, clientWidth: real)
    requires a <= b
    ensures Progress(a, scrollWidth, clientWidth) <= Progress(b, scrollWidth, clientWidth)
  {
    var m := scrollWidth - clientWidth;
    if m > 0.0 {
      var pa, pb := Progress(a, scrollWidth, clientWidth), Progress(b, scrollWidth, clientWidth);
      assert pa * m == 100.0 * a && pb * m == 100.0 * b;
      assert pa * m <= pb * m;
      CancelLeq(pa, pb, m);
    }
  }

  /** A wheel step of `deltaY` moves the bar by the progress of `deltaY`
      alone: the bar is linear in the offset. */
  lemma ProgressAdditive(scrollLeft: real, deltaY: real, scrollWidth: real, clientWidth: real)
    ensures Progress(scrollLeft + deltaY, scrollWidth, clientWidth)
            == Progress(scrollLeft, scrollWidth, clientWidth) + Progress(deltaY, scrollWidth, clientWidth)
  {
    var m := scrollWidth - clientWidth;
    if m > 0.0 {
      var p, q, r := Progress(scrollLeft + deltaY, scrollWidth, clientWidth),
                     Progress(scrollLeft, scrollWidth, clientWidth),
                     Progress(deltaY, scrollWidth, clientWidth);
      assert (p - q - r) * m == 0.0;
    }
  }

  /** The strip as the listener effect sees it: the element's offset and
      widths, whether `scrollContainerRef` was set when the effect ran (the
      listeners exist only then), and the stored `scrollProgress`. */
  class CaseStudiesSection {
    var scrollLeft: real
    const scrollWidth: real
    const clientWidth: real
    const attached: bool
    var scrollProgress: real

    /** Mounting: `scrollProgress` starts at 0, and the effect calls
        `handleScroll()` once when the container is there. */
    constructor (attached: bool, scrollLeft: real, scrollWidth: real, clientWidth: real)
      ensures this.attached == attached && this.scrollLeft == scrollLeft
      ensures this.scrollWidth == scrollWidth && this.clientWidth == clientWidth
      ensures scrollProgress == if attached then Progress(scrollLeft, scrollWidth, clientWidth) else 0.0
    {
      this.attached := attached;
      this.scrollLeft := scrollLeft;
      this.scrollWidth := scrollWidth;
      this.clientWidth := clientWidth;
      scrollProgress := 0.0;
      if attached {
        scrollProgress := Progress(scrollLeft, scrollWidth, clientWidth);
      }
    }

    /** `handleWheel`: a non-zero vertical delta is added to the horizontal
        offset and the page's own scrolling is prevented; a zero delta does
        nothing. Returns whether `preventDefault` was called. */
    method HandleWheel(deltaY: real) returns (preventDefault: bool)
      requires attached
      modifies this`scrollLeft
      ensures preventDefault == (deltaY != 0.0)
      ensures deltaY != 0.0 ==> scrollLeft == old(scrollLeft) + deltaY
      ensures deltaY == 0.0 ==> scrollLeft == old(scrollLeft)
    {
      preventDefault := false;
      if deltaY != 0.0 {
        preventDefault := true;
        scrollLeft := scrollLeft + deltaY;
      }
    }

    /** `handleScroll`: recompute the bar from the current offset. */
    method HandleScroll()
      requires attached
      modifies this`scrollProgress
      ensures scrollProgress == Progress(scrollLeft, scrollWidth, clientWidth)
    {
      scrollProgress := Progress(scrollLeft, scrollWidth, clientWidth);
    }
  }

  /** A wheel step followed by the scroll event it causes moves the bar by
      the progress of the delta. */
  method WheelThenScroll(c: CaseStudiesSection, deltaY: real) returns (preventDefault: bool)
    requires c.attached
    requires c.scrollProgress == Progress(c.scrollLeft, c.scrollWidth, c.clientWidth)
    modifies c
    ensures c.scrollProgress == old(c.scrollProgress) + Progress(deltaY, c.scrollWidth, c.clientWidth)
  {
    preventDefault := c.HandleWheel(deltaY);
    c.HandleScroll();
    ProgressAdditive(old(c.scrollLeft), deltaY, c.scrollWidth, c.clientWidth);
  }
}
