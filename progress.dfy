/**
 * Progress fractions: the page scroll bar of `initScrollProgress`
 * (scripts.js:222-245) and the cases carousel indicator (scripts.js:581-586).
 * Both clamp a ratio into [0, 1]; they treat "nothing to scroll" differently.
 */
module Progress {

  /** `Math.max(0, Math.min(1, x))`. */
  function Clamp01(x: real): (r: real)
    ensures 0.0 <= r <= 1.0
    ensures 0.0 <= x <= 1.0 ==> r == x
    ensures x < 0.0 ==> r == 0.0
    ensures x > 1.0 ==> r == 1.0
  {
    if x < 0.0 then 0.0 else if x > 1.0 then 1.0 else x
  }

  /** A part over a positive whole lies in [0, 1] and scales back to the part. */
  lemma RatioInUnit(part: real, whole: real)
    requires 0.0 < whole && 0.0 <= part <= whole
    ensures 0.0 <= part / whole <= 1.0
    ensures (part / whole) * whole == part
  {
  }

  /** Clamping never reverses the order of two ratios. */
  lemma Clamp01Monotone(x: real, y: real)
    requires x <= y
    ensures Clamp01(x) <= Clamp01(y)
  {
  }

  /**
   * The carousel fraction (scripts.js:583-584): 1 when the track does not
   * overflow, otherwise the scroll offset over the overflow, clamped.
   */
  function CarouselFraction(scrollLeft: real, scrollWidth: real, clientWidth: real): (p: real)
    ensures 0.0 <= p <= 1.0
    ensures scrollWidth - clientWidth <= 0.0 ==> p == 1.0
    ensures scrollWidth - clientWidth > 0.0 && 0.0 <= scrollLeft <= scrollWidth - clientWidth ==>
      p * (scrollWidth - clientWidth) == scrollLeft
    ensures scrollWidth - clientWidth > 0.0 && scrollLeft >= scrollWidth - clientWidth ==> p == 1.0
    ensures scrollLeft <= 0.0 && scrollWidth - clientWidth > 0.0 ==> p == 0.0
  {
    var max := scrollWidth - clientWidth;
    if max <= 0.0 then 1.0 else Clamp01(scrollLeft / max)
  }

  /**
   * The page scroll offset (scripts.js:230): the root element's, or the
   * body's when the root reports 0 (a falsy number).
   */
  function PageScrollTop(rootScrollTop: real, bodyScrollTop: real): (top: real)
    ensures rootScrollTop != 0.0 ==> top == rootScrollTop
    ensures rootScrollTop == 0.0 ==> top == bodyScrollTop
  {
    if rootScrollTop != 0.0 then rootScrollTop else bodyScrollTop
  }

  /**
   * The page fraction (scripts.js:229-232).  The overflow
   * `scrollHeight - clientHeight` is replaced by 1 when it is 0 (`|| 1`),
   * so a page that does not scroll reads its scroll offset, clamped (0 at
   * rest), unlike the carousel, which reads 1.
   */
  function PageFraction(rootScrollTop: real, bodyScrollTop: real, scrollHeight: real, clientHeight: real): (p: real)
    ensures 0.0 <= p <= 1.0
    ensures scrollHeight - clientHeight == 0.0 ==> p == Clamp01(PageScrollTop(rootScrollTop, bodyScrollTop))
    ensures var top := PageScrollTop(rootScrollTop, bodyScrollTop);
      scrollHeight - clientHeight > 0.0 && 0.0 <= top <= scrollHeight - clientHeight ==>
        p * (scrollHeight - clientHeight) == top
  {
    var top := PageScrollTop(rootScrollTop, bodyScrollTop);
    var overflow := if scrollHeight - clientHeight != 0.0 then scrollHeight - clientHeight else 1.0;
    assert 0.0 < overflow && 0.0 <= top <= overflow ==> Clamp01(top / overflow) * overflow == top by {
      if 0.0 < overflow && 0.0 <= top <= overflow {
        RatioInUnit(top, overflow);
      }
    }
    Clamp01(top / overflow)
  }

  /** With nothing to scroll and at rest, the page bar is empty while the carousel bar is full. */
  lemma NoOverflowReadsDiffer(height: real, width: real)
    ensures PageFraction(0.0, 0.0, height, height) == 0.0
    ensures CarouselFraction(0.0, width, width) == 1.0
  {
  }
}
