/**
 * The cases carousel of `initCasesSlider` (scripts.js:549-636): one-card
 * advances behind a short re-entrancy guard, the progress indicator, and the
 * auto-advance interval, of which there is never more than one.  The track's
 * size is fixed; its scroll offset, the guard and the interval handle are
 * fields.
 */
module Carousel {
  import opened Wrappers
  import opened Progress

  const CardGap: real := 14.0
  /** The card width used when the track holds no `.case` element (scripts.js:566). */
  const DefaultCardWidth: real := 340.0
  /** How close to the end counts as "at the end" for auto-advance (scripts.js:613). */
  const EndTolerance: real := 10.0

  /** The distance of one advance (scripts.js:565-570): a card plus the gap. */
  function CardStep(cardWidth: Option<real>): (step: real)
    ensures cardWidth.None? ==> step == 354.0
    ensures cardWidth.Some? ==> step - cardWidth.value == CardGap
  {
    (if cardWidth.Some? then cardWidth.value else DefaultCardWidth) + CardGap
  }

  datatype AutoAction = ResetToStart | AdvanceOneCard

  /** The auto-advance decision (scripts.js:612-617): back to the start within 10 px of the end. */
  function AutoStep(scrollLeft: real, scrollWidth: real, clientWidth: real): (a: AutoAction)
    ensures a == ResetToStart <==> scrollWidth - clientWidth - scrollLeft <= EndTolerance
  {
    var maxScroll := scrollWidth - clientWidth;
    if scrollLeft >= maxScroll - EndTolerance then ResetToStart else AdvanceOneCard
  }

  /**
   * Where the browser leaves an element's scroll offset asked to go to
   * `target`: within [0, overflow], and 0 when there is no overflow.
   */
  function ClampOffset(target: real, maxScroll: real): (r: real)
    ensures 0.0 <= r
    ensures r <= if maxScroll > 0.0 then maxScroll else 0.0
    ensures 0.0 <= target <= maxScroll ==> r == target
    ensures target <= 0.0 ==> r == 0.0
  {
    if target <= 0.0 || maxScroll <= 0.0 then 0.0 else if target >= maxScroll then maxScroll else target
  }

  class CasesSlider {
    const scrollWidth: real
    const clientWidth: real
    const reduceMotion: bool
    const isMobile: bool
    const isLowPerformance: bool
    var scrollLeft: real
    var isScrolling: bool
    /** `autoScrollInterval`: the handle of the running interval, if any. */
    var autoScrollInterval: Option<nat>
    /** The intervals this slider has registered with the browser and not cleared. */
    ghost var liveIntervals: set<nat>
    var nextIntervalId: nat

    function MaxScroll(): real
      reads this
    {
      scrollWidth - clientWidth
    }

    /** The indicator width as a fraction (scripts.js:581-586). */
    function ProgressFraction(): (p: real)
      reads this
      ensures 0.0 <= p <= 1.0
    {
      CarouselFraction(scrollLeft, scrollWidth, clientWidth)
    }

    /** The offset is in range, and the browser runs exactly the interval the handle names, or none. */
    ghost predicate Valid()
      reads this
    {
      && 0.0 <= scrollLeft
      && scrollLeft <= (if MaxScroll() > 0.0 then MaxScroll() else 0.0)
      && liveIntervals == (if autoScrollInterval.Some? then {autoScrollInterval.value} else {})
    }

    /** Auto-advance is allowed at all (scripts.js:609). */
    predicate MayAutoScroll()
      reads this
    {
      !(reduceMotion || isMobile || isLowPerformance)
    }

    /** Set-up (scripts.js:557-560, 628-629): the interval starts unless the device is mobile. */
    constructor (scrollWidth: real, clientWidth: real, reduceMotion: bool, isMobile: bool, isLowPerformance: bool)
      ensures Valid()
      ensures this.scrollWidth == scrollWidth && this.clientWidth == clientWidth
      ensures this.reduceMotion == reduceMotion && this.isMobile == isMobile && this.isLowPerformance == isLowPerformance
      ensures scrollLeft == 0.0 && !isScrolling
      ensures autoScrollInterval.Some? <==> MayAutoScroll()
    {
      this.scrollWidth, this.clientWidth := scrollWidth, clientWidth;
      this.reduceMotion, this.isMobile, this.isLowPerformance := reduceMotion, isMobile, isLowPerformance;
      scrollLeft, isScrolling := 0.0, false;
      autoScrollInterval, liveIntervals, nextIntervalId := None, {}, 1;
      new;
      if !isMobile {
        StartAutoScroll();
      }
    }

    /** At most one auto-advance interval is ever running. */
    lemma AtMostOneInterval()
      requires Valid()
      ensures |liveIntervals| <= 1
    {
    }

    /**
     * `scrollByCard` (scripts.js:562-576): ignored while the guard is up;
     * otherwise one card step in direction `dir` and the guard goes up.
     */
    method ScrollByCard(dir: int, cardWidth: Option<real>)
      requires Valid()
      modifies this
      ensures Valid()
      ensures old(isScrolling) ==> unchanged(this)
      ensures !old(isScrolling) ==>
        && isScrolling
        && scrollLeft == ClampOffset(old(scrollLeft) + (dir as real) * CardStep(cardWidth), MaxScroll())
      ensures autoScrollInterval == old(autoScrollInterval) && liveIntervals == old(liveIntervals)
      ensures nextIntervalId == old(nextIntervalId)
    {
      if isScrolling {
        return;
      }
      var step := CardStep(cardWidth);
      scrollLeft := ClampOffset(scrollLeft + (dir as real) * step, MaxScroll());
      isScrolling := true;
    }

    /** The guard's timer, 300 ms after a card step (scripts.js:575). */
    method OnScrollGuardElapsed()
      requires Valid()
      modifies this
      ensures Valid() && !isScrolling
      ensures scrollLeft == old(scrollLeft) && autoScrollInterval == old(autoScrollInterval)
      ensures liveIntervals == old(liveIntervals) && nextIntervalId == old(nextIntervalId)
    {
      isScrolling := false;
    }

    /**
     * One tick of the 4000 ms interval (scripts.js:611-618): within 10 px of the end
     * the track goes back to the start (not subject to the guard); otherwise
     * it advances one card through `scrollByCard`.
     */
    method OnAutoScrollTick(cardWidth: Option<real>)
      requires Valid() && autoScrollInterval.Some?
      modifies this
      ensures Valid()
      ensures AutoStep(old(scrollLeft), scrollWidth, clientWidth) == ResetToStart ==>
        scrollLeft == 0.0 && isScrolling == old(isScrolling)
      ensures AutoStep(old(scrollLeft), scrollWidth, clientWidth) == AdvanceOneCard && old(isScrolling) ==>
        unchanged(this)
      ensures AutoStep(old(scrollLeft), scrollWidth, clientWidth) == AdvanceOneCard && !old(isScrolling) ==>
        scrollLeft == ClampOffset(old(scrollLeft) + CardStep(cardWidth), MaxScroll()) && isScrolling
      ensures autoScrollInterval == old(autoScrollInterval)
      ensures liveIntervals == old(liveIntervals) && nextIntervalId == old(nextIntervalId)
    {
      var maxScroll := scrollWidth - clientWidth;
      if scrollLeft >= maxScroll - EndTolerance {
        scrollLeft := ClampOffset(0.0, maxScroll);
      } else {
        ScrollByCard(1, cardWidth);
      }
    }

    /**
     * `startAutoScroll` (scripts.js:608-619), also run on mouse leave and 3 s
     * after a touch ends: never a second interval while one is running.
     */
    method StartAutoScroll()
      requires Valid()
      modifies this
      ensures Valid()
      ensures !MayAutoScroll() || old(autoScrollInterval).Some? ==> unchanged(this)
      ensures autoScrollInterval.Some? <==> old(autoScrollInterval).Some? || MayAutoScroll()
      ensures scrollLeft == old(scrollLeft) && isScrolling == old(isScrolling)
      ensures |liveIntervals| <= 1
    {
      if reduceMotion || isMobile || isLowPerformance || autoScrollInterval.Some? {
        return;
      }
      var id := nextIntervalId;
      nextIntervalId := nextIntervalId + 1;
      liveIntervals := liveIntervals + {id};
      autoScrollInterval := Some(id);
    }

    /** `stopAutoScroll` (scripts.js:621-626), run on mouse enter and touch start. */
    method StopAutoScroll()
      requires Valid()
      modifies this
      ensures Valid()
      ensures autoScrollInterval.None? && liveIntervals == {}
      ensures scrollLeft == old(scrollLeft) && isScrolling == old(isScrolling)
      ensures nextIntervalId == old(nextIntervalId)
    {
      if autoScrollInterval.Some? {
        liveIntervals := liveIntervals - {autoScrollInterval.value};
        autoScrollInterval := None;
      }
    }
  }
}
