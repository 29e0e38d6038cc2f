/**
 * The splash-screen gate of `initPreloader` (scripts.js:59-160).
 *
 * Two permits, "the minimum display time has elapsed" and "the critical
 * resources are ready", must both be granted before the page is revealed;
 * a maximum-time fallback reveals it regardless.  The `ended` latch makes the
 * reveal effect run at most once.  The timers and the resource race are
 * replaced by the events they deliver, in any order.
 */
module Preloader {

  /** Minimum splash time in milliseconds (scripts.js:68). */
  function MinTime(isLowPerformance: bool, reduceMotion: bool): (ms: nat)
    ensures 500 <= ms <= 1500
    ensures isLowPerformance ==> ms == 800
  {
    if isLowPerformance then 800 else if reduceMotion then 500 else 1500
  }

  /** Fallback splash time in milliseconds (scripts.js:69): always later than the minimum. */
  function MaxTime(isLowPerformance: bool): (ms: nat)
    ensures forall reduceMotion: bool :: MinTime(isLowPerformance, reduceMotion) < ms
  {
    if isLowPerformance then 4000 else 4500
  }

  /**
   * The closure variables `minTimeElapsed`, `readyToShow` and `preloaderEnded`,
   * plus `showCount`: how many times the end effect (fill the bar, mark the
   * preloader done, drop `is-loading`, remove the node) has been started.
   */
  datatype Gate = Gate(minTimeElapsed: bool, readyToShow: bool, ended: bool, showCount: nat)

  const Initial: Gate := Gate(false, false, false, 0)

  /** The three things that can happen to the gate once it is set up. */
  datatype Event = MinTimeElapsed | ResourcesReady | MaxTimeElapsed

  /**
   * The gate's invariant: both permits granted means the page has been
   * revealed, and the reveal ran exactly once if it ran at all.
   */
  ghost predicate Inv(g: Gate) {
    && (g.minTimeElapsed && g.readyToShow ==> g.ended)
    && g.showCount == (if g.ended then 1 else 0)
  }

  /** `endPreloader` (scripts.js:75-98): a once-only effect behind the `preloaderEnded` latch. */
  function End(g: Gate): (r: Gate)
    ensures r.ended
    ensures r.minTimeElapsed == g.minTimeElapsed && r.readyToShow == g.readyToShow
    ensures g.ended ==> r == g
    ensures !g.ended ==> r.showCount == g.showCount + 1
  {
    if g.ended then g else g.(ended := true, showCount := g.showCount + 1)
  }

  /** `checkPreloader` (scripts.js:100-104): end only when both permits are in. */
  function Check(g: Gate): (r: Gate)
    ensures r.ended <==> g.ended || (g.minTimeElapsed && g.readyToShow)
    ensures r.minTimeElapsed == g.minTimeElapsed && r.readyToShow == g.readyToShow
    ensures g.ended ==> r == g
    ensures !g.ended && !(g.minTimeElapsed && g.readyToShow) ==> r == g
    ensures !g.ended && g.minTimeElapsed && g.readyToShow ==> r.showCount == g.showCount + 1
  {
    if !g.ended && g.minTimeElapsed && g.readyToShow then End(g) else g
  }

  /**
   * One event: the MIN_TIME timer (scripts.js:106-109), the end of
   * `waitCriticalResources` (scripts.js:153-154) or the MAX_TIME fallback
   * (scripts.js:159).
   */
  function Step(g: Gate, e: Event): (r: Gate)
    ensures Inv(g) ==> Inv(r)
    ensures g.ended ==> r.ended && r.showCount == g.showCount
  {
    match e
    case MinTimeElapsed => Check(g.(minTimeElapsed := true))
    case ResourcesReady => Check(g.(readyToShow := true))
    case MaxTimeElapsed => End(g)
  }

  /** The gate after a sequence of events, delivered in order. */
  function Run(g: Gate, events: seq<Event>): Gate
    decreases |events|
  {
    if events == [] then g else Run(Step(g, events[0]), events[1..])
  }

  /**
   * From any consistent gate, a run ends the preloader exactly when it was
   * already ended, the fallback fired, or both permits are (or become) granted;
   * the invariant survives, so the reveal happens at most once, and a gate that
   * had already ended never reveals again.
   */
  lemma {:induction false} RunGate(g: Gate, events: seq<Event>)
    requires Inv(g)
    ensures Inv(Run(g, events))
    ensures Run(g, events).ended <==>
      || g.ended
      || MaxTimeElapsed in events
      || ((g.minTimeElapsed || MinTimeElapsed in events) && (g.readyToShow || ResourcesReady in events))
    ensures g.ended ==> Run(g, events).showCount == g.showCount
    decreases |events|
  {
    if events != [] {
      var e, rest := events[0], events[1..];
      assert events == [e] + rest;
      RunGate(Step(g, e), rest);
    }
  }

  /**
   * From page load: the page is revealed iff the fallback fired or both
   * permits arrived, whichever came first; the reveal effect ran once then,
   * and never otherwise.
   */
  lemma ShownFromStart(events: seq<Event>)
    ensures Run(Initial, events).ended <==>
      MaxTimeElapsed in events || (MinTimeElapsed in events && ResourcesReady in events)
    ensures Run(Initial, events).showCount == if Run(Initial, events).ended then 1 else 0
  {
    RunGate(Initial, events);
  }

  /** The order in which the timers and the resource race report does not matter. */
  lemma ShowOrderIndependent(a: seq<Event>, b: seq<Event>)
    requires multiset(a) == multiset(b)
    ensures Run(Initial, a).ended == Run(Initial, b).ended
    ensures Run(Initial, a).showCount == Run(Initial, b).showCount
  {
    ShownFromStart(a);
    ShownFromStart(b);
    forall e: Event ensures e in a <==> e in b {
      assert e in a <==> e in multiset(a);
      assert e in b <==> e in multiset(b);
    }
  }

  /** The closure state of one `initPreloader` call, updated by its timer callbacks. */
  class PreloaderController {
    var minTimeElapsed: bool
    var readyToShow: bool
    var preloaderEnded: bool
    var showCount: nat
    const minTime: nat
    const maxTime: nat

    function State(): Gate
      reads this
    {
      Gate(minTimeElapsed, readyToShow, preloaderEnded, showCount)
    }

    ghost predicate Valid()
      reads this
    {
      Inv(State()) && minTime < maxTime
    }

    /** Set-up with the splash element present (scripts.js:68-73). */
    constructor (isLowPerformance: bool, reduceMotion: bool)
      ensures Valid() && State() == Initial
      ensures minTime == MinTime(isLowPerformance, reduceMotion)
      ensures maxTime == MaxTime(isLowPerformance)
    {
      minTimeElapsed, readyToShow, preloaderEnded, showCount := false, false, false, 0;
      minTime := MinTime(isLowPerformance, reduceMotion);
      maxTime := MaxTime(isLowPerformance);
    }

    method EndPreloader()
      modifies this
      ensures State() == End(old(State()))
    {
      if preloaderEnded {
        return;
      }
      preloaderEnded := true;
      showCount := showCount + 1;
    }

    method CheckPreloader()
      modifies this
      ensures State() == Check(old(State()))
    {
      if !preloaderEnded && minTimeElapsed && readyToShow {
        EndPreloader();
      }
    }

    /** The MIN_TIME timer callback (scripts.js:106-109). */
    method OnMinTimeElapsed()
      requires Valid()
      modifies this
      ensures Valid() && State() == Step(old(State()), MinTimeElapsed)
    {
      minTimeElapsed := true;
      CheckPreloader();
    }

    /** The tail of `waitCriticalResources` (scripts.js:153-154). */
    method OnResourcesReady()
      requires Valid()
      modifies this
      ensures Valid() && State() == Step(old(State()), ResourcesReady)
    {
      readyToShow := true;
      CheckPreloader();
    }

    /** The MAX_TIME fallback (scripts.js:159). */
    method OnMaxTimeElapsed()
      requires Valid()
      modifies this
      ensures Valid() && State() == Step(old(State()), MaxTimeElapsed)
    {
      EndPreloader();
    }
  }
}
