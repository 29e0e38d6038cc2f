# Landing-page interaction logic, modelled in Dafny

The landing page's script (`scripts.js`) wires a handful of small controllers
to DOM events. This project lifts out the parts that carry logic and proves
their behaviour:

- **Preloader gate** (`Preloader`). The page is revealed only when two permits are both in:
  the minimum display time and the critical resources. A maximum-time fallback reveals it
  regardless. A latch makes the reveal effect run at most once.
- **Theme store** (`Theme`). Resolution order is the stored value, then the OS dark
  preference, then `"light"`. A toggle writes back to storage.
- **Mobile menu** (`MobileMenu`). One `isMenuOpen` flag is mirrored into aria-expanded,
  `hidden`, the body overflow lock and the `is-open` class.
- **Modal controller** (`Modals`). A stack of one held in `activeModal`.
- **Form validation** (`Forms`). The `[required]`-field check of the simulated submit.
- **Chart geometry** (`Chart`). Index-to-x and value-to-y maps, the area path's baseline,
  and the clamped, rounded pointer-to-index map.
- **Progress fractions** (`Progress`). The page scroll bar and the carousel indicator.
- **Cases carousel** (`Carousel`). The one-card advance with its re-entrancy guard, the
  auto-advance decision, and the single-interval guard.

The stateful controllers are classes whose fields are the script's closure variables
and the DOM properties they write. Each event handler is a method. Where a controller
has a pure step function (`Preloader.Step`, `Modals.Open`), the class methods are proved
equal to it, and the lemmas about event sequences are stated over the functions.
Timer callbacks become methods that the environment may call in any order.
`Modals.ModalController` uses the corrected `closeModal` described under "## Findings";
the close as the script writes it is kept beside it as `Modals.CloseAsWritten`.
Device probes (`isLowPerformance`, `reduceMotion`, `isMobile`) and the OS colour-scheme
query are parameters.

## Model

| member | source | states |
|---|---|---|
| `Preloader.MinTime` | scripts.js:68 | the minimum splash time is 800 ms on a low-performance device and always lies in [500, 1500] ms |
| `Preloader.MaxTime` | scripts.js:69 | the fallback time always exceeds the minimum time for the same device |
| `Preloader.End` | scripts.js:75-98 | `endPreloader` sets the latch; a second call changes nothing; the effect count rises by one only on the first call |
| `Preloader.Check` | scripts.js:100-104 | `checkPreloader` ends the preloader exactly when it already had ended or both permits are granted; a check that does not fire changes nothing, one that fires runs the reveal effect once more |
| `Preloader.Step` | scripts.js:106-159 | each timer or readiness event preserves the gate invariant (both permits ⇒ ended; the effect ran once iff ended); an ended gate stays ended and never shows again |
| `Preloader.RunGate` | scripts.js:71-159 | over any event sequence the gate ends iff it had ended, the fallback fired, or both permits are (or become) granted; an ended gate never repeats the effect |
| `Preloader.ShownFromStart` | scripts.js:71-159 | from page load: revealed iff the fallback fired or both permits arrived, and the reveal effect ran exactly once in that case, never otherwise |
| `Preloader.ShowOrderIndependent` | scripts.js:100-109 | whichever permit or timer arrives first, the outcome depends only on which events occurred |
| `Preloader.PreloaderController.constructor` | scripts.js:68-73 | both flags and the latch start false; timer lengths as above |
| `Preloader.PreloaderController.EndPreloader` | scripts.js:75-98 | the class's `endPreloader` equals `End` |
| `Preloader.PreloaderController.CheckPreloader` | scripts.js:100-104 | the class's `checkPreloader` equals `Check` |
| `Preloader.PreloaderController.OnMinTimeElapsed` | scripts.js:106-109 | MIN_TIME callback: sets `minTimeElapsed`, checks; keeps the invariant |
| `Preloader.PreloaderController.OnResourcesReady` | scripts.js:153-154 | end of the resource race: sets `readyToShow`, checks; keeps the invariant |
| `Preloader.PreloaderController.OnMaxTimeElapsed` | scripts.js:159 | MAX_TIME fallback: ends regardless, at most once |
| `Theme.ResolveTheme` | scripts.js:168-177 | a non-empty stored value always wins; otherwise `"dark"` iff matchMedia exists and reports dark, else `"light"`; the result is never empty |
| `Theme.Toggled` | scripts.js:199 | the new theme is `"dark"` iff the current one is `"light"`, and is always `"light"` or `"dark"` |
| `Theme.StoreAfterToggle` | scripts.js:197-201 | after a toggle storage holds `"light"` or `"dark"`, different from a stored `"light"`/`"dark"`; on a first visit it is the opposite of the OS preference |
| `Theme.ToggleTwiceRestores` | scripts.js:197-201 | toggling twice from a stored `"light"` or `"dark"` restores it, whatever the OS reports meanwhile |
| `Theme.ThemeController.constructor` | scripts.js:204 | page load applies the resolved theme: storage holds it and the page shows it |
| `Theme.IsSet` | scripts.js:170 | `if (saved)` passes exactly when a value is stored and it is not the empty string |
| `Theme.ThemeController.GetCurrentTheme` | scripts.js:168-177 | the current theme is `ResolveTheme` of what storage holds; once a theme has been applied, it is the stored one |
| `Theme.ThemeController.ApplyTheme` | scripts.js:179-195 | afterwards the stored value equals the applied theme, the `dark-theme` class and `data-theme` say dark iff it is `"dark"`, and the icons follow |
| `Theme.ThemeController.ToggleTheme` | scripts.js:197-202 | from any storage content, the result flips the theme resolved from storage (not the one the page shows); when page and storage agreed it flips the stored theme; it is written back to storage and the page shows it |
| `MobileMenu.MenuController.constructor` | scripts.js:256 | the menu starts closed with every mirror consistent |
| `MobileMenu.MenuController.SetMenu` | scripts.js:258-269 | afterwards `isMenuOpen == open`, aria-expanded is `"true"`/`"false"` accordingly, `hidden == !open`, overflow lock and `is-open` class iff open |
| `MobileMenu.MenuController.OnBurgerClick` | scripts.js:271-274 | the burger flips the menu |
| `MobileMenu.MenuController.OnLinkClick` | scripts.js:276-280 | a menu link leaves the menu closed, and changes nothing when it was closed |
| `MobileMenu.MenuController.OnDocumentClick` | scripts.js:282-288 | an outside click closes an open menu; clicks inside the menu or on the burger keep it; it never opens the menu |
| `MobileMenu.MenuController.OnKeyDown` | scripts.js:290-294 | Escape closes an open menu; no key opens it |
| `Forms.TrimStart` | scripts.js:359 | removes exactly the leading whitespace: a suffix of the input that does not start with whitespace, everything before it whitespace |
| `Forms.TrimEnd` | scripts.js:359 | removes exactly the trailing whitespace: a prefix of the input that does not end with whitespace, everything after it whitespace |
| `Forms.Trim` | scripts.js:359 | `trim()` never lengthens the value; a non-empty result neither starts nor ends with whitespace; the result is empty iff every character is whitespace |
| `Forms.BlankIffTrimmedEmpty` | scripts.js:359 | `!input.value.trim()` holds iff the value is blank, i.e. made of whitespace only |
| `Forms.ValidateRequired` | scripts.js:355-365 | every required input is visited; its error flag is set iff its trimmed value is empty; the form is valid iff no input is blank |
| `Forms.FakeSubmit` | scripts.js:352-379 | the submit is rejected (alert, modal stays) iff some required field is blank; it is accepted iff all are filled and the form has a submit button |
| `Modals.CloseAsWritten` | scripts.js:318-325 | `closeModal` as written removes `open` from the given modal only, every other modal keeping its open state, and clears `activeModal` and the body class whatever modal it is given |
| `Modals.EscapeAsWritten` | scripts.js:342-346 | the Escape handler over the as-written close: keys other than Escape and an Escape with no active modal change nothing; Escape closes the active modal, clearing `activeModal` and the body class |
| `Modals.CloseAsWrittenLosesOpenModal` | scripts.js:386-387 | a delayed close of an already closed modal leaves another modal open with `activeModal` null, breaking the stack of one, and Escape then does nothing |
| `Modals.Close` | scripts.js:318-325 | corrected close: the given modal is no longer open; active modal and body class are reset iff it is the active one; the stack of one is preserved |
| `Modals.Open` | scripts.js:303-316 | a missing id or the active modal changes nothing; otherwise the previous modal is closed first and the requested one becomes the only open, active modal |
| `Modals.Escape` | scripts.js:342-346 | Escape closes the active modal, leaving none open; other keys change nothing |
| `Modals.StackOfOneAlways` | scripts.js:301-346 | after any sequence of opens, closes and key presses at most one modal is open, and it is `activeModal` |
| `Modals.ModalController.constructor` | scripts.js:301 | no modal is active or open at set-up |
| `Modals.ModalController.CloseModal` | scripts.js:318-325 | the class's close equals the corrected `Close` |
| `Modals.ModalController.OpenModal` | scripts.js:303-316 | the class's `openModal` equals `Open` |
| `Modals.ModalController.OnKeyDown` | scripts.js:342-346 | the class's keydown handler equals `Escape` |
| `Progress.Clamp01` | scripts.js:232 | `Math.max(0, Math.min(1, x))` lies in [0, 1] and is the identity inside it |
| `Progress.CarouselFraction` | scripts.js:583-584 | the carousel fraction lies in [0, 1]; it is exactly 1 without overflow; with overflow it scales back to the offset, is 0 at the start and 1 at or past the end |
| `Progress.PageScrollTop` | scripts.js:230 | the root's scroll offset, or the body's when the root's is 0 |
| `Progress.PageFraction` | scripts.js:229-232 | the page fraction lies in [0, 1]; without overflow it is the clamped offset itself; with overflow it scales back to the offset |
| `Progress.NoOverflowReadsDiffer` | scripts.js:231 | with nothing to scroll and at rest the page bar reads 0 while the carousel bar reads 1 |
| `Chart.ViewBox` | scripts.js:745-746 | a zero view-box size falls back to 720×260, giving a 686×212 inner area |
| `Chart.InnerWidth` | scripts.js:749 | `innerW` plus the left and right padding make up the view-box width |
| `Chart.InnerHeight` | scripts.js:750 | `innerH` plus the top and bottom padding make up the view-box height |
| `Chart.Baseline` | scripts.js:776 | the baseline `y0` lies the bottom padding above the view-box's lower edge |
| `Chart.IndexFraction` | scripts.js:762 | `i / (labels.length - 1)` is 0 for the first label, 1 for the last, and in [0, 1] for every label index |
| `Chart.ValueDepth` | scripts.js:763 | `1 - (v - minY) / (maxY - minY)` is 0 at the maximum, 1 at the minimum, and in [0, 1] for values on the scale |
| `Chart.XAt` | scripts.js:762 | `xAt(0)` is the left padding and `xAt(5)` the right edge of the inner area |
| `Chart.YAt` | scripts.js:763 | `yAt(100)` is the top padding and `yAt(0)` the baseline |
| `Chart.XAtWithinPlot` | scripts.js:762 | every month index maps inside [pad.l, pad.l + innerW] |
| `Chart.YAtWithinPlot` | scripts.js:763 | every value in [0, 100] maps inside [pad.t, pad.t + innerH] |
| `Chart.XAtStrictlyIncreasing` | scripts.js:762 | with a positive inner width, a later index lies strictly further right |
| `Chart.YAtStrictlyDecreasing` | scripts.js:763 | with a positive inner height, a larger value lies strictly higher |
| `Chart.MakePath` | scripts.js:765-770 | one path command per value: a move for the first, a line for each later one, never a close |
| `Chart.MakeArea` | scripts.js:772-778 | three commands beyond the line: two baseline segments and a close |
| `Chart.AreaClosesAtBaseline` | scripts.js:772-778 | the area starts at the left edge, drops from the last point at the right edge to the baseline `pad.t + innerH`, returns to the left edge and closes; every data vertex is on or above the baseline |
| `Chart.SeriesData` | scripts.js:754-758 | every series has one value per month label, on the 0–100 scale |
| `Chart.Round` | scripts.js:906 | `Math.round` gives the nearest integer, halves rounded up |
| `Chart.NearestIdxByClientX` | scripts.js:902-908 | the result is an index in [0, 5]; 0 at or left of the stage's left edge, 5 at or right of its right edge, the nearest index to the pointer's relative position otherwise; on a zero-width stage exactly at the edge JavaScript yields NaN (None) |
| `Chart.NearestIdxMonotone` | scripts.js:902-908 | moving the pointer right never decreases the index |
| `Chart.CentreMapsToIndexThree` | scripts.js:906 | the stage's horizontal centre maps to index 3 (2.5 rounds up) |
| `Carousel.CardStep` | scripts.js:565-570 | one advance is a card width plus the 14 px gap, 354 px when there is no card |
| `Carousel.AutoStep` | scripts.js:612-617 | the tick resets to the start iff the offset is within 10 px of the end, else advances one card |
| `Carousel.ClampOffset` | scripts.js:569-572 | the browser keeps a requested scroll offset within [0, overflow] |
| `Carousel.CasesSlider.ProgressFraction` | scripts.js:581-586 | the indicator fraction lies in [0, 1] |
| `Carousel.CasesSlider.constructor` | scripts.js:628-629 | the track starts at offset 0 with the guard down; the interval runs iff motion is allowed and the device is not mobile or low-performance |
| `Carousel.CasesSlider.AtMostOneInterval` | scripts.js:608-626 | the slider never has more than one auto-advance interval running |
| `Carousel.CasesSlider.ScrollByCard` | scripts.js:562-576 | while `isScrolling` is set nothing changes; otherwise the offset moves by one card step in the given direction and the guard goes up |
| `Carousel.CasesSlider.OnScrollGuardElapsed` | scripts.js:575 | the guard timer lowers `isScrolling` and moves nothing |
| `Carousel.CasesSlider.OnAutoScrollTick` | scripts.js:611-618 | within 10 px of the end the track returns to 0 regardless of the guard; otherwise it advances one card, and while the guard is up nothing changes at all |
| `Carousel.CasesSlider.StartAutoScroll` | scripts.js:608-619 | no second interval while one exists; none when motion is reduced or the device is mobile or low-performance |
| `Carousel.CasesSlider.StopAutoScroll` | scripts.js:621-626 | afterwards no interval is running |

## Left out

- Timers, `requestAnimationFrame` loops, `throttle`/`debounce` and the asynchronous resource race (`waitCriticalResources`) are event-loop scheduling. Only the state changes they deliver are modelled, as methods the environment may call in any order.
- The preloader's fade, its node removal and the progress bar styling are DOM effects. `showCount` counts how often they were started.
- `initPreloader` returns early when the splash element is missing (scripts.js:63-66). That branch sets up no gate and is not modelled.
- DOM rendering is I/O against the page: `innerHTML`/`textContent`, SVG element creation, focus on the first focusable element of a modal, the submit button's "sending" and "accepted" labels and its reset after the fake delay.
- `toFixed` formatting of path coordinates and of progress widths is float-to-string conversion. The geometry is proved over `real`.
- JavaScript numbers are IEEE doubles and are modelled as `real`. NaN is modelled only where the source divides by a zero-width stage (`Chart.NearestIdxByClientX`).
- `MobileMenu.MenuController.constructor` takes the markup to be in the closed state (aria-expanded `"false"`, `hidden`, no `is-open`). The script does not set these before the first `setMenu` call.
- `Modals.ModalController.constructor` likewise assumes no modal carries `open` in the markup.
- The idle chart oscillation (`Math.sin`), the parallax damping and the cubic-ease KPI tween are floating-point animation numerics. So is the tooltip position clamp.
- Legend switching of the active series and the re-render on resize are DOM re-rendering.
- Touch drag on the carousel is pointer plumbing. Note that a touch starting at offset 0 counts as no drag (scripts.js:597).
- Capability probes (`hardwareConcurrency`, `deviceMemory`, `matchMedia`, passive-listener detection) are environment queries. They are parameters.
- Out of scope: clipboard copy, reveal-on-scroll, magnetic buttons, expandables and the marquee.
- Marquee idempotence is not claimed: the resize handler re-clones every logo pill, including earlier clones.
- `Carousel.ClampOffset` is how the browser treats `scrollBy`/`scrollTo` on an element. It is not code in the script.
- `Carousel.CasesSlider.ScrollByCard`, `Carousel.CasesSlider.OnAutoScrollTick`: `behavior: "smooth"` scrolling (scripts.js:569-572, 614) is modelled as an instant jump. `scrollLeft` is set to the destination at once; the intermediate offsets the browser passes through, and the scroll events they fire, are not modelled.
- `Theme.ThemeController.constructor`, `Theme.ThemeController.ApplyTheme`: `localStorage.getItem`/`setItem` (scripts.js:169, 185) are assumed not to throw. In the script an exception there escapes `initTheme` (scripts.js:210) and ends the whole set-up function, so nothing wired after that line would run; the model does not capture that failure.
- Writes to the theme's storage key by other tabs of the same origin are not an operation of the model. `Theme.ThemeController.ToggleTheme` is specified from whatever storage holds, so a state in which storage and page disagree is covered; `Theme.ThemeController.Valid` (page matches storage) holds only after this page's own writes.
- `Carousel.CasesSlider.constructor`: assumes a fresh track at offset 0 whose `scrollWidth` and `clientWidth` stay fixed. The script never resets the offset (scripts.js:557-560), and a resize changes both sizes; neither is modelled.
- The header's `scrolled` class (scripts.js:239) is a single comparison with 16 px written straight into the DOM and is not modelled.
- `Chart.MakePath`: its contract gives only the command count and that the first command is a move and the others are lines. That the i-th vertex is `(XAt(f, i), YAt(f, vals[i]))` holds by its body alone. `Chart.AreaClosesAtBaseline` states only the first and last vertices and that every vertex's y lies on or above the baseline; the plot-bound lemmas bound `XAt` and `YAt` themselves.

## Findings

| source | as written | input that shows it | evidently intended | confidence | as-written member | corrected member |
|---|---|---|---|---|---|---|
| scripts.js:318-325 | `closeModal(m)` clears `activeModal` and the body's `modal-open` class whatever `m` is, also when `m` is not the active modal | Submit a valid brief form, press Escape, then open the callback modal within the 2.2 s delay. The delayed `closeModal(briefModal)` (scripts.js:386-387) leaves the callback modal open with `activeModal` null and the body unlocked, and Escape no longer closes it | reset `activeModal` and the body class only when the modal being closed is the active one | medium, not executed | `Modals.CloseAsWrittenLosesOpenModal` | `Modals.Close` |
