/**
 * The coordinate mapping of the growth chart in `initGrowthChart`
 * (scripts.js:715-1060): month index to x, percentage to y, the area path's
 * baseline, and the pointer-to-index mapping used by the hover tooltip.
 * SVG paths are sequences of drawing commands over `real`, not strings.
 */
module Chart {
  import opened Wrappers
  import opened Progress

  /** The inner padding `pad` (scripts.js:748). */
  const PadLeft: real := 18.0
  const PadRight: real := 16.0
  const PadTop: real := 18.0
  const PadBottom: real := 30.0

  /** Six month labels (scripts.js:752), hence six points per series. */
  const LabelCount: nat := 6

  /** The fixed value scale (scripts.js:761). */
  const MinY: real := 0.0
  const MaxY: real := 100.0

  /** The drawing area: the SVG view box. */
  datatype Frame = Frame(width: real, height: real)

  /** `vb.width || 720` and `vb.height || 260` (scripts.js:745-746): a zero size falls back to the default. */
  function ViewBox(vbWidth: real, vbHeight: real): (f: Frame)
    ensures f.width != 0.0 && f.height != 0.0
    ensures vbWidth != 0.0 ==> f.width == vbWidth
    ensures vbHeight != 0.0 ==> f.height == vbHeight
    ensures vbWidth == 0.0 && vbHeight == 0.0 ==> InnerWidth(f) == 686.0 && InnerHeight(f) == 212.0
  {
    Frame(if vbWidth != 0.0 then vbWidth else 720.0, if vbHeight != 0.0 then vbHeight else 260.0)
  }

  /** `innerW` and `innerH` (scripts.js:749-750). */
  function InnerWidth(f: Frame): (w: real)
    ensures PadLeft + w + PadRight == f.width
  {
    f.width - PadLeft - PadRight
  }

  function InnerHeight(f: Frame): (h: real)
    ensures PadTop + h + PadBottom == f.height
  {
    f.height - PadTop - PadBottom
  }

  /** The y of value 0: the bottom edge of the inner area, where the area path closes (scripts.js:776). */
  function Baseline(f: Frame): (y: real)
    ensures y + PadBottom == f.height
  {
    PadTop + InnerHeight(f)
  }

  /** `i / (labels.length - 1)`: how far along the month axis index `i` sits. */
  function IndexFraction(i: int): (t: real)
    ensures 0 <= i < LabelCount ==> 0.0 <= t <= 1.0
    ensures i == 0 ==> t == 0.0
    ensures i == LabelCount - 1 ==> t == 1.0
  {
    (i as real) / 5.0
  }

  /** `1 - (v - minY) / (maxY - minY)`: how far down the value axis value `v` sits. */
  function ValueDepth(v: real): (t: real)
    ensures MinY <= v <= MaxY ==> 0.0 <= t <= 1.0
    ensures v == MaxY ==> t == 0.0
    ensures v == MinY ==> t == 1.0
  {
    1.0 - (v - MinY) / 100.0
  }

  /** `xAt` (scripts.js:762): indices spread evenly across the inner width. */
  function XAt(f: Frame, i: int): (x: real)
    ensures i == 0 ==> x == PadLeft
    ensures i == LabelCount - 1 ==> x == PadLeft + InnerWidth(f)
  {
    PadLeft + InnerWidth(f) * IndexFraction(i)
  }

  /** `yAt` (scripts.js:763): 100 at the top of the inner area, 0 at its bottom. */
  function YAt(f: Frame, v: real): (y: real)
    ensures v == MaxY ==> y == PadTop
    ensures v == MinY ==> y == Baseline(f)
  {
    PadTop + InnerHeight(f) * ValueDepth(v)
  }

  /** Every month index lands inside the inner area's width. */
  lemma XAtWithinPlot(f: Frame, i: int)
    requires InnerWidth(f) >= 0.0 && 0 <= i < LabelCount
    ensures PadLeft <= XAt(f, i) <= PadLeft + InnerWidth(f)
  {
    ScaleWithin(InnerWidth(f), IndexFraction(i));
  }

  /** Every value of the 0-100 scale lands inside the inner area's height. */
  lemma YAtWithinPlot(f: Frame, v: real)
    requires InnerHeight(f) >= 0.0 && MinY <= v <= MaxY
    ensures PadTop <= YAt(f, v) <= Baseline(f)
  {
    ScaleWithin(InnerHeight(f), ValueDepth(v));
  }

  /** A later month is drawn strictly further right. */
  lemma XAtStrictlyIncreasing(f: Frame, i: int, j: int)
    requires InnerWidth(f) > 0.0 && i < j
    ensures XAt(f, i) < XAt(f, j)
  {
    ScaleStrict(InnerWidth(f), IndexFraction(i), IndexFraction(j));
  }

  /** A larger value is drawn strictly higher (smaller y). */
  lemma YAtStrictlyDecreasing(f: Frame, u: real, v: real)
    requires InnerHeight(f) > 0.0 && u < v
    ensures YAt(f, u) > YAt(f, v)
  {
    ScaleStrict(InnerHeight(f), ValueDepth(v), ValueDepth(u));
  }

  /** A fraction in [0, 1] of a non-negative length stays within that length. */
  lemma ScaleWithin(a: real, t: real)
    requires a >= 0.0 && 0.0 <= t <= 1.0
    ensures 0.0 <= a * t <= a
  {
    assert a - a * t == a * (1.0 - t);
    MulNonNegative(a, 1.0 - t);
    MulNonNegative(a, t);
  }

  lemma MulNonNegative(a: real, b: real)
    requires a >= 0.0 && b >= 0.0
    ensures a * b >= 0.0
  {
  }

  lemma ScaleStrict(w: real, a: real, b: real)
    requires w > 0.0 && a < b
    ensures w * a < w * b
  {
    MulPositive(w, b - a);
    assert w * b - w * a == w * (b - a);
  }

  lemma MulPositive(a: real, b: real)
    requires a > 0.0 && b > 0.0
    ensures a * b > 0.0
  {
  }

  /** One command of an SVG path. */
  datatype PathCmd = MoveTo(x: real, y: real) | LineTo(x: real, y: real) | ClosePath

  /** `makePath` (scripts.js:765-770): a move to the first point, then a line to each next one. */
  function MakePath(f: Frame, vals: seq<real>): (path: seq<PathCmd>)
    ensures |path| == |vals|
    ensures forall i :: 0 <= i < |path| ==> (path[i].MoveTo? <==> i == 0) && !path[i].ClosePath?
  {
    seq(|vals|, i requires 0 <= i < |vals| =>
      if i == 0 then MoveTo(XAt(f, i), YAt(f, vals[i])) else LineTo(XAt(f, i), YAt(f, vals[i])))
  }

  /** `makeArea` (scripts.js:772-778): the line, then down to the baseline, back to the first column, closed. */
  function MakeArea(f: Frame, vals: seq<real>): (area: seq<PathCmd>)
    ensures |area| == |vals| + 3
  {
    MakePath(f, vals) + [LineTo(XAt(f, LabelCount - 1), Baseline(f)), LineTo(XAt(f, 0), Baseline(f)), ClosePath]
  }

  /**
   * For a six-point series on the 0-100 scale, the area outline starts at the
   * left edge, its last data point and its drop to the baseline share the
   * right edge, it runs back along the baseline to the left edge and closes;
   * every data vertex lies on or above the baseline.
   */
  lemma AreaClosesAtBaseline(f: Frame, vals: seq<real>)
    requires |vals| == LabelCount
    requires InnerHeight(f) >= 0.0
    requires forall i :: 0 <= i < |vals| ==> MinY <= vals[i] <= MaxY
    ensures var a := MakeArea(f, vals); var n := |vals|;
      && a[..n] == MakePath(f, vals)
      && a[0] == MoveTo(PadLeft, YAt(f, vals[0]))
      && a[n - 1] == LineTo(PadLeft + InnerWidth(f), YAt(f, vals[n - 1]))
      && a[n] == LineTo(PadLeft + InnerWidth(f), Baseline(f))
      && a[n + 1] == LineTo(PadLeft, Baseline(f))
      && a[n + 2] == ClosePath
      && (forall i :: 0 <= i < n ==> a[i].y <= Baseline(f))
  {
    var a := MakeArea(f, vals);
    var n := |vals|;
    assert a[..n] == MakePath(f, vals);
    forall i | 0 <= i < n
      ensures a[i].y <= Baseline(f)
    {
      assert a[i] == MakePath(f, vals)[i];
      YAtWithinPlot(f, vals[i]);
    }
  }

  /** The three series (scripts.js:754-758). */
  datatype SeriesKey = Revenue | Leads | Roi

  /** Each series has one value per month label, on the 0-100 scale. */
  function SeriesData(key: SeriesKey): (vals: seq<real>)
    ensures |vals| == LabelCount
    ensures forall i :: 0 <= i < |vals| ==> MinY <= vals[i] <= MaxY
  {
    match key
    case Revenue => [12.0, 28.0, 45.0, 62.0, 76.0, 92.0]
    case Leads => [10.0, 18.0, 34.0, 49.0, 63.0, 78.0]
    case Roi => [8.0, 16.0, 31.0, 44.0, 58.0, 71.0]
  }

  /** `Math.round`: the nearest integer, halves rounded up. */
  function Round(x: real): (r: int)
    ensures (r as real) - 0.5 <= x < (r as real) + 0.5
  {
    (x + 0.5).Floor
  }

  /**
   * `nearestIdxByClientX` (scripts.js:902-908) for a stage whose bounding box
   * starts at `rectLeft` and is `rectWidth` wide.  On a zero-width box the
   * division yields plus or minus Infinity (clamped like any ratio) or, for a
   * pointer exactly on the edge, NaN, which no comparison accepts: `None`.
   * Otherwise the result is the month nearest the pointer's relative position.
   */
  function NearestIdxByClientX(clientX: real, rectLeft: real, rectWidth: real): (idx: Option<int>)
    requires rectWidth >= 0.0
    ensures idx.None? <==> rectWidth == 0.0 && clientX == rectLeft
    ensures idx.Some? ==> 0 <= idx.value < LabelCount
    ensures idx.Some? && clientX <= rectLeft ==> idx.value == 0
    ensures idx.Some? && clientX >= rectLeft + rectWidth ==> idx.value == LabelCount - 1
    ensures rectWidth > 0.0 ==>
      var t := Clamp01((clientX - rectLeft) / rectWidth) * ((LabelCount - 1) as real);
      (idx.value as real) - 0.5 <= t < (idx.value as real) + 0.5
  {
    var x := clientX - rectLeft;
    if rectWidth == 0.0 then
      if x == 0.0 then None else if x > 0.0 then Some(LabelCount - 1) else Some(0)
    else
      var u := Clamp01(x / rectWidth);
      assert x <= 0.0 ==> u == 0.0 by {
        if x <= 0.0 { DivNonPositive(x, rectWidth); }
      }
      assert x >= rectWidth ==> u == 1.0 by {
        if x >= rectWidth { DivAtLeastOne(x, rectWidth); }
      }
      var i := Round(u * ((LabelCount - 1) as real));
      Some(if i < 0 then 0 else if i > LabelCount - 1 then LabelCount - 1 else i)
  }

  lemma DivNonPositive(x: real, w: real)
    requires x <= 0.0 && w > 0.0
    ensures x / w <= 0.0
  {
  }

  lemma DivAtLeastOne(x: real, w: real)
    requires x >= w && w > 0.0
    ensures x / w >= 1.0
  {
  }

  lemma DivMonotone(a: real, b: real, w: real)
    requires a <= b && w > 0.0
    ensures a / w <= b / w
  {
    assert b / w - a / w == (b - a) / w;
  }

  /** Moving the pointer right never moves the highlighted month left. */
  lemma NearestIdxMonotone(c1: real, c2: real, rectLeft: real, rectWidth: real)
    requires rectWidth >= 0.0 && c1 <= c2
    requires NearestIdxByClientX(c1, rectLeft, rectWidth).Some?
    requires NearestIdxByClientX(c2, rectLeft, rectWidth).Some?
    ensures NearestIdxByClientX(c1, rectLeft, rectWidth).value <= NearestIdxByClientX(c2, rectLeft, rectWidth).value
  {
    if rectWidth > 0.0 {
      var d := (LabelCount - 1) as real;
      DivMonotone(c1 - rectLeft, c2 - rectLeft, rectWidth);
      Clamp01Monotone((c1 - rectLeft) / rectWidth, (c2 - rectLeft) / rectWidth);
      var u1, u2 := Clamp01((c1 - rectLeft) / rectWidth), Clamp01((c2 - rectLeft) / rectWidth);
      assert u1 * d <= u2 * d;
      assert Round(u1 * d) <= Round(u2 * d);
    }
  }

  /** The horizontal centre of the stage rounds up to month index 3 of 0..5 (2.5 rounds to 3). */
  lemma CentreMapsToIndexThree(rectLeft: real, rectWidth: real)
    requires rectWidth > 0.0
    ensures NearestIdxByClientX(rectLeft + rectWidth / 2.0, rectLeft, rectWidth) == Some(3)
  {
    assert (rectLeft + rectWidth / 2.0 - rectLeft) / rectWidth == 0.5;
    assert Round(0.5 * ((LabelCount - 1) as real)) == 3;
  }
}
