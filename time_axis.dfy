/**
 * The time axis of a chart (class `Plottable.Axis.Time`): the catalog of tick
 * intervals, the test that decides whether an interval's labels fit, the
 * choice of a (minor, major) pair of tick levels, the tick values that get a
 * mark, and the positions and offsets of the tick labels.
 *
 * Timestamps are integers (milliseconds). Pixel quantities are reals, as the
 * source's numbers are. The scale, the calendar arithmetic of the time units,
 * the date formatter and the text measurement are outside this model; they are
 * the arrow-typed fields of `Scale` and `Env`.
 */
module TimeAxis {
  import opened Wrappers
  import opened Numeric

  // ---------------------------------------------------------------------------
  // Interval catalog
  // ---------------------------------------------------------------------------

  datatype TimeUnit = Second | Minute | Hour | Day | Month | Year

  /** A step of a time interval: a positive number of units. */
  type Step = k: int | 0 < k witness 1

  datatype TimeInterval = TimeInterval(unit: TimeUnit, step: Step, formatString: string)

  /** Intervals for the minor tick labels, finest first. */
  const MinorIntervals: seq<TimeInterval> := [
    TimeInterval(Second, 1, "%I:%M:%S %p"),
    TimeInterval(Second, 5, "%I:%M:%S %p"),
    TimeInterval(Second, 10, "%I:%M:%S %p"),
    TimeInterval(Second, 15, "%I:%M:%S %p"),
    TimeInterval(Second, 30, "%I:%M:%S %p"),
    TimeInterval(Minute, 1, "%I:%M %p"),
    TimeInterval(Minute, 5, "%I:%M %p"),
    TimeInterval(Minute, 10, "%I:%M %p"),
    TimeInterval(Minute, 15, "%I:%M %p"),
    TimeInterval(Minute, 30, "%I:%M %p"),
    TimeInterval(Hour, 1, "%I %p"),
    TimeInterval(Hour, 3, "%I %p"),
    TimeInterval(Hour, 6, "%I %p"),
    TimeInterval(Hour, 12, "%I %p"),
    TimeInterval(Day, 1, "%a %e"),
    TimeInterval(Day, 1, "%e"),
    TimeInterval(Month, 1, "%B"),
    TimeInterval(Month, 1, "%b"),
    TimeInterval(Month, 3, "%B"),
    TimeInterval(Month, 6, "%B"),
    TimeInterval(Year, 1, "%Y"),
    TimeInterval(Year, 1, "%y"),
    TimeInterval(Year, 5, "%Y"),
    TimeInterval(Year, 25, "%Y")
  ]

  /** Intervals for the major tick labels; the last one is essentially blank. */
  const MajorIntervals: seq<TimeInterval> := [
    TimeInterval(Day, 1, "%B %e, %Y"),
    TimeInterval(Month, 1, "%B %Y"),
    TimeInterval(Year, 1, "%Y"),
    TimeInterval(Year, 100000, "")
  ]

  /** `MinorToMajor[j]` is the lowest minor index that maps to a major index past `j`. */
  const MinorToMajor: seq<int> := [14, 16, 20, 1000000]

  /** The shape of the catalog that the selection relies on. */
  lemma CatalogShape()
    ensures |MinorIntervals| == 24 && |MajorIntervals| == 4
    ensures |MinorToMajor| == |MajorIntervals|
    ensures forall a, b :: 0 <= a < b < |MinorToMajor| ==> MinorToMajor[a] < MinorToMajor[b]
    ensures MinorToMajor[|MinorToMajor| - 1] > |MinorIntervals|
  {
  }

  // ---------------------------------------------------------------------------
  // Minor index -> major index
  // ---------------------------------------------------------------------------

  /** The scan `while (minorToMajor[j] <= i) j++`, continued from `j`. */
  function MajorIndexFrom(i: int, j: nat): (r: nat)
    requires i < MinorToMajor[|MinorToMajor| - 1]
    requires j < |MinorToMajor|
    requires forall k :: 0 <= k < j ==> MinorToMajor[k] <= i
    ensures j <= r < |MinorToMajor| && i < MinorToMajor[r]
    ensures forall k :: 0 <= k < r ==> MinorToMajor[k] <= i
    decreases |MinorToMajor| - j
  {
    if MinorToMajor[j] <= i then MajorIndexFrom(i, j + 1) else j
  }

  /** The major index that goes with minor index `i`: the smallest `j` with `MinorToMajor[j] > i`. */
  function MajorIndex(i: int): (j: nat)
    requires i < MinorToMajor[|MinorToMajor| - 1]
    ensures j < |MajorIntervals| && i < MinorToMajor[j]
    ensures forall k :: 0 <= k < j ==> MinorToMajor[k] <= i
  {
    MajorIndexFrom(i, 0)
  }

  /** The correlation table spelled out for every minor index, the one past the end included. */
  lemma MajorIndexTable(i: int)
    requires 0 <= i <= |MinorIntervals|
    ensures MajorIndex(i) == if i <= 13 then 0 else if i <= 15 then 1 else if i <= 19 then 2 else 3
  {
  }

  /** The conditions of `MajorIndex` determine it: no other index satisfies them. */
  lemma MajorIndexUnique(i: int, j: nat)
    requires i < MinorToMajor[|MinorToMajor| - 1]
    requires j < |MinorToMajor| && i < MinorToMajor[j]
    requires forall k :: 0 <= k < j ==> MinorToMajor[k] <= i
    ensures j == MajorIndex(i)
  {
  }

  /** A coarser minor level never gets a finer major level. */
  lemma MajorIndexMonotone(i: int, i': int)
    requires i <= i' < MinorToMajor[|MinorToMajor| - 1]
    ensures MajorIndex(i) <= MajorIndex(i')
  {
  }

  // ---------------------------------------------------------------------------
  // Collaborators
  // ---------------------------------------------------------------------------

  /**
   * The time scale: its domain `[d0, d1]` and its tick enumeration
   * `tickInterval(unit, step)`.
   */
  datatype Scale = Scale(d0: int, d1: int, tickInterval: (TimeUnit, Step) -> seq<int>)

  /**
   * The rest of the environment: `offset(unit, date, k)` advances `date` by `k`
   * units (`d3.time.<unit>.offset`), `format(f, date)` renders a date with the
   * strftime pattern `f`, `textWidth(s)` is the width of `s` in the label
   * container and `textHeight` the height of a label.
   */
  datatype Env = Env(
    offset: (TimeUnit, int, int) -> int,
    format: (string, int) -> string,
    textWidth: string -> real,
    textHeight: real)

  /** The tick values the scale enumerates for an interval. */
  function LevelTicks(scale: Scale, iv: TimeInterval): seq<int>
  {
    scale.tickInterval(iv.unit, iv.step)
  }

  predicate Ascending(s: seq<int>)
  {
    forall a, b :: 0 <= a < b < |s| ==> s[a] <= s[b]
  }

  predicate Within(s: seq<int>, lo: int, hi: int)
  {
    forall k :: 0 <= k < |s| ==> lo <= s[k] <= hi
  }

  /** What the scale is assumed to do: an ordered domain and ascending ticks inside it. */
  predicate TicksInDomain(scale: Scale, iv: TimeInterval)
  {
    scale.d0 <= scale.d1 &&
    Ascending(LevelTicks(scale, iv)) && Within(LevelTicks(scale, iv), scale.d0, scale.d1)
  }

  ghost predicate NonNegativeWidths(env: Env)
  {
    forall s :: env.textWidth(s) >= 0.0
  }

  // ---------------------------------------------------------------------------
  // Fit test (isEnoughSpace)
  // ---------------------------------------------------------------------------

  function LabelWidth(env: Env, formatString: string, t: int): real
  {
    env.textWidth(env.format(formatString, t))
  }

  /** The widest rendered label among the dates `ts` (`d3.max` over the widths). */
  function MaxLabelWidth(env: Env, formatString: string, ts: seq<int>): (m: real)
    requires |ts| > 0
    ensures forall k :: 0 <= k < |ts| ==> LabelWidth(env, formatString, ts[k]) <= m
    ensures exists k :: 0 <= k < |ts| && LabelWidth(env, formatString, ts[k]) == m
  {
    if |ts| == 1 then LabelWidth(env, formatString, ts[0])
    else MaxReal(LabelWidth(env, formatString, ts[0]), MaxLabelWidth(env, formatString, ts[1..]))
  }

  /** The dates whose labels are measured: the enumerated ticks, then `d0` and `d1`. */
  function LabelCandidates(scale: Scale, iv: TimeInterval): (c: seq<int>)
    ensures |c| == |LevelTicks(scale, iv)| + 2
  {
    LevelTicks(scale, iv) + [scale.d0, scale.d1]
  }

  /** The cheap test: fifty steps from `d0` still fall short of `d1`. */
  predicate TooManyTicks(scale: Scale, env: Env, iv: TimeInterval)
  {
    env.offset(iv.unit, scale.d0, iv.step * 50) < scale.d1
  }

  /** Whether the labels of interval `iv` fit in `width` pixels with `padding` on each side. */
  predicate Fits(scale: Scale, env: Env, padding: real, width: real, iv: TimeInterval)
  {
    !TooManyTicks(scale, env, iv) &&
    var c := LabelCandidates(scale, iv);
    (2.0 * padding + MaxLabelWidth(env, iv.formatString, c)) * (|c| + 1) as real < width
  }

  /** The cheap rejection: with too many ticks an interval fails whatever the width. */
  lemma CheapRejection(scale: Scale, env: Env, padding: real, width: real, iv: TimeInterval)
    requires TooManyTicks(scale, env, iv)
    ensures !Fits(scale, env, padding, width, iv)
  {
  }

  /**
   * The exact stage of `Fits` measures the two domain ends after the
   * enumerated ticks, and the widest label is at least as wide as the labels of `d0` and `d1`
   * (so an interval with no tick inside the domain is still measured).
   */
  lemma ExactStage(scale: Scale, env: Env, iv: TimeInterval)
    ensures var c := LabelCandidates(scale, iv); c[|c| - 2] == scale.d0 && c[|c| - 1] == scale.d1
    ensures var m := MaxLabelWidth(env, iv.formatString, LabelCandidates(scale, iv));
      LabelWidth(env, iv.formatString, scale.d0) <= m && LabelWidth(env, iv.formatString, scale.d1) <= m
  {
    var c := LabelCandidates(scale, iv);
    assert c[|c| - 2] == scale.d0 && c[|c| - 1] == scale.d1;
  }

  lemma ProductMonotone(a: real, b: real, n: real)
    requires a <= b && n >= 0.0
    ensures a * n <= b * n
  {
  }

  /**
   * When an interval fits, every one of its labels, padded on both sides, fits
   * in its share of the width: one of `|c| + 1` equal slots.
   */
  lemma FitsEveryLabel(scale: Scale, env: Env, padding: real, width: real, iv: TimeInterval, k: int)
    requires Fits(scale, env, padding, width, iv)
    requires 0 <= k < |LabelCandidates(scale, iv)|
    ensures var c := LabelCandidates(scale, iv);
      (2.0 * padding + LabelWidth(env, iv.formatString, c[k])) * (|c| + 1) as real < width
  {
    var c := LabelCandidates(scale, iv);
    var n := (|c| + 1) as real;
    var widest := 2.0 * padding + MaxLabelWidth(env, iv.formatString, c);
    var padded := 2.0 * padding + LabelWidth(env, iv.formatString, c[k]);
    assert widest * n < width;
    assert padded <= widest;
    ProductMonotone(padded, widest, n);
  }

  /** More width never makes an interval stop fitting. */
  lemma FitsMonotoneInWidth(scale: Scale, env: Env, padding: real, w: real, w': real, iv: TimeInterval)
    requires w <= w'
    ensures Fits(scale, env, padding, w, iv) ==> Fits(scale, env, padding, w', iv)
  {
  }

  // ---------------------------------------------------------------------------
  // Level selection (getTickLevels)
  // ---------------------------------------------------------------------------

  /** The first minor index at or after `k` whose interval fits, or `|MinorIntervals|` if none does. */
  function FirstFitFrom(scale: Scale, env: Env, padding: real, width: real, k: nat): (r: nat)
    requires k <= |MinorIntervals|
    ensures k <= r <= |MinorIntervals|
    ensures r < |MinorIntervals| ==> Fits(scale, env, padding, width, MinorIntervals[r])
    ensures forall q :: k <= q < r ==> !Fits(scale, env, padding, width, MinorIntervals[q])
    decreases |MinorIntervals| - k
  {
    if k == |MinorIntervals| then k
    else if Fits(scale, env, padding, width, MinorIntervals[k]) then k
    else FirstFitFrom(scale, env, padding, width, k + 1)
  }

  /** The minor index the source's selection loop ends with (possibly one past the end). */
  function FirstFit(scale: Scale, env: Env, padding: real, width: real): nat
  {
    FirstFitFrom(scale, env, padding, width, 0)
  }

  /** A wider axis never selects a coarser minor interval. */
  lemma {:induction false} FirstFitMonotone(scale: Scale, env: Env, padding: real, w: real, w': real)
    requires w <= w'
    ensures FirstFit(scale, env, padding, w') <= FirstFit(scale, env, padding, w)
  {
    var r := FirstFit(scale, env, padding, w);
    if r < |MinorIntervals| {
      FitsMonotoneInWidth(scale, env, padding, w, w', MinorIntervals[r]);
    }
  }

  lemma ProductNonNegative(a: real, b: real)
    requires a >= 0.0 && b >= 0.0
    ensures a * b >= 0.0
  {
  }

  /** As written: on an axis with no width no interval fits, from index `k` on. */
  lemma {:induction false} NothingFitsFrom(scale: Scale, env: Env, padding: real, width: real, k: nat)
    requires k <= |MinorIntervals|
    requires NonNegativeWidths(env) && padding >= 0.0 && width <= 0.0
    ensures FirstFitFrom(scale, env, padding, width, k) == |MinorIntervals|
    decreases |MinorIntervals| - k
  {
    if k < |MinorIntervals| {
      var iv := MinorIntervals[k];
      var c := LabelCandidates(scale, iv);
      var m := MaxLabelWidth(env, iv.formatString, c);
      assert LabelWidth(env, iv.formatString, c[0]) >= 0.0;
      assert LabelWidth(env, iv.formatString, c[0]) <= m;
      ProductNonNegative(2.0 * padding + m, (|c| + 1) as real);
      assert !Fits(scale, env, padding, width, iv);
      NothingFitsFrom(scale, env, padding, width, k + 1);
    }
  }

  /**
   * As written, the selection loop can end one past the last minor interval,
   * an index at which `minorIntervals` holds no entry.
   */
  lemma NarrowAxisSelectsPastEnd(scale: Scale, env: Env, padding: real, width: real)
    requires NonNegativeWidths(env) && padding >= 0.0 && width <= 0.0
    ensures FirstFit(scale, env, padding, width) == |MinorIntervals|
    ensures MajorIndex(FirstFit(scale, env, padding, width)) == |MajorIntervals| - 1
  {
    NothingFitsFrom(scale, env, padding, width, 0);
    MajorIndexTable(|MinorIntervals|);
  }

  /**
   * The corrected minor index: the finest interval that fits, or the coarsest
   * interval when none fits. It is always an index into `MinorIntervals`.
   */
  function SelectedMinor(scale: Scale, env: Env, padding: real, width: real): (i: nat)
    ensures i < |MinorIntervals|
    ensures Fits(scale, env, padding, width, MinorIntervals[i]) || i == |MinorIntervals| - 1
    ensures forall q :: 0 <= q < i ==> !Fits(scale, env, padding, width, MinorIntervals[q])
    ensures FirstFit(scale, env, padding, width) < |MinorIntervals| ==> i == FirstFit(scale, env, padding, width)
  {
    var f := FirstFit(scale, env, padding, width);
    if f < |MinorIntervals| then f else |MinorIntervals| - 1
  }

  /** The corrected selection keeps the monotonicity in the width. */
  lemma SelectedMinorMonotone(scale: Scale, env: Env, padding: real, w: real, w': real)
    requires w <= w'
    ensures SelectedMinor(scale, env, padding, w') <= SelectedMinor(scale, env, padding, w)
  {
    FirstFitMonotone(scale, env, padding, w, w');
  }

  // ---------------------------------------------------------------------------
  // Label positions
  // ---------------------------------------------------------------------------

  /** A JavaScript `Date` built from a fractional time value keeps its integer part. */
  function Trunc(x: real): int
  {
    if x >= 0.0 then x.Floor else -((-x).Floor)
  }

  /** `new Date((b - a) / 2 + a)`: the instant half-way between `a` and `b`. */
  function Midpoint(a: int, b: int): (m: int)
    ensures Min(a, b) <= m <= Max(a, b)
    ensures a == b ==> m == a
  {
    var x := (b - a) as real / 2.0 + a as real;
    assert Min(a, b) as real <= x <= Max(a, b) as real;
    Trunc(x)
  }

  /** The tick positions whose gaps receive the labels: `d0`, the ticks, `d1`. */
  function TickPositions(scale: Scale, iv: TimeInterval): (tp: seq<int>)
    ensures |tp| == |LevelTicks(scale, iv)| + 2
  {
    [scale.d0] + LevelTicks(scale, iv) + [scale.d1]
  }

  /** One label in the middle of each pair of neighbouring positions. */
  function CenteredPositions(tp: seq<int>): (r: seq<int>)
    requires |tp| >= 1
    ensures |r| == |tp| - 1
    ensures forall k :: 0 <= k < |r| ==> r[k] == Midpoint(tp[k], tp[k + 1])
  {
    if |tp| == 1 then [] else [Midpoint(tp[0], tp[1])] + CenteredPositions(tp[1..])
  }

  /** Labels are centred exactly for unit-step intervals. */
  function LabelPositions(tp: seq<int>, center: bool): (r: seq<int>)
    requires |tp| >= 1
    ensures |r| == if center then |tp| - 1 else |tp|
    ensures center ==> forall k :: 0 <= k < |r| ==> r[k] == Midpoint(tp[k], tp[k + 1])
    ensures !center ==> r == tp
  {
    if center then CenteredPositions(tp) else tp
  }

  /** When the scale behaves, the boundary-bracketed positions are ascending. */
  lemma TickPositionsAscending(scale: Scale, iv: TimeInterval)
    requires TicksInDomain(scale, iv)
    ensures Ascending(TickPositions(scale, iv))
  {
    var ticks := LevelTicks(scale, iv);
    var tp := TickPositions(scale, iv);
    forall a, b | 0 <= a < b < |tp|
      ensures tp[a] <= tp[b]
    {
      if 0 < a && b < |tp| - 1 {
        assert tp[a] == ticks[a - 1] && tp[b] == ticks[b - 1];
      } else if a == 0 && b < |tp| - 1 {
        assert tp[b] == ticks[b - 1];
      } else if 0 < a {
        assert tp[a] == ticks[a - 1];
      }
    }
  }

  /** Each centred label lies between its two neighbours, and the labels stay in order. */
  lemma CenteredPositionsBetween(tp: seq<int>)
    requires |tp| >= 1 && Ascending(tp)
    ensures var r := CenteredPositions(tp);
      (forall k :: 0 <= k < |r| ==> tp[k] <= r[k] <= tp[k + 1]) && Ascending(r)
  {
    var r := CenteredPositions(tp);
    forall a, b | 0 <= a < b < |r|
      ensures r[a] <= r[b]
    {
      assert tp[a] <= tp[a + 1] && tp[b] <= tp[b + 1];
      assert r[a] <= tp[a + 1] <= tp[b] <= r[b];
    }
  }

  /** A zero-length domain with no ticks in it gets one centred label, at that instant. */
  lemma DegenerateDomainLabel(scale: Scale, iv: TimeInterval)
    requires scale.d0 == scale.d1 && LevelTicks(scale, iv) == []
    ensures CenteredPositions(TickPositions(scale, iv)) == [scale.d0]
  {
  }

  // ---------------------------------------------------------------------------
  // Layout numbers
  // ---------------------------------------------------------------------------

  datatype Orientation = Top | Bottom | Left | Right

  /** Length of the tick marks of level `index` (0 minor, 1 major): `tickLength / (2 - index)`. */
  function TickMarkLength(tickLength: real, index: int): (len: real)
    requires index == 0 || index == 1
    ensures index == 0 ==> 2.0 * len == tickLength
    ensures index == 1 ==> len == tickLength
  {
    tickLength / (2 - index) as real
  }

  /**
   * Vertical offset of the labels of level `level` (1 minor, 2 major):
   * `tickLength / (2 - level + 1)` below a bottom axis, and the same distance up
   * from `availableHeight` otherwise. Each label row sits at the end of the tick
   * marks of its own level.
   */
  function LabelYOffset(orientation: Orientation, tickLength: real, availableHeight: real, level: int): (y: real)
    requires level == 1 || level == 2
    ensures orientation.Bottom? ==> y == TickMarkLength(tickLength, level - 1)
    ensures !orientation.Bottom? ==> y == availableHeight - TickMarkLength(tickLength, level - 1)
  {
    var row := tickLength / (2 - level + 1) as real;
    if orientation.Bottom? then row else availableHeight - row
  }

  /** Major tick marks and major labels sit further out than minor ones. */
  lemma MajorRowBeyondMinorRow(tickLength: real, availableHeight: real)
    requires tickLength > 0.0
    ensures TickMarkLength(tickLength, 0) < TickMarkLength(tickLength, 1)
    ensures LabelYOffset(Bottom, tickLength, availableHeight, 1) < LabelYOffset(Bottom, tickLength, availableHeight, 2)
    ensures LabelYOffset(Top, tickLength, availableHeight, 2) < LabelYOffset(Top, tickLength, availableHeight, 1)
  {
  }

  datatype SpaceRequest = SpaceRequest(width: real, height: real, wantsWidth: bool, wantsHeight: bool)

  /**
   * The space request for an offer: no width at all, and the requested height
   * capped by the offer; more height is wanted exactly when the cap bites.
   */
  function SpaceRequestFor(offeredWidth: real, offeredHeight: real, requestedHeight: real): (r: SpaceRequest)
    ensures r.width <= 0.0 && r.width <= offeredWidth && (r.width == 0.0 || r.width == offeredWidth)
    ensures !r.wantsWidth
    ensures r.height <= offeredHeight && r.height <= requestedHeight
    ensures r.height == offeredHeight || r.height == requestedHeight
    ensures r.wantsHeight <==> r.height < requestedHeight
  {
    SpaceRequest(MinReal(offeredWidth, 0.0), MinReal(offeredHeight, requestedHeight), false,
                 offeredHeight < requestedHeight)
  }

  // ---------------------------------------------------------------------------
  // The axis
  // ---------------------------------------------------------------------------

  datatype HeightSetting = Auto | Fixed(px: real)

  datatype LabelLayout = LabelLayout(
    positions: seq<int>,
    texts: seq<string>,
    xOffset: real,
    yOffset: real,
    anchor: string)

  datatype Rendering = Rendering(
    minorLabels: LabelLayout,
    majorLabels: LabelLayout,
    markLength: map<int, real>)

  predicate NoDuplicates(s: seq<int>)
  {
    forall a, b :: 0 <= a < b < |s| ==> s[a] != s[b]
  }

  /**
   * `union(set, d3.set(xs))` on the values of a `d3.set`: the distinct values
   * `acc`, followed by the values of `xs` that are not yet among them.
   */
  method AddValues(acc: seq<int>, xs: seq<int>) returns (r: seq<int>)
    requires NoDuplicates(acc)
    ensures NoDuplicates(r)
    ensures forall t :: t in r <==> t in acc || t in xs
    ensures |acc| <= |r| && r[..|acc|] == acc
  {
    r := acc;
    for k := 0 to |xs|
      invariant NoDuplicates(r)
      invariant forall t :: t in r <==> t in acc || t in xs[..k]
      invariant |acc| <= |r| && r[..|acc|] == acc
    {
      if xs[k] !in r {
        r := r + [xs[k]];
      }
    }
  }

  /**
   * The tick-mark loop of `_doRender`: level 0 (minor) then level 1 (major) set
   * the length `y2` of every mark in `marks` whose timestamp that level
   * enumerates, so a mark on both levels keeps the major length.
   */
  method SizeTickMarks(marks: seq<int>, minorTicks: seq<int>, majorTicks: seq<int>, tickLength: real)
    returns (y2: map<int, real>)
    ensures forall d :: d in y2 <==> d in marks && (d in minorTicks || d in majorTicks)
    ensures forall d :: d in marks && d in majorTicks ==> y2[d] == TickMarkLength(tickLength, 1)
    ensures forall d :: d in marks && d in minorTicks && d !in majorTicks ==> y2[d] == TickMarkLength(tickLength, 0)
  {
    y2 := map[];
    for index := 0 to 2
      invariant forall d :: d in y2 <==>
        d in marks && ((index >= 1 && d in minorTicks) || (index >= 2 && d in majorTicks))
      invariant forall d :: d in y2 ==>
        y2[d] == if index >= 2 && d in majorTicks then TickMarkLength(tickLength, 1) else TickMarkLength(tickLength, 0)
    {
      var tickValues := if index == 0 then minorTicks else majorTicks;
      var length := tickLength / (2 - index) as real;
      assert length == TickMarkLength(tickLength, index);
      var sized := map d | d in marks && d in tickValues :: length;
      assert forall d :: d in sized <==> d in marks && d in tickValues;
      assert forall d :: d in sized ==> sized[d] == length;
      y2 := y2 + sized;
    }
  }

  class Time {
    var scale: Scale
    const env: Env
    var orientation: Orientation
    var tickLength: real
    var tickLabelPadding: real
    var availableWidth: real
    var availableHeight: real
    var height: HeightSetting
    var computedHeight: Option<real>

    constructor (scale: Scale, orientation: Orientation, env: Env)
      ensures this.scale == scale && this.orientation == orientation && this.env == env
      ensures tickLength == 40.0 && tickLabelPadding == 5.0
      ensures availableWidth == 0.0 && availableHeight == 0.0
      ensures height == Auto && computedHeight == None
    {
      this.scale := scale;
      this.orientation := orientation;
      this.env := env;
      tickLength := 40.0;
      tickLabelPadding := 5.0;
      availableWidth := 0.0;
      availableHeight := 0.0;
      height := Auto;
      computedHeight := None;
    }

    /** `_requestedSpace`: computes and caches the label height the first time it is needed. */
    method RequestedSpace(offeredWidth: real, offeredHeight: real) returns (r: SpaceRequest)
      modifies this`computedHeight
      ensures computedHeight ==
        if old(computedHeight).None? then Some(tickLength + env.textHeight) else old(computedHeight)
      ensures r == SpaceRequestFor(offeredWidth, offeredHeight,
                                   if height.Auto? then computedHeight.value else height.px)
    {
      if computedHeight.None? {
        computedHeight := Some(tickLength + env.textHeight);
      }
      var requestedHeight := if height.Auto? then computedHeight.value else height.px;
      r := SpaceRequestFor(offeredWidth, offeredHeight, requestedHeight);
    }

    /** `isEnoughSpace`: whether the labels of `interval` fit the available width. */
    method IsEnoughSpace(interval: TimeInterval) returns (r: bool)
      ensures r == Fits(scale, env, tickLabelPadding, availableWidth, interval)
    {
      if env.offset(interval.unit, scale.d0, interval.step * 50) < scale.d1 {
        return false;
      }
      var tickLabels := scale.tickInterval(interval.unit, interval.step);
      tickLabels := tickLabels + [scale.d0];
      tickLabels := tickLabels + [scale.d1];
      assert tickLabels == LabelCandidates(scale, interval);
      var maxLabelWidth := MaxLabelWidth(env, interval.formatString, tickLabels);
      r := (2.0 * tickLabelPadding + maxLabelWidth) * (|tickLabels| + 1) as real < availableWidth;
    }

    /**
     * `getTickLevels`, as written: the first minor index that fits (one past the
     * end when none does) and the major index that goes with it.
     */
    method GetTickLevels() returns (i: nat, j: nat)
      ensures i == FirstFit(scale, env, tickLabelPadding, availableWidth)
      ensures j == MajorIndex(i)
    {
      i := 0;
      while i < |MinorIntervals|
        invariant i <= |MinorIntervals|
        invariant FirstFitFrom(scale, env, tickLabelPadding, availableWidth, i)
               == FirstFit(scale, env, tickLabelPadding, availableWidth)
      {
        var fits := IsEnoughSpace(MinorIntervals[i]);
        if fits {
          break;
        }
        i := i + 1;
      }
      assert i == FirstFit(scale, env, tickLabelPadding, availableWidth);
      j := 0;
      while MinorToMajor[j] <= i
        invariant j < |MinorToMajor|
        invariant forall k :: 0 <= k < j ==> MinorToMajor[k] <= i
        decreases |MinorToMajor| - j
      {
        j := j + 1;
      }
    }

    /** The corrected selection: as `GetTickLevels`, with the minor index kept inside the catalog. */
    method SelectTickLevels() returns (i: nat, j: nat)
      ensures i == SelectedMinor(scale, env, tickLabelPadding, availableWidth)
      ensures i < |MinorIntervals| && j == MajorIndex(i) && j < |MajorIntervals|
    {
      i, j := GetTickLevels();
      if i == |MinorIntervals| {
        MajorIndexTable(i);
        i := |MinorIntervals| - 1;
        MajorIndexTable(i);
      }
    }

    /**
     * `_getTickValues` on the corrected levels of `SelectTickLevels`: the union
     * of the minor and major tick values, each timestamp once.
     */
    method GetTickValues() returns (values: seq<int>)
      ensures var i := SelectedMinor(scale, env, tickLabelPadding, availableWidth);
        var minorTicks := LevelTicks(scale, MinorIntervals[i]);
        var majorTicks := LevelTicks(scale, MajorIntervals[MajorIndex(i)]);
        NoDuplicates(values) && forall t :: t in values <==> t in minorTicks || t in majorTicks
    {
      var i, j := SelectTickLevels();
      values := [];
      values := AddValues(values, scale.tickInterval(MinorIntervals[i].unit, MinorIntervals[i].step));
      values := AddValues(values, scale.tickInterval(MajorIntervals[j].unit, MajorIntervals[j].step));
    }

    /**
     * `layout` is how `_renderTickLabels` lays out the labels of `interval` on
     * row `level` (1 for the minor labels, 2 for the major ones): centred
     * between neighbouring tick positions with anchor `middle` for unit steps,
     * on the tick positions with anchor `left` and shifted by the padding
     * otherwise, each label the formatted date, and the row at its level's
     * vertical offset.
     */
    predicate LaidOut(layout: LabelLayout, interval: TimeInterval, level: int)
      reads this
    {
      (level == 1 || level == 2) &&
      layout.positions == LabelPositions(TickPositions(scale, interval), interval.step == 1) &&
      |layout.texts| == |layout.positions| &&
      (forall k :: 0 <= k < |layout.texts| ==>
         layout.texts[k] == env.format(interval.formatString, layout.positions[k])) &&
      layout.anchor == (if interval.step == 1 then "middle" else "left") &&
      layout.xOffset == (if interval.step == 1 then 0.0 else tickLabelPadding) &&
      layout.yOffset == LabelYOffset(orientation, tickLength, availableHeight, level)
    }

    /** The label computation of `_renderTickLabels` for one level. */
    method RenderTickLabels(interval: TimeInterval, level: int) returns (layout: LabelLayout)
      requires level == 1 || level == 2
      ensures LaidOut(layout, interval, level)
    {
      var tickPos := scale.tickInterval(interval.unit, interval.step);
      tickPos := [scale.d0] + tickPos;
      tickPos := tickPos + [scale.d1];
      assert tickPos == TickPositions(scale, interval);
      var center := interval.step == 1;
      var labelPos: seq<int> := [];
      if center {
        for i := 0 to |tickPos| - 1
          invariant |labelPos| == i
          invariant forall k :: 0 <= k < i ==> labelPos[k] == Midpoint(tickPos[k], tickPos[k + 1])
        {
          labelPos := labelPos + [Midpoint(tickPos[i], tickPos[i + 1])];
        }
        ghost var centered := CenteredPositions(tickPos);
        assert |labelPos| == |centered|;
        forall k | 0 <= k < |labelPos|
          ensures labelPos[k] == centered[k]
        {
          assert centered[k] == Midpoint(tickPos[k], tickPos[k + 1]);
        }
        assert labelPos == centered;
      } else {
        labelPos := tickPos;
      }
      var xTranslate := if center then 0.0 else tickLabelPadding;
      var yTranslate := LabelYOffset(orientation, tickLength, availableHeight, level);
      var anchor := if center then "middle" else "left";
      var texts := seq(|labelPos|, k requires 0 <= k < |labelPos| => env.format(interval.formatString, labelPos[k]));
      layout := LabelLayout(labelPos, texts, xTranslate, yTranslate, anchor);
    }

    /**
     * `_doRender` on the corrected levels of `SelectTickLevels`: the labels of both levels, and the length given to each tick
     * mark in `marks` (the timestamps of the marks the axis base class drew).
     * The major level is processed second, so a mark on both levels ends up
     * with the major length.
     */
    method DoRender(marks: seq<int>) returns (r: Rendering)
      ensures var i := SelectedMinor(scale, env, tickLabelPadding, availableWidth);
        LaidOut(r.minorLabels, MinorIntervals[i], 1) && LaidOut(r.majorLabels, MajorIntervals[MajorIndex(i)], 2)
      ensures var i := SelectedMinor(scale, env, tickLabelPadding, availableWidth);
        var minorTicks := LevelTicks(scale, MinorIntervals[i]);
        var majorTicks := LevelTicks(scale, MajorIntervals[MajorIndex(i)]);
        (forall d :: d in r.markLength <==> d in marks && (d in minorTicks || d in majorTicks)) &&
        (forall d :: d in marks && d in majorTicks ==> r.markLength[d] == TickMarkLength(tickLength, 1)) &&
        (forall d :: d in marks && d in minorTicks && d !in majorTicks ==>
           r.markLength[d] == TickMarkLength(tickLength, 0))
    {
      var i, j := SelectTickLevels();
      var minorLabels := RenderTickLabels(MinorIntervals[i], 1);
      var majorLabels := RenderTickLabels(MajorIntervals[j], 2);
      var y2 := SizeTickMarks(marks, LevelTicks(scale, MinorIntervals[i]), LevelTicks(scale, MajorIntervals[j]), tickLength);
      r := Rendering(minorLabels, majorLabels, y2);
    }
  }
}
