/**
 * SerialPlotterPanel.kt: the plotter's viewport. The panel owns a
 * PlotterDataManager and keeps the X window (`xAxisMin`, `xAxisMax`), the Y
 * range, the auto-scroll flag, the window size and the set of hidden series.
 * Every operation ends in `updateChart`, which recomputes the window and the
 * Y range from the data and redraws the visible series.
 *
 * Kotlin Doubles are modelled as exact reals; `Double.toInt` is modelled
 * explicitly (truncation toward zero, saturating at the Int range).
 */
module PlotterPanel {
  import opened Optional
  import opened Text
  import opened DataLines
  import opened PlotterConfigs
  import opened DataManager

  const IntMin: int := -0x8000_0000
  const IntMax: int := 0x7FFF_FFFF

  /** Double.toInt: the value truncated toward zero, clamped to the Int range. */
  function DoubleToInt(x: real): (r: int)
    ensures IntMin <= r <= IntMax
    ensures 0.0 <= x <= IntMax as real ==> r as real <= x < r as real + 1.0
    ensures IntMin as real <= x < 0.0 ==> r as real - 1.0 < x <= r as real
    ensures x > IntMax as real ==> r == IntMax
    ensures x < IntMin as real ==> r == IntMin
  {
    var t := if x >= 0.0 then x.Floor else -((-x).Floor);
    if t < IntMin then IntMin else if t > IntMax then IntMax else t
  }

  /** A whole number in the Int range converts to itself. */
  lemma DoubleToIntWhole(n: int)
    requires IntMin <= n <= IntMax
    ensures DoubleToInt(n as real) == n
  {
    assert (n as real).Floor == n;
    assert n < 0 ==> (-(n as real)).Floor == -n;
  }

  function MaxInt(a: int, b: int): int
  {
    if a >= b then a else b
  }

  function MaxReal(a: real, b: real): real
  {
    if a >= b then a else b
  }

  /** Kotlin's coerceIn(lo, hi) on Doubles. */
  function Coerce(x: real, lo: real, hi: real): (r: real)
    requires lo <= hi
    ensures lo <= r <= hi
    ensures lo <= x <= hi ==> r == x
  {
    if x < lo then lo else if x > hi then hi else x
  }

  /** A range on one axis. */
  datatype Window = Window(lo: real, hi: real)

  /** The state updateChart works on: the X window, the Y range, auto-scroll and the window size. */
  datatype Viewport = Viewport(x: Window, y: Window, autoScroll: bool, windowSize: int)

  /** A series handed to the chart: its name, the index of its colour in the ten-colour table, and its values. */
  datatype PlottedSeries = PlottedSeries(name: string, colour: nat, values: seq<real>)

  /** The number of colours in the colour table. */
  const ColourCount: nat := 10

  /** The auto-scroll window: the last `windowSize` samples, or [0, windowSize] while there are fewer. */
  function FollowWindow(count: nat, windowSize: int): (w: Window)
    ensures w.hi - w.lo == windowSize as real
    ensures w.hi == MaxInt(count, windowSize) as real
  {
    if count <= windowSize then Window(0.0, windowSize as real)
    else Window((count - windowSize) as real, count as real)
  }

  /**
   * The manual-mode clamp: the start is raised to 0, the end to one past the
   * start, and a window running past the last sample is shifted back so that
   * it ends there (its start not going below 0).
   */
  function Clamped(w: Window, count: nat): (r: Window)
    ensures count >= 1 ==> 0.0 <= r.lo && r.lo + 1.0 <= r.hi <= count as real
  {
    var lo := if w.lo < 0.0 then 0.0 else w.lo;
    var hi := if w.hi < lo + 1.0 then lo + 1.0 else w.hi;
    if hi > count as real then
      Window(MaxReal(lo - (hi - count as real), 0.0), count as real)
    else Window(lo, hi)
  }

  /** The clamp never widens a window beyond its width or one sample, whichever is larger. */
  lemma ClampedNarrows(w: Window, count: nat)
    requires count >= 1
    ensures Clamped(w, count).hi - Clamped(w, count).lo <= MaxReal(w.hi - w.lo, 1.0)
  {
  }

  /** A window already inside the data is left alone by the clamp. */
  lemma ClampedKeepsInBounds(w: Window, count: nat)
    requires 0.0 <= w.lo && w.lo + 1.0 <= w.hi <= count as real
    ensures Clamped(w, count) == w
  {
  }

  /** Clamping twice is clamping once. */
  lemma ClampedIdempotent(w: Window, count: nat)
    requires count >= 1
    ensures Clamped(Clamped(w, count), count) == Clamped(w, count)
  {
    ClampedKeepsInBounds(Clamped(w, count), count);
  }

  /** The wheel's zoom factor: 1 + 0.12 per notch, kept within [0.2, 5.0]. */
  function ZoomFactor(delta: real): (f: real)
    ensures 0.2 <= f <= 5.0
    ensures delta < 0.0 ==> f < 1.0
    ensures delta > 0.0 ==> f > 1.0
  {
    Coerce(1.0 + delta * 0.12, 0.2, 5.0)
  }

  /** The width the zoom starts from: the window's width, at least 1. */
  function ZoomBase(w: Window): (r: real)
    ensures r >= 1.0
  {
    MaxReal(w.hi - w.lo, 1.0)
  }

  /** A product of two non-negative reals is non-negative. */
  lemma ProductNonNegative(x: real, y: real)
    ensures x >= 0.0 && y >= 0.0 ==> x * y >= 0.0
  {
  }

  /** The zoomed width: the base width times the factor, at least 10. */
  function ZoomWidth(w: Window, delta: real): (r: real)
    ensures r >= 10.0
    ensures r >= ZoomBase(w) * ZoomFactor(delta)
    ensures r == 10.0 || r == ZoomBase(w) * ZoomFactor(delta)
    ensures delta < 0.0 ==> r <= MaxReal(ZoomBase(w), 10.0)
    ensures delta > 0.0 ==> r >= ZoomBase(w)
  {
    var f := ZoomFactor(delta);
    var b := ZoomBase(w);
    ProductNonNegative(b, f - 1.0);
    ProductNonNegative(b, 1.0 - f);
    MaxReal(b * f, 10.0)
  }

  /** The zoomed window: the zoomed width, centred where the old window (of at least unit width) was centred. */
  function Zoomed(w: Window, delta: real): (r: Window)
    ensures r.hi - r.lo == ZoomWidth(w, delta)
    ensures (r.lo + r.hi) / 2.0 == w.lo + ZoomBase(w) / 2.0
  {
    var centre := w.lo + ZoomBase(w) / 2.0;
    var width := ZoomWidth(w, delta);
    Window(centre - width / 2.0, centre + width / 2.0)
  }

  /**
   * Away from every clamp (a window at least one wide, a factor inside
   * [0.2, 5.0], a result at least 10 wide) the zoom scales the width by
   * 1 + 0.12 per notch around the old centre.
   */
  lemma ZoomUnclamped(w: Window, delta: real)
    requires w.hi - w.lo >= 1.0
    requires 0.2 <= 1.0 + delta * 0.12 <= 5.0
    requires (w.hi - w.lo) * (1.0 + delta * 0.12) >= 10.0
    ensures var width := (w.hi - w.lo) * (1.0 + delta * 0.12);
      var centre := (w.lo + w.hi) / 2.0;
      Zoomed(w, delta) == Window(centre - width / 2.0, centre + width / 2.0)
  {
    assert ZoomFactor(delta) == 1.0 + delta * 0.12;
    assert ZoomBase(w) == w.hi - w.lo;
  }

  /** The least of a non-empty list of values. */
  function SeqMin(s: seq<real>): (m: real)
    requires s != []
    ensures m in s && forall v :: v in s ==> m <= v
  {
    if |s| == 1 then s[0]
    else
      var rest := SeqMin(s[1..]);
      assert forall v :: v in s ==> v == s[0] || v in s[1..];
      if s[0] <= rest then s[0] else rest
  }

  /** The greatest of a non-empty list of values. */
  function SeqMax(s: seq<real>): (m: real)
    requires s != []
    ensures m in s && forall v :: v in s ==> v <= m
  {
    if |s| == 1 then s[0]
    else
      var rest := SeqMax(s[1..]);
      assert forall v :: v in s ==> v == s[0] || v in s[1..];
      if s[0] >= rest then s[0] else rest
  }

  /** Every value of every named series, series after series (mapNotNull { getSeries(it) }.flatten()). */
  function AllValues(names: seq<string>, series: map<string, seq<real>>): (r: seq<real>)
    ensures forall n, v :: n in names && n in series && v in series[n] ==> v in r
    ensures forall v :: v in r ==> exists n :: n in names && n in series && v in series[n]
  {
    if names == [] then []
    else
      var rest := AllValues(names[1..], series);
      assert forall n :: n in names ==> n == names[0] || n in names[1..];
      (if names[0] in series then series[names[0]] else []) + rest
  }

  /**
   * The Y range over the given values: from the least to the greatest, with a
   * tenth of the spread added on either side; the current range when there
   * are no values.
   */
  function YRange(values: seq<real>, current: Window): (r: Window)
    ensures values == [] ==> r == current
    ensures values != [] ==> r.hi - r.lo == (SeqMax(values) - SeqMin(values)) * 1.2
    ensures values != [] ==> r.lo + r.hi == SeqMin(values) + SeqMax(values)
    ensures forall v :: v in values ==> r.lo <= v <= r.hi
  {
    if values == [] then current
    else
      var mn := SeqMin(values);
      var mx := SeqMax(values);
      var margin := (mx - mn) * 0.1;
      Window(mn - margin, mx + margin)
  }

  /**
   * The series updateChart hands to the chart: the visible names that have
   * a series, in sorted order, each with its values and coloured by its
   * position among ALL names, hidden ones included, modulo the colour count.
   */
  function Plotted(names: seq<string>, hidden: set<string>, series: map<string, seq<real>>): (r: seq<PlottedSeries>)
    ensures |r| <= |names|
    decreases |names|
  {
    if names == [] then []
    else
      var n := |names| - 1;
      Plotted(names[..n], hidden, series) + DrawnAt(names, n, hidden, series)
  }

  /** The series drawn for the name at position i: none when it is hidden or has no series. */
  function DrawnAt(names: seq<string>, i: nat, hidden: set<string>, series: map<string, seq<real>>): seq<PlottedSeries>
    requires i < |names|
  {
    if names[i] in hidden || names[i] !in series then [] else [PlottedSeries(names[i], i % ColourCount, series[names[i]])]
  }

  /**
   * Exactly the visible names are plotted: every plotted series is a visible
   * name coloured by its position, and every visible name is plotted.
   */
  lemma {:induction false} PlottedVisible(names: seq<string>, hidden: set<string>, series: map<string, seq<real>>)
    ensures forall p :: p in Plotted(names, hidden, series) ==>
      exists i :: 0 <= i < |names| && names[i] == p.name && p.colour == i % ColourCount
    ensures forall p :: p in Plotted(names, hidden, series) ==>
      p.name !in hidden && p.name in series && p.values == series[p.name]
    ensures forall i :: 0 <= i < |names| && names[i] !in hidden && names[i] in series ==>
      PlottedSeries(names[i], i % ColourCount, series[names[i]]) in Plotted(names, hidden, series)
    decreases |names|
  {
    if names != [] {
      var n := |names| - 1;
      var init := names[..n];
      PlottedVisible(init, hidden, series);
      assert forall i :: 0 <= i < n ==> init[i] == names[i];
    }
  }

  /** The series plotted from one more name: those before, then this one unless hidden. */
  lemma PlottedStep(names: seq<string>, i: nat, hidden: set<string>, series: map<string, seq<real>>)
    requires i < |names|
    ensures Plotted(names[..i + 1], hidden, series) == Plotted(names[..i], hidden, series) + DrawnAt(names, i, hidden, series)
  {
    assert names[..i + 1][..i] == names[..i];
    assert DrawnAt(names[..i + 1], i, hidden, series) == DrawnAt(names, i, hidden, series);
  }

  /** A series keeps its colour whatever else is hidden: hiding one series never recolours another. */
  lemma ColourIgnoresHidden(names: seq<string>, h1: set<string>, h2: set<string>, series: map<string, seq<real>>, p: PlottedSeries, q: PlottedSeries)
    requires forall i, j :: 0 <= i < j < |names| ==> names[i] != names[j]
    requires p in Plotted(names, h1, series) && q in Plotted(names, h2, series) && p.name == q.name
    ensures p.colour == q.colour
  {
    PlottedVisible(names, h1, series);
    PlottedVisible(names, h2, series);
    var i :| 0 <= i < |names| && names[i] == p.name && p.colour == i % ColourCount;
    var j :| 0 <= j < |names| && names[j] == q.name && q.colour == j % ColourCount;
    assert i == j;
  }

  /**
   * What updateChart does to the viewport: nothing without data; otherwise
   * the auto-scroll window or the clamped manual window, and the Y range over
   * all series.
   */
  function Refreshed(v: Viewport, count: nat, names: seq<string>, series: map<string, seq<real>>): (r: Viewport)
    ensures r.autoScroll == v.autoScroll && r.windowSize == v.windowSize
    ensures count == 0 || names == [] ==> r == v
    ensures count >= 1 && names != [] && !v.autoScroll ==> r.x == Clamped(v.x, count)
    ensures count >= 1 && names != [] && !v.autoScroll ==> 0.0 <= r.x.lo && r.x.lo + 1.0 <= r.x.hi <= count as real
    ensures count >= 1 && names != [] && v.autoScroll ==> r.x == FollowWindow(count, v.windowSize)
    ensures count >= 1 && names != [] ==> r.y == YRange(AllValues(names, series), v.y)
    ensures count >= 1 && names != [] ==>
      forall n, val :: n in names && n in series && val in series[n] ==> r.y.lo <= val <= r.y.hi
  {
    if count == 0 || names == [] then v
    else
      var x := if v.autoScroll then FollowWindow(count, v.windowSize) else Clamped(v.x, count);
      var values := AllValues(names, series);
      var y := YRange(values, v.y);
      forall n, val | n in names && n in series && val in series[n]
        ensures y.lo <= val <= y.hi
      {
        assert val in values;
      }
      Viewport(x, y, v.autoScroll, v.windowSize)
  }

  /** A manual refresh never widens the X window beyond a bound `n` of at least one sample. */
  lemma RefreshedNarrows(v: Viewport, count: nat, names: seq<string>, series: map<string, seq<real>>, n: real)
    requires !v.autoScroll && n >= 1.0 && v.x.hi - v.x.lo <= n
    ensures Refreshed(v, count, names, series).x.hi - Refreshed(v, count, names, series).x.lo <= n
  {
    if count >= 1 && names != [] {
      ClampedNarrows(v.x, count);
    }
  }

  /** A second redraw from the result of a first one changes nothing. */
  lemma RefreshedIdempotent(v: Viewport, count: nat, names: seq<string>, series: map<string, seq<real>>)
    ensures Refreshed(Refreshed(v, count, names, series), count, names, series) == Refreshed(v, count, names, series)
  {
    var r := Refreshed(v, count, names, series);
    if count >= 1 && names != [] && !v.autoScroll {
      ClampedIdempotent(v.x, count);
    }
  }

  /** The auto-scroll example: a 20-sample window over 25 samples shows [5, 25]. */
  lemma FollowExample()
    ensures FollowWindow(25, 20) == Window(5.0, 25.0)
    ensures FollowWindow(12, 20) == Window(0.0, 20.0)
  {
  }

  /** The zoom example: one notch in on [0, 200] narrows the window to [12, 188] and the window size to 176. */
  lemma ZoomExample()
    ensures Zoomed(Window(0.0, 200.0), -1.0) == Window(12.0, 188.0)
    ensures MaxInt(DoubleToInt(ZoomWidth(Window(0.0, 200.0), -1.0)), 10) == 176
  {
    assert ZoomFactor(-1.0) == 0.88;
    assert ZoomWidth(Window(0.0, 200.0), -1.0) == 176.0;
  }

  /**
   * SerialPlotterPanel: the viewport fields, the hidden-series set, the
   * series currently on the chart, and the data manager it owns.
   */
  class SerialPlotterPanel {
    const store: PlotterDataManager
    var xAxisMin: real
    var xAxisMax: real
    var yAxisMin: real
    var yAxisMax: real
    var autoScroll: bool
    var windowSize: int
    var hiddenSeries: set<string>
    var plotted: seq<PlottedSeries>

    /** The viewport fields as a value. */
    function View(): Viewport
      reads this
    {
      Viewport(Window(xAxisMin, xAxisMax), Window(yAxisMin, yAxisMax), autoScroll, windowSize)
    }

    /** The class invariant: a valid store and a window size of at least 10. */
    predicate Valid()
      reads this, store
    {
      store.Valid() && windowSize >= 10
    }

    /** The viewport and chart contents updateChart produces from the current data. */
    function Chart(v: Viewport): (r: (Viewport, seq<PlottedSeries>))
      reads this, store
      requires Valid()
    {
      var names := store.GetSeriesNames();
      var count := store.GetDataPointCount();
      (Refreshed(v, count, names, store.series), if count == 0 || names == [] then [] else Plotted(names, hiddenSeries, store.series))
    }

    /** A new panel: an empty store, auto-scroll on, the default window [0, 20]. */
    constructor()
      ensures Valid() && fresh(store)
      ensures store.Snapshot() == EmptyStore && store.config == Default
      ensures View() == Viewport(Window(0.0, 20.0), Window(0.0, 100.0), true, 20)
      ensures hiddenSeries == {} && plotted == []
    {
      store := new PlotterDataManager();
      yAxisMin := 0.0;
      yAxisMax := 100.0;
      autoScroll := true;
      windowSize := 20;
      xAxisMin := 0.0;
      hiddenSeries := {};
      plotted := [];
      new;
      windowSize := store.config.windowSize;
      xAxisMax := windowSize as real;
    }

    /**
     * updateChart: clear the chart; without samples or series stop there;
     * otherwise recompute the X window, hand the visible series to the chart
     * with their colours, recompute the Y range and report the change.
     * `notify` says whether onViewportChanged was invoked.
     */
    method UpdateChart() returns (notify: bool)
      requires Valid()
      modifies this
      ensures Valid() && hiddenSeries == old(hiddenSeries)
      ensures (View(), plotted) == Chart(old(View()))
      ensures notify <==> store.GetDataPointCount() >= 1 && store.GetSeriesNames() != []
    {
      plotted := [];
      var timePoints := store.GetTimePoints();
      var names := store.GetSeriesNames();
      if timePoints == [] || names == [] {
        assert View() == Refreshed(old(View()), |timePoints|, names, store.series);
        return false;
      }
      var count := |timePoints|;
      ghost var v0 := View();
      AdjustXWindow(count);
      PlotVisibleSeries(names);
      AdjustYRange(AllValues(names, store.series));
      assert View() == Refreshed(v0, count, names, store.series);
      assert plotted == Plotted(names, hiddenSeries, store.series);
      notify := true;
    }

    /** The window step of updateChart: follow the data under auto-scroll, clamp the window otherwise. */
    method AdjustXWindow(count: nat)
      modifies this
      ensures hiddenSeries == old(hiddenSeries) && plotted == old(plotted)
      ensures View() == old(View()).(x := if autoScroll then FollowWindow(count, windowSize) else Clamped(old(View()).x, count))
    {
      if autoScroll {
        if count <= windowSize {
          xAxisMin := 0.0;
          xAxisMax := windowSize as real;
        } else {
          xAxisMin := (count - windowSize) as real;
          xAxisMax := count as real;
        }
      } else {
        if xAxisMin < 0.0 {
          xAxisMin := 0.0;
        }
        if xAxisMax < xAxisMin + 1.0 {
          xAxisMax := xAxisMin + 1.0;
        }
        if xAxisMax > count as real {
          var shift := xAxisMax - count as real;
          xAxisMin := MaxReal(xAxisMin - shift, 0.0);
          xAxisMax := count as real;
        }
      }
    }

    /** The drawing step of updateChart: every visible series goes on the chart with its colour. */
    method PlotVisibleSeries(names: seq<string>)
      requires Valid()
      modifies this
      ensures View() == old(View()) && hiddenSeries == old(hiddenSeries)
      ensures plotted == old(plotted) + Plotted(names, hiddenSeries, store.series)
    {
      var index := 0;
      while index < |names|
        invariant index <= |names|
        invariant View() == old(View()) && hiddenSeries == old(hiddenSeries)
        invariant plotted == old(plotted) + Plotted(names[..index], hiddenSeries, store.series)
      {
        var name := names[index];
        if IsSeriesVisible(name) {
          var values := store.GetSeries(name);
          if values.Some? {
            plotted := plotted + [PlottedSeries(name, index % ColourCount, values.value)];
          }
        }
        PlottedStep(names, index, hiddenSeries, store.series);
        index := index + 1;
      }
      assert names[..index] == names;
    }

    /** The Y step of updateChart: the range over all values with a tenth of the spread as margin, when there are values. */
    method AdjustYRange(allValues: seq<real>)
      modifies this
      ensures hiddenSeries == old(hiddenSeries) && plotted == old(plotted)
      ensures View() == old(View()).(y := YRange(allValues, old(View()).y))
    {
      if allValues != [] {
        var minValue := SeqMin(allValues);
        var maxValue := SeqMax(allValues);
        var margin := (maxValue - minValue) * 0.1;
        yAxisMin := minValue - margin;
        yAxisMax := maxValue + margin;
      }
    }

    /** isSeriesVisible: a series is visible unless it has been hidden. */
    function IsSeriesVisible(name: string): (visible: bool)
      reads this
      ensures visible <==> name !in hiddenSeries
    {
      name !in hiddenSeries
    }

    /** setSeriesVisible: show or hide one series, leaving every other name's visibility alone. */
    method SetSeriesVisible(name: string, visible: bool) returns (notify: bool)
      requires Valid()
      modifies this
      ensures Valid()
      ensures IsSeriesVisible(name) == visible
      ensures forall n :: n != name ==> IsSeriesVisible(n) == old(IsSeriesVisible(n))
      ensures (View(), plotted) == Chart(old(View()))
    {
      if visible {
        hiddenSeries := hiddenSeries - {name};
      } else {
        hiddenSeries := hiddenSeries + {name};
      }
      notify := UpdateChart();
    }

    /** setXAxisWindow: a window chosen from outside; auto-scroll goes off and the window size follows the width. */
    method SetXAxisWindow(min: real, max: real) returns (notify: bool)
      requires Valid()
      modifies this
      ensures Valid() && hiddenSeries == old(hiddenSeries)
      ensures !autoScroll && windowSize == MaxInt(DoubleToInt(max - min), 10)
      ensures (View(), plotted) == Chart(Viewport(Window(min, max), old(View()).y, false, MaxInt(DoubleToInt(max - min), 10)))
      ensures notify <==> store.GetDataPointCount() >= 1 && store.GetSeriesNames() != []
    {
      autoScroll := false;
      xAxisMin := min;
      xAxisMax := max;
      windowSize := MaxInt(DoubleToInt(max - min), 10);
      notify := UpdateChart();
    }

    /** setAutoScrollEnabled. */
    method SetAutoScrollEnabled(enabled: bool) returns (notify: bool)
      requires Valid()
      modifies this
      ensures Valid() && hiddenSeries == old(hiddenSeries)
      ensures autoScroll == enabled && windowSize == old(windowSize)
      ensures (View(), plotted) == Chart(old(View()).(autoScroll := enabled))
      ensures notify <==> store.GetDataPointCount() >= 1 && store.GetSeriesNames() != []
    {
      autoScroll := enabled;
      notify := UpdateChart();
    }

    /** setWindowSize: the size is floored at 10. */
    method SetWindowSize(size: int)
      requires Valid()
      modifies this
      ensures Valid() && windowSize == MaxInt(size, 10)
      ensures View() == old(View()).(windowSize := MaxInt(size, 10))
      ensures hiddenSeries == old(hiddenSeries) && plotted == old(plotted)
    {
      windowSize := MaxInt(size, 10);
    }

    /** The mouse-wheel zoom: a zero rotation does nothing; otherwise zoom about the centre and leave auto-scroll. */
    method OnMouseWheel(delta: real) returns (notify: bool)
      requires Valid()
      modifies this
      ensures Valid() && hiddenSeries == old(hiddenSeries)
      ensures delta == 0.0 ==> View() == old(View()) && plotted == old(plotted) && !notify
      ensures delta != 0.0 ==>
        var w := old(View()).x;
        && !autoScroll
        && windowSize == MaxInt(DoubleToInt(ZoomWidth(w, delta)), 10)
        && (View(), plotted) == Chart(Viewport(Zoomed(w, delta), old(View()).y, false, windowSize))
    {
      if delta == 0.0 {
        return false;
      }
      ghost var w := Window(xAxisMin, xAxisMax);
      var zoomFactor := Coerce(1.0 + delta * 0.12, 0.2, 5.0);
      var rangeX := MaxReal(xAxisMax - xAxisMin, 1.0);
      var centerX := xAxisMin + rangeX / 2.0;
      var newRangeX := MaxReal(rangeX * zoomFactor, 10.0);
      assert zoomFactor == ZoomFactor(delta) && rangeX == ZoomBase(w);
      assert newRangeX == ZoomWidth(w, delta);
      xAxisMin := centerX - newRangeX / 2.0;
      xAxisMax := centerX + newRangeX / 2.0;
      assert Window(xAxisMin, xAxisMax) == Zoomed(w, delta);
      windowSize := MaxInt(DoubleToInt(newRangeX), 10);
      autoScroll := false;
      notify := UpdateChart();
    }

    /** addSerialData: parse and store the chunk, then redraw. */
    method AddSerialData(data: string, now: int, num: NumberParser) returns (notify: bool)
      requires Valid()
      modifies this, store
      ensures Valid() && hiddenSeries == old(hiddenSeries) && store.config == old(store.config)
      ensures store.Snapshot() == AddLines(old(store.Snapshot()), ParseData(data, store.config, now, num), store.config.maxCache)
      ensures (View(), plotted) == Chart(old(View()))
      ensures notify <==> store.GetDataPointCount() >= 1 && store.GetSeriesNames() != []
    {
      store.AddSerialData(data, now, num);
      notify := UpdateChart();
    }

    /** clearData: empty the store, show every series again, turn auto-scroll on and reset the window; no redraw. */
    method ClearData()
      requires Valid()
      modifies this, store
      ensures Valid() && store.config == old(store.config)
      ensures store.Snapshot() == EmptyStore && store.GetDataPointCount() == 0 && store.GetSeriesNames() == []
      ensures hiddenSeries == {} && plotted == []
      ensures View() == old(View()).(x := Window(0.0, windowSize as real), autoScroll := true)
    {
      store.Clear();
      hiddenSeries := {};
      autoScroll := true;
      xAxisMin := 0.0;
      xAxisMax := windowSize as real;
      plotted := [];
    }

    /** resetView: auto-scroll on and the window back to [0, windowSize], keeping the window size, then redraw. */
    method ResetView() returns (notify: bool)
      requires Valid()
      modifies this
      ensures Valid() && hiddenSeries == old(hiddenSeries)
      ensures autoScroll && windowSize == old(windowSize)
      ensures (View(), plotted) == Chart(old(View()).(x := Window(0.0, old(windowSize) as real), autoScroll := true))
      ensures notify <==> store.GetDataPointCount() >= 1 && store.GetSeriesNames() != []
    {
      autoScroll := true;
      xAxisMin := 0.0;
      xAxisMax := windowSize as real;
      notify := UpdateChart();
    }

    /**
     * updateConfig: the store takes the configuration and trims; the window
     * size becomes the configured one, floored at 10; under auto-scroll the
     * window restarts at [0, windowSize]; then redraw.
     */
    method UpdateConfig(newConfig: PlotterConfig) returns (notify: bool)
      requires Valid() && newConfig.maxCache >= 0
      modifies this, store
      ensures Valid() && hiddenSeries == old(hiddenSeries) && store.config == newConfig
      ensures store.Snapshot() == Trimmed(old(store.Snapshot()), newConfig.maxCache)
      ensures windowSize == MaxInt(newConfig.windowSize, 10) && autoScroll == old(autoScroll)
      ensures var ws := MaxInt(newConfig.windowSize, 10);
        var v := old(View()).(windowSize := ws);
        (View(), plotted) == Chart(if old(autoScroll) then v.(x := Window(0.0, ws as real)) else v)
      ensures notify <==> store.GetDataPointCount() >= 1 && store.GetSeriesNames() != []
    {
      store.UpdateConfig(newConfig);
      windowSize := MaxInt(newConfig.windowSize, 10);
      if autoScroll {
        xAxisMin := 0.0;
        xAxisMax := windowSize as real;
      }
      notify := UpdateChart();
    }
  }
}
