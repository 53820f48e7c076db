/**
 * SerialPlotterMainPanel.kt: the plotter tab. It forwards serial chunks to the
 * plotter at most once per 100 ms, keeps the horizontal scroll bar in step with
 * the plotter's window, and turns scroll-bar moves into windows.
 *
 * The scroll bar is modelled by its value, maximum, extent and visibility;
 * the legend, the pause button and dialogs are not part of this model.
 */
module PlotterMainPanel {
  import opened Optional
  import opened DataLines
  import opened PlotterConfigs
  import opened DataManager
  import opened PlotterPanel
  import opened Models

  /** The least time, in milliseconds, between two chunks handed to the plotter. */
  const UpdateInterval: int := 100

  /** The scroll bar's extent: the window's width truncated to an Int, at least 1. */
  function ScrollWindow(x: Window): (window: int)
    ensures window >= 1
    ensures 1.0 <= x.hi - x.lo <= IntMax as real ==> window as real <= x.hi - x.lo < window as real + 1.0
  {
    MaxInt(1, DoubleToInt(x.hi - x.lo))
  }

  /** While following, the bar's extent is the window size itself. */
  lemma FollowExtent(count: nat, windowSize: int)
    requires 1 <= windowSize <= IntMax
    ensures ScrollWindow(FollowWindow(count, windowSize)) == windowSize
  {
    DoubleToIntWhole(windowSize);
  }

  /** A window no wider than `n` (at least 1) gives an extent of at most `n`. */
  lemma ScrollWindowAtMost(x: Window, n: int)
    requires n >= 1 && x.hi - x.lo <= n as real
    ensures ScrollWindow(x) <= n
  {
  }

  /**
   * The extent of the window [start, start + window] once refreshed in manual
   * mode: never more than `window`, and exactly `window` when it lies inside
   * the data.
   */
  lemma ShownExtent(start: int, window: int, y: Window, ws: int, count: nat, names: seq<string>, series: map<string, seq<real>>)
    requires window >= 1
    ensures var x := Refreshed(Viewport(Window(start as real, (start + window) as real), y, false, ws), count, names, series).x;
      && ScrollWindow(x) <= window
      && (0 <= start && start + window <= count && window <= IntMax ==> ScrollWindow(x) == window)
  {
    var w := Window(start as real, (start + window) as real);
    var v := Viewport(w, y, false, ws);
    RefreshedNarrows(v, count, names, series, window as real);
    ScrollWindowAtMost(Refreshed(v, count, names, series).x, window);
    if 0 <= start && start + window <= count {
      ClampedKeepsInBounds(w, count);
    }
  }

  /** The scroll bar's last start position: the samples beyond one window, none when they all fit. */
  function ScrollMax(count: nat, window: int): (max: int)
    ensures max >= 0 && max >= count - window
    ensures max > 0 <==> count > window
    ensures count > window ==> max + window == count
  {
    MaxInt(0, count - window)
  }

  /** Int.coerceIn(lo, hi). */
  function CoerceInt(x: int, lo: int, hi: int): (r: int)
    requires lo <= hi
    ensures lo <= r <= hi
    ensures lo <= x <= hi ==> r == x
  {
    if x < lo then lo else if x > hi then hi else x
  }

  /** The scroll value: the right end under auto-scroll, otherwise the previous value kept within [0, max]. */
  function ScrollValue(autoScroll: bool, previous: int, max: int): (value: int)
    requires max >= 0
    ensures 0 <= value <= max
    ensures autoScroll ==> value == max
    ensures !autoScroll && 0 <= previous <= max ==> value == previous
  {
    if autoScroll then max else CoerceInt(previous, 0, max)
  }

  /** Bringing the bar in step twice is bringing it in step once. */
  lemma ScrollValueIdempotent(autoScroll: bool, previous: int, max: int)
    requires max >= 0
    ensures ScrollValue(autoScroll, ScrollValue(autoScroll, previous, max), max) == ScrollValue(autoScroll, previous, max)
  {
  }

  /** The throttle's test: more than 100 ms since the last chunk handed on. */
  predicate Accepts(last: int, now: int)
  {
    now - last > UpdateInterval
  }

  /**
   * The arrival times, in order, of the chunks the throttle hands on when
   * chunks arrive at `times`, starting from a last forward at `last`.
   */
  function Accepted(last: int, times: seq<int>): (r: seq<int>)
    ensures |r| <= |times|
    ensures forall t :: t in r ==> t in times
    ensures r != [] ==> r[0] - last > UpdateInterval
    ensures forall i :: 0 <= i < |r| - 1 ==> r[i + 1] - r[i] > UpdateInterval
    ensures times != [] && Accepts(last, times[0]) ==> r != [] && r[0] == times[0]
    decreases |times|
  {
    if times == [] then []
    else if Accepts(last, times[0]) then
      var rest := Accepted(times[0], times[1..]);
      assert forall t :: t in rest ==> t in times;
      [times[0]] + rest
    else
      var rest := Accepted(last, times[1..]);
      assert forall t :: t in rest ==> t in times;
      rest
  }

  /** The time of the latest chunk handed on after the arrivals `times`: `last` when none was. */
  function LastForward(last: int, times: seq<int>): (t: int)
    ensures var r := Accepted(last, times); t == if r == [] then last else r[|r| - 1]
    decreases |times|
  {
    if times == [] then last
    else if Accepts(last, times[0]) then LastForward(times[0], times[1..])
    else LastForward(last, times[1..])
  }

  /**
   * The throttle one arrival at a time: a new arrival is handed on exactly
   * when it comes more than 100 ms after the latest chunk handed on before
   * it, and it is dropped otherwise.
   */
  lemma {:induction false} AcceptedSnoc(last: int, times: seq<int>, t: int)
    ensures Accepted(last, times + [t]) == Accepted(last, times) + (if Accepts(LastForward(last, times), t) then [t] else [])
    decreases |times|
  {
    if times == [] {
      assert Accepted(t, []) == [];
    } else {
      assert (times + [t])[0] == times[0] && (times + [t])[1..] == times[1..] + [t];
      if Accepts(last, times[0]) {
        AcceptedSnoc(times[0], times[1..], t);
      } else {
        AcceptedSnoc(last, times[1..], t);
      }
    }
  }

  /** SerialPlotterMainPanel: the plotter it drives, the throttle's clock and the scroll bar. */
  class SerialPlotterMainPanel {
    const plotter: SerialPlotterPanel
    var lastDataUpdateTime: int
    var updatingScrollBarProgrammatically: bool
    var scrollValue: int
    var scrollMaximum: int
    var scrollExtent: int
    var scrollVisible: bool

    /** The class invariant: the plotter's. */
    predicate Valid()
      reads this, plotter, plotter.store
    {
      plotter.Valid()
    }

    /** A new tab: a fresh plotter, the clock at 0 and an empty scroll bar as wide as the window. */
    constructor()
      ensures Valid() && fresh(plotter) && fresh(plotter.store)
      ensures lastDataUpdateTime == 0 && !updatingScrollBarProgrammatically
      ensures scrollValue == 0 && scrollMaximum == 0 && scrollExtent == plotter.windowSize
    {
      plotter := new SerialPlotterPanel();
      lastDataUpdateTime := 0;
      updatingScrollBarProgrammatically := false;
      scrollVisible := true;
      new;
      scrollValue := 0;
      scrollMaximum := 0;
      scrollExtent := plotter.windowSize;
    }

    /**
     * The bar as updateScrollBar leaves it, from a previous value: the extent
     * is the plotter's window width truncated (at least 1), the maximum the
     * last start position plus the extent, visible only when the samples do
     * not fit, and the value the right end under auto-scroll or the previous
     * value kept in range otherwise.
     */
    predicate BarInStep(previous: int)
      reads this, plotter, plotter.store
      requires Valid()
    {
      var count := plotter.store.GetDataPointCount();
      var window := ScrollWindow(plotter.View().x);
      var max := ScrollMax(count, window);
      && scrollExtent == window
      && scrollMaximum == max + window
      && (scrollVisible <==> count > window)
      && scrollValue == ScrollValue(plotter.autoScroll, previous, max)
    }

    /**
     * updateScrollBar: extent and maximum from the plotter's window and the
     * sample count, visible only when the samples do not fit, and the value
     * at the right end under auto-scroll or kept in range otherwise; the
     * value is set with the programmatic-update flag raised.
     */
    method UpdateScrollBar()
      requires Valid()
      modifies this
      ensures Valid() && lastDataUpdateTime == old(lastDataUpdateTime)
      ensures !updatingScrollBarProgrammatically
      ensures unchanged(plotter) && unchanged(plotter.store)
      ensures BarInStep(old(scrollValue))
      ensures 0 <= scrollValue <= scrollMaximum - scrollExtent
      ensures plotter.autoScroll ==> scrollValue + scrollExtent == scrollMaximum
    {
      var count := plotter.store.GetDataPointCount();
      var xMin, xMax := plotter.xAxisMin, plotter.xAxisMax;
      var window := MaxInt(1, DoubleToInt(xMax - xMin));
      var max := MaxInt(0, count - window);
      scrollVisible := count > window;
      scrollMaximum := max + window;
      scrollExtent := window;
      var value := if plotter.autoScroll then max else CoerceInt(scrollValue, 0, max);
      updatingScrollBarProgrammatically := true;
      scrollValue, scrollExtent, scrollMaximum := value, window, max + window;
      updatingScrollBarProgrammatically := false;
    }

    /**
     * The plotter shows [start, start + window] in manual mode: auto-scroll
     * off, the window size the width truncated to an Int (at least 10, and
     * the width itself when it fits), and the X range the requested window,
     * clamped to the data when there is data to show.
     */
    predicate ShowsManualWindow(start: int, window: int)
      reads this, plotter, plotter.store
      requires Valid()
    {
      var count := plotter.store.GetDataPointCount();
      var requested := Window(start as real, (start + window) as real);
      && !plotter.autoScroll
      && plotter.windowSize == MaxInt(DoubleToInt(window as real), 10)
      && (window <= IntMax ==> plotter.windowSize == window)
      && (count >= 1 && plotter.store.GetSeriesNames() != [] ==> plotter.View().x == Clamped(requested, count))
      && (count == 0 || plotter.store.GetSeriesNames() == [] ==> plotter.View().x == requested)
    }

    /**
     * The scroll bar's adjustment listener. Events while the knob is being
     * dragged or while the bar is set programmatically are ignored. Otherwise
     * auto-scroll is set from whether the bar is at its right end, and then
     * the window [start, start + windowSize] is applied, which switches
     * auto-scroll off again: a handled move always ends in manual mode.
     */
    method OnAdjustment(value: int, valueIsAdjusting: bool)
      requires Valid()
      modifies this, plotter
      ensures Valid() && lastDataUpdateTime == old(lastDataUpdateTime)
      ensures plotter.store.Snapshot() == old(plotter.store.Snapshot())
      ensures plotter.hiddenSeries == old(plotter.hiddenSeries)
      ensures valueIsAdjusting || old(updatingScrollBarProgrammatically) ==>
        plotter.View() == old(plotter.View()) && plotter.plotted == old(plotter.plotted) && scrollValue == value
      ensures !valueIsAdjusting && !old(updatingScrollBarProgrammatically) ==>
        ShowsManualWindow(value, old(plotter.windowSize))
      ensures !valueIsAdjusting && !old(updatingScrollBarProgrammatically)
        && 0 <= value && value + 1 < ScrollMax(plotter.store.GetDataPointCount(), old(plotter.windowSize))
        && old(plotter.View()).x.hi - old(plotter.View()).x.lo <= old(plotter.windowSize) as real
        ==> scrollValue == value
      ensures var max := ScrollMax(plotter.store.GetDataPointCount(), old(plotter.windowSize));
        !valueIsAdjusting && !old(updatingScrollBarProgrammatically)
        && max > 0 && max - 1 <= value <= max && old(plotter.windowSize) <= IntMax && plotter.store.GetSeriesNames() != []
        ==> scrollValue == max
    {
      scrollValue := value;
      if valueIsAdjusting || updatingScrollBarProgrammatically {
        return;
      }
      ScrollTo(value);
    }

    /** The handled part of the adjustment listener: auto-scroll from the bar's position, then the window at `value`. */
    method ScrollTo(value: int)
      requires Valid()
      modifies this, plotter
      ensures Valid() && lastDataUpdateTime == old(lastDataUpdateTime)
      ensures plotter.hiddenSeries == old(plotter.hiddenSeries)
      ensures ShowsManualWindow(value, old(plotter.windowSize))
      ensures old(scrollValue) == value && 0 <= value
        && value + 1 < ScrollMax(plotter.store.GetDataPointCount(), old(plotter.windowSize))
        && old(plotter.View()).x.hi - old(plotter.View()).x.lo <= old(plotter.windowSize) as real
        ==> scrollValue == value
      ensures var max := ScrollMax(plotter.store.GetDataPointCount(), old(plotter.windowSize));
        max > 0 && max - 1 <= value <= max && old(plotter.windowSize) <= IntMax && plotter.store.GetSeriesNames() != []
        ==> scrollValue == max
    {
      var window := plotter.windowSize;
      FollowScrollPosition(value);
      ShowScrollWindow(value, window);
    }

    /** Auto-scroll on exactly when the bar sits at (or one step before) its right end with samples beyond one window. */
    method FollowScrollPosition(start: int)
      requires Valid()
      modifies this, plotter
      ensures Valid() && lastDataUpdateTime == old(lastDataUpdateTime)
      ensures plotter.hiddenSeries == old(plotter.hiddenSeries) && plotter.windowSize == old(plotter.windowSize)
      ensures var max := ScrollMax(plotter.store.GetDataPointCount(), plotter.windowSize);
        plotter.autoScroll <==> max > 0 && start >= max - 1
      ensures !plotter.autoScroll && 0 <= old(scrollValue)
        && old(scrollValue) + plotter.windowSize <= plotter.store.GetDataPointCount()
        && old(plotter.View()).x.hi - old(plotter.View()).x.lo <= plotter.windowSize as real
        ==> scrollValue == old(scrollValue)
      ensures plotter.autoScroll && plotter.windowSize <= IntMax && plotter.store.GetSeriesNames() != []
        ==> scrollValue == ScrollMax(plotter.store.GetDataPointCount(), plotter.windowSize)
    {
      var window := plotter.windowSize;
      var count := plotter.store.GetDataPointCount();
      var max := MaxInt(0, count - window);
      if max > 0 && start >= max - 1 {
        SetPlotterAutoScroll(true);
      } else {
        SetPlotterAutoScroll(false);
      }
    }

    /** setAutoScrollEnabled on the plotter, whose viewport listener then refreshes the bar. */
    method SetPlotterAutoScroll(enabled: bool)
      requires Valid()
      modifies this, plotter
      ensures Valid() && lastDataUpdateTime == old(lastDataUpdateTime)
      ensures plotter.hiddenSeries == old(plotter.hiddenSeries) && plotter.windowSize == old(plotter.windowSize)
      ensures plotter.autoScroll == enabled
      ensures (plotter.View(), plotter.plotted) == plotter.Chart(old(plotter.View()).(autoScroll := enabled))
      ensures !enabled && 0 <= old(scrollValue)
        && old(scrollValue) + plotter.windowSize <= plotter.store.GetDataPointCount()
        && old(plotter.View()).x.hi - old(plotter.View()).x.lo <= plotter.windowSize as real
        ==> scrollValue == old(scrollValue)
      ensures enabled && plotter.windowSize <= IntMax && plotter.store.GetSeriesNames() != []
        && plotter.store.GetDataPointCount() > plotter.windowSize
        ==> scrollValue == ScrollMax(plotter.store.GetDataPointCount(), plotter.windowSize)
    {
      var window := plotter.windowSize;
      var count := plotter.store.GetDataPointCount();
      ghost var v0 := plotter.View();
      var notify := plotter.SetAutoScrollEnabled(enabled);
      if enabled {
        if 1 <= window <= IntMax {
          FollowExtent(count, window);
        }
      } else if v0.x.hi - v0.x.lo <= window as real {
        RefreshedNarrows(v0.(autoScroll := false), count, plotter.store.GetSeriesNames(), plotter.store.series, window as real);
        ScrollWindowAtMost(plotter.View().x, window);
      }
      if notify {
        UpdateScrollBar();
      }
    }

    /** The window [start, start + window] applied manually: auto-scroll off, clamped to the data when there is any. */
    method ShowScrollWindow(start: int, window: int)
      requires Valid() && window == plotter.windowSize
      modifies this, plotter
      ensures Valid() && lastDataUpdateTime == old(lastDataUpdateTime)
      ensures plotter.hiddenSeries == old(plotter.hiddenSeries)
      ensures ShowsManualWindow(start, window)
      ensures 0 <= old(scrollValue) && old(scrollValue) + window <= plotter.store.GetDataPointCount()
        ==> scrollValue == old(scrollValue)
      ensures var count := plotter.store.GetDataPointCount();
        0 <= start && start + window <= count && window <= IntMax && plotter.store.GetSeriesNames() != []
        ==> scrollValue == CoerceInt(old(scrollValue), 0, count - window)
    {
      if window <= IntMax {
        DoubleToIntWhole(window);
      }
      ghost var v0 := plotter.View();
      var notify := plotter.SetXAxisWindow(start as real, (start + window) as real);
      ShownExtent(start, window, v0.y, MaxInt(DoubleToInt(window as real), 10),
        plotter.store.GetDataPointCount(), plotter.store.GetSeriesNames(), plotter.store.series);
      if notify {
        UpdateScrollBar();
      }
    }

    /**
     * onDataReceived: a chunk arriving more than 100 ms after the last one
     * handed on goes to the plotter, the scroll bar follows and the clock
     * moves to `now`; any other chunk is dropped and nothing changes.
     */
    method OnDataReceived(data: string, now: int, num: NumberParser)
      requires Valid()
      modifies this, plotter, plotter.store
      ensures Valid() && plotter.store.config == old(plotter.store.config)
      ensures Accepts(old(lastDataUpdateTime), now) ==>
        && lastDataUpdateTime == now
        && plotter.store.Snapshot() == AddLines(old(plotter.store.Snapshot()), ParseData(data, plotter.store.config, now, num), plotter.store.config.maxCache)
        && plotter.hiddenSeries == old(plotter.hiddenSeries)
        && (plotter.View(), plotter.plotted) == plotter.Chart(old(plotter.View()))
        && BarInStep(old(scrollValue))
        && !updatingScrollBarProgrammatically
      ensures !Accepts(old(lastDataUpdateTime), now) ==>
        && lastDataUpdateTime == old(lastDataUpdateTime)
        && plotter.store.Snapshot() == old(plotter.store.Snapshot())
        && plotter.View() == old(plotter.View())
        && plotter.plotted == old(plotter.plotted) && plotter.hiddenSeries == old(plotter.hiddenSeries)
        && scrollValue == old(scrollValue) && scrollMaximum == old(scrollMaximum)
        && scrollExtent == old(scrollExtent) && scrollVisible == old(scrollVisible)
        && updatingScrollBarProgrammatically == old(updatingScrollBarProgrammatically)
    {
      var currentTime := now;
      if currentTime - lastDataUpdateTime > UpdateInterval {
        // The clock is read by neither step, so it may move first.
        lastDataUpdateTime := currentTime;
        ForwardChunk(data, now, num);
      }
    }

    /**
     * The accepted branch of onDataReceived: the plotter takes the chunk (its
     * viewport listener may already refresh the bar), then the bar is
     * refreshed once more, which leaves it as a single refresh would.
     */
    method ForwardChunk(data: string, now: int, num: NumberParser)
      requires Valid()
      modifies this, plotter, plotter.store
      ensures Valid() && plotter.store.config == old(plotter.store.config)
      ensures lastDataUpdateTime == old(lastDataUpdateTime)
      ensures plotter.store.Snapshot() == AddLines(old(plotter.store.Snapshot()), ParseData(data, plotter.store.config, now, num), plotter.store.config.maxCache)
      ensures plotter.hiddenSeries == old(plotter.hiddenSeries)
      ensures (plotter.View(), plotter.plotted) == plotter.Chart(old(plotter.View()))
      ensures BarInStep(old(scrollValue)) && !updatingScrollBarProgrammatically
    {
      ghost var previous := scrollValue;
      var notify := plotter.AddSerialData(data, now, num);
      ghost var max := ScrollMax(plotter.store.GetDataPointCount(), ScrollWindow(plotter.View().x));
      if notify {
        UpdateScrollBar();
        ScrollValueIdempotent(plotter.autoScroll, previous, max);
      }
      assert scrollValue == previous || scrollValue == ScrollValue(plotter.autoScroll, previous, max);
      UpdateScrollBar();
    }

    /** onConnectionStatusChanged: a new connection clears the plotter; other states change nothing modelled here. */
    method OnConnectionStatusChanged(state: SerialPortState)
      requires Valid()
      modifies this, plotter, plotter.store
      ensures Valid() && plotter.store.config == old(plotter.store.config)
      ensures state == Connected ==>
        plotter.store.Snapshot() == EmptyStore && plotter.autoScroll && plotter.hiddenSeries == {}
        && plotter.View().x == Window(0.0, plotter.windowSize as real)
      ensures state != Connected ==>
        plotter.store.Snapshot() == old(plotter.store.Snapshot()) && plotter.View() == old(plotter.View())
    {
      if state == Connected {
        plotter.ClearData();
      }
    }

    /** The Clear button: clear the plotter, then bring the scroll bar in step. */
    method ClearButton()
      requires Valid()
      modifies this, plotter, plotter.store
      ensures Valid() && plotter.store.Snapshot() == EmptyStore && plotter.store.config == old(plotter.store.config)
      ensures plotter.hiddenSeries == {} && plotter.plotted == [] && plotter.windowSize == old(plotter.windowSize)
      ensures plotter.View() == old(plotter.View()).(x := Window(0.0, old(plotter.windowSize) as real), autoScroll := true)
      ensures BarInStep(old(scrollValue))
      ensures scrollValue == 0 && !scrollVisible
    {
      plotter.ClearData();
      UpdateScrollBar();
    }

    /** The Reset button: reset the view, make sure auto-scroll is on, and put the scroll bar at its right end. */
    method ResetButton()
      requires Valid()
      modifies this, plotter
      ensures Valid() && plotter.store.Snapshot() == old(plotter.store.Snapshot())
      ensures plotter.autoScroll && plotter.windowSize == old(plotter.windowSize)
      ensures plotter.hiddenSeries == old(plotter.hiddenSeries)
      ensures (plotter.View(), plotter.plotted)
        == plotter.Chart(old(plotter.View()).(x := Window(0.0, old(plotter.windowSize) as real), autoScroll := true))
      ensures BarInStep(old(scrollValue))
      ensures scrollValue + scrollExtent == scrollMaximum
    {
      ghost var reset := plotter.View().(x := Window(0.0, plotter.windowSize as real), autoScroll := true);
      var notify := plotter.ResetView();
      if notify {
        UpdateScrollBar();
      }
      SetPlotterAutoScroll(true);
      RefreshedIdempotent(reset, plotter.store.GetDataPointCount(), plotter.store.GetSeriesNames(), plotter.store.series);
      UpdateScrollBar();
    }

    /** The settings dialog's callback: the plotter takes the new configuration. */
    method ApplySettings(newConfig: PlotterConfig)
      requires Valid() && Validate(newConfig)
      modifies this, plotter, plotter.store
      ensures Valid() && plotter.store.config == newConfig
      ensures plotter.windowSize == newConfig.windowSize
      ensures plotter.store.GetDataPointCount() <= newConfig.maxCache
      ensures plotter.store.Snapshot() == Trimmed(old(plotter.store.Snapshot()), newConfig.maxCache)
      ensures plotter.hiddenSeries == old(plotter.hiddenSeries) && plotter.autoScroll == old(plotter.autoScroll)
      ensures var v := old(plotter.View()).(windowSize := newConfig.windowSize);
        (plotter.View(), plotter.plotted)
          == plotter.Chart(if old(plotter.autoScroll) then v.(x := Window(0.0, newConfig.windowSize as real)) else v)
      ensures plotter.store.GetDataPointCount() >= 1 && plotter.store.GetSeriesNames() != [] ==> BarInStep(old(scrollValue))
      ensures plotter.store.GetDataPointCount() == 0 || plotter.store.GetSeriesNames() == [] ==>
        && scrollValue == old(scrollValue) && scrollMaximum == old(scrollMaximum)
        && scrollExtent == old(scrollExtent) && scrollVisible == old(scrollVisible)
    {
      var notify := plotter.UpdateConfig(newConfig);
      if notify {
        UpdateScrollBar();
      }
    }
  }
}
