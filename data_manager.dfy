/**
 * PlotterDataManager (PlotterData.kt): the plotter's multi-series cache. It
 * keeps a log of every parsed line, one value list per series name and one
 * timestamp per sample, and evicts the oldest samples beyond the configured
 * cache size.
 *
 * The class below changes its fields in place, as the Kotlin class does; the
 * functions on `Store` values say what each of its operations computes, and
 * the lemmas say what that means.
 */
module DataManager {
  import opened Optional
  import opened Text
  import opened DataLines
  import opened PlotterConfigs

  /** The three collections of the manager, as a value. */
  datatype Store = Store(lines: seq<DataLine>, series: map<string, seq<real>>, timePoints: seq<int>)

  /** The empty store (after construction or clear()). */
  const EmptyStore := Store([], map[], [])

  function Min(a: int, b: int): int
  {
    if a <= b then a else b
  }

  /** The value a line gives series `name`: its own value when it carries one, else 0.0. */
  function ValueOrZero(points: seq<DataPoint>, name: string): (v: real)
    ensures GetValue(points, name).Some? ==> v == GetValue(points, name).value
    ensures GetValue(points, name).None? ==> v == 0.0
  {
    match GetValue(points, name)
    case Some(v) => v
    case None => 0.0
  }

  /** The series map once every name of `points` has a list: names seen for the first time get an empty one. */
  function Registered(series: map<string, seq<real>>, points: seq<DataPoint>): (r: map<string, seq<real>>)
    ensures r.Keys == series.Keys + PointNames(points)
    ensures forall n :: n in series ==> r[n] == series[n]
    ensures forall n :: n in r && n !in series ==> r[n] == []
  {
    map n | n in series.Keys + PointNames(points) :: if n in series then series[n] else []
  }

  /** Every series of the map with one more value appended: the line's value or 0.0. */
  function Extended(series: map<string, seq<real>>, points: seq<DataPoint>): (r: map<string, seq<real>>)
    ensures r.Keys == series.Keys
    ensures forall n :: n in r ==> |r[n]| == |series[n]| + 1 && r[n][..|series[n]|] == series[n]
    ensures forall n :: n in r ==> r[n][|series[n]|] == ValueOrZero(points, n)
  {
    map n | n in series :: series[n] + [ValueOrZero(points, n)]
  }

  /** How many of `count` samples exceed a cache of `maxCache`. */
  function Excess(count: nat, maxCache: nat): (k: nat)
    ensures k <= count && count - k == Min(count, maxCache)
  {
    if count > maxCache then count - maxCache else 0
  }

  /** A value list with its `k` oldest values removed, or emptied when it has fewer. */
  function Evict(values: seq<real>, k: nat): (r: seq<real>)
    ensures |r| == |values| - Min(k, |values|)
    ensures r == values[|values| - |r|..]
  {
    values[Min(k, |values|)..]
  }

  /** One eviction step on one series: its oldest value goes, if it has one. */
  function DropHead(values: seq<real>): (r: seq<real>)
    ensures values != [] ==> r == values[1..]
    ensures values == [] ==> r == []
  {
    if values == [] then [] else values[1..]
  }

  /** Every series after `k` eviction steps, each of which drops the head of every non-empty series. */
  function Evicted(series: map<string, seq<real>>, k: nat): (r: map<string, seq<real>>)
    ensures r.Keys == series.Keys
  {
    map n | n in series :: Evict(series[n], k)
  }

  /** trimToMaxCache on a store: the oldest samples beyond `maxCache` are dropped from the timeline and every series. */
  function Trimmed(st: Store, maxCache: nat): (r: Store)
    ensures r.lines == st.lines && r.series.Keys == st.series.Keys
    ensures |r.timePoints| == Min(|st.timePoints|, maxCache)
    ensures r.timePoints == st.timePoints[|st.timePoints| - |r.timePoints|..]
  {
    var k := Excess(|st.timePoints|, maxCache);
    Store(st.lines, Evicted(st.series, k), st.timePoints[k..])
  }

  /** addDataLine before its trim: the line logged, its new names registered, the timestamp and one value per series appended. */
  function Grown(st: Store, line: DataLine): (r: Store)
    ensures r.lines == st.lines + [line]
    ensures r.timePoints == st.timePoints + [line.timestamp]
    ensures r.series.Keys == st.series.Keys + PointNames(line.points)
    ensures forall n :: n in r.series ==>
              r.series[n] == (if n in st.series then st.series[n] else []) + [ValueOrZero(line.points, n)]
  {
    Store(st.lines + [line], Extended(Registered(st.series, line.points), line.points), st.timePoints + [line.timestamp])
  }

  /** addDataLine: grow by the line, then trim to the cache size. */
  function AddLine(st: Store, line: DataLine, maxCache: nat): Store
  {
    Trimmed(Grown(st, line), maxCache)
  }

  /** addSerialData's loop: addDataLine for each line in turn. */
  function AddLines(st: Store, lines: seq<DataLine>, maxCache: nat): Store
    decreases |lines|
  {
    if lines == [] then st else AddLines(AddLine(st, lines[0], maxCache), lines[1..], maxCache)
  }

  /**
   * What the manager keeps true: no more samples than the cache allows, no
   * series longer than the timeline, and one series per name ever seen on a
   * logged line.
   */
  predicate WellFormed(st: Store, maxCache: nat)
  {
    && |st.timePoints| <= maxCache
    && (forall n :: n in st.series ==> |st.series[n]| <= |st.timePoints|)
    && st.series.Keys == LineNames(st.lines)
  }

  /** Names of a log with one more line: those before plus the new line's. */
  lemma LineNamesAppend(lines: seq<DataLine>, line: DataLine)
    ensures LineNames(lines + [line]) == LineNames(lines) + PointNames(line.points)
  {
    assert (lines + [line])[..|lines|] == lines;
  }

  /** Trimming keeps every series within the timeline and the cache bound. */
  lemma TrimmedWellFormed(st: Store, maxCache: nat)
    requires forall n :: n in st.series ==> |st.series[n]| <= |st.timePoints|
    requires st.series.Keys == LineNames(st.lines)
    ensures WellFormed(Trimmed(st, maxCache), maxCache)
  {
    var k := Excess(|st.timePoints|, maxCache);
    var r := Trimmed(st, maxCache);
    forall n | n in r.series
      ensures |r.series[n]| <= |r.timePoints|
    {
      assert r.series[n] == Evict(st.series[n], k);
    }
  }

  /** addDataLine keeps the manager well formed, whatever the line. */
  lemma AddLineWellFormed(st: Store, line: DataLine, maxCache: nat)
    requires WellFormed(st, maxCache)
    ensures WellFormed(AddLine(st, line, maxCache), maxCache)
  {
    var g := Grown(st, line);
    LineNamesAppend(st.lines, line);
    forall n | n in g.series
      ensures |g.series[n]| <= |g.timePoints|
    {
    }
    TrimmedWellFormed(g, maxCache);
  }

  /** addSerialData keeps the manager well formed. */
  lemma {:induction false} AddLinesWellFormed(st: Store, lines: seq<DataLine>, maxCache: nat)
    requires WellFormed(st, maxCache)
    ensures WellFormed(AddLines(st, lines, maxCache), maxCache)
    decreases |lines|
  {
    if lines != [] {
      AddLineWellFormed(st, lines[0], maxCache);
      AddLinesWellFormed(AddLine(st, lines[0], maxCache), lines[1..], maxCache);
    }
  }

  /**
   * Before trimming, addDataLine leaves the gap between the timeline and each
   * existing series as it was, and a newly seen series holds only this
   * line's value.
   */
  lemma GrownKeepsGap(st: Store, line: DataLine, n: string)
    requires n in Grown(st, line).series
    ensures var g := Grown(st, line);
      && (n in st.series ==> |g.timePoints| - |g.series[n]| == |st.timePoints| - |st.series[n]|)
      && (n !in st.series ==> g.series[n] == [ValueOrZero(line.points, n)])
  {
  }

  /** An eviction step keeps the gap of a series that still has values, and empties none that had more. */
  lemma EvictionKeepsGap(st: Store, maxCache: nat, n: string)
    requires n in st.series
    requires |st.series[n]| >= Excess(|st.timePoints|, maxCache)
    ensures var r := Trimmed(st, maxCache);
      |r.timePoints| - |r.series[n]| == |st.timePoints| - |st.series[n]|
  {
    var k := Excess(|st.timePoints|, maxCache);
    assert Trimmed(st, maxCache).series[n] == Evict(st.series[n], k);
  }

  /** One more eviction step on an evicted list is the same as evicting one more from the start. */
  lemma EvictStep(values: seq<real>, k: nat)
    ensures DropHead(Evict(values, k)) == Evict(values, k + 1)
  {
  }

  /** Where the trim loop stops: the timeline cut to the cache and every series evicted as often, which is the trimmed store. */
  lemma TrimLoopExit(st: Store, maxCache: nat, steps: nat, series: map<string, seq<real>>, timePoints: seq<int>)
    requires steps <= |st.timePoints| && timePoints == st.timePoints[steps..]
    requires |timePoints| <= maxCache && (steps == 0 || |timePoints| >= maxCache)
    requires series == Evicted(st.series, steps)
    ensures Store(st.lines, series, timePoints) == Trimmed(st, maxCache)
  {
    assert steps == Excess(|st.timePoints|, maxCache);
  }

  /** One more round of dropping the oldest value of every series is one more eviction. */
  lemma EvictedStep(s0: map<string, seq<real>>, k: nat, dropped: map<string, seq<real>>)
    requires dropped.Keys == s0.Keys
    requires forall n :: n in dropped ==> dropped[n] == DropHead(Evicted(s0, k)[n])
    ensures dropped == Evicted(s0, k + 1)
  {
    forall n | n in dropped
      ensures dropped[n] == Evicted(s0, k + 1)[n]
    {
      EvictStep(s0[n], k);
    }
  }

  /**
   * The manager of PlotterData.kt. `dataLines` is a log that only grows
   * between clears; `series` and `timePoints` are the cache.
   */
  class PlotterDataManager {
    var dataLines: seq<DataLine>
    var series: map<string, seq<real>>
    var timePoints: seq<int>
    var config: PlotterConfig

    /** The three collections as a value. */
    function Snapshot(): Store
      reads this
    {
      Store(dataLines, series, timePoints)
    }

    /** The class invariant: a non-negative cache size and a well-formed store under it. */
    predicate Valid()
      reads this
    {
      config.maxCache >= 0 && WellFormed(Snapshot(), config.maxCache)
    }

    /** A new manager: empty, under the default configuration. */
    constructor()
      ensures Valid()
      ensures Snapshot() == EmptyStore && config == Default
    {
      dataLines := [];
      series := map[];
      timePoints := [];
      config := Default;
    }

    /** getDataPointCount: the number of cached samples, never more than the cache size. */
    function GetDataPointCount(): (count: nat)
      reads this
      requires Valid()
      ensures count <= config.maxCache
    {
      |timePoints|
    }

    /** getTimePoints: the cached timestamps, oldest first. */
    function GetTimePoints(): (r: seq<int>)
      reads this
      requires Valid()
      ensures |r| == GetDataPointCount()
    {
      timePoints
    }

    /** getSeries: a series' values, or None for a name no logged line has carried. */
    function GetSeries(name: string): (r: Option<seq<real>>)
      reads this
      requires Valid()
      ensures r.None? <==> name !in LineNames(dataLines)
      ensures r.Some? ==> |r.value| <= GetDataPointCount()
    {
      if name in series then Some(series[name]) else None
    }

    /** getSeriesNames: every series name, each once, in strictly ascending String order. */
    function GetSeriesNames(): (names: seq<string>)
      reads this
      requires Valid()
      ensures forall n :: n in names <==> n in LineNames(dataLines)
      ensures forall i, j :: 0 <= i < j < |names| ==> LexLess(names[i], names[j])
    {
      SortedKeys(series.Keys)
    }

    /** updateConfig: take the new configuration, then trim to its cache size. */
    method UpdateConfig(newConfig: PlotterConfig)
      requires Valid() && newConfig.maxCache >= 0
      modifies this
      ensures Valid() && config == newConfig
      ensures Snapshot() == Trimmed(old(Snapshot()), newConfig.maxCache)
    {
      config := newConfig;
      TrimToMaxCache();
      TrimmedWellFormed(old(Snapshot()), newConfig.maxCache);
    }

    /**
     * trimToMaxCache: while the timeline is longer than the cache, drop its
     * oldest timestamp and the oldest value of every non-empty series.
     */
    method TrimToMaxCache()
      requires config.maxCache >= 0
      modifies this
      ensures config == old(config)
      ensures Snapshot() == Trimmed(old(Snapshot()), config.maxCache)
    {
      ghost var s0 := series;
      ghost var t0 := timePoints;
      ghost var steps: nat := 0;
      while |timePoints| > config.maxCache
        invariant config == old(config) && dataLines == old(dataLines)
        invariant steps <= |t0| && timePoints == t0[steps..]
        invariant steps == 0 || |timePoints| >= config.maxCache
        invariant series == Evicted(s0, steps)
        decreases |timePoints|
      {
        timePoints := timePoints[1..];
        DropOldestValues();
        EvictedStep(s0, steps, series);
        steps := steps + 1;
      }
      TrimLoopExit(old(Snapshot()), config.maxCache, steps, series, timePoints);
    }

    /** The inner loop of trimToMaxCache: every non-empty series loses its oldest value. */
    method DropOldestValues()
      modifies this
      ensures dataLines == old(dataLines) && timePoints == old(timePoints) && config == old(config)
      ensures series.Keys == old(series).Keys
      ensures forall n :: n in series ==> series[n] == DropHead(old(series)[n])
    {
      var pending := series.Keys;
      while pending != {}
        invariant dataLines == old(dataLines) && timePoints == old(timePoints) && config == old(config)
        invariant pending <= series.Keys && series.Keys == old(series).Keys
        invariant forall n :: n in series ==> series[n] == if n in pending then old(series)[n] else DropHead(old(series)[n])
        decreases pending
      {
        var n :| n in pending;
        if series[n] != [] {
          series := series[n := series[n][1..]];
        }
        pending := pending - {n};
      }
    }

    /**
     * addDataLine: log the line, register its new names with empty lists,
     * append its timestamp and one value to every series (its own value or
     * 0.0), then trim.
     */
    method AddDataLine(line: DataLine)
      requires Valid()
      modifies this
      ensures Valid() && config == old(config)
      ensures Snapshot() == AddLine(old(Snapshot()), line, config.maxCache)
    {
      dataLines := dataLines + [line];
      RegisterNames(line.points);
      timePoints := timePoints + [line.timestamp];
      AppendValues(line.points);
      assert Snapshot() == Grown(old(Snapshot()), line);
      TrimToMaxCache();
      AddLineWellFormed(old(Snapshot()), line, config.maxCache);
    }

    /** The first loop of addDataLine: a name seen for the first time gets an empty list. */
    method RegisterNames(points: seq<DataPoint>)
      modifies this
      ensures dataLines == old(dataLines) && timePoints == old(timePoints) && config == old(config)
      ensures series == Registered(old(series), points)
    {
      var i := 0;
      while i < |points|
        invariant dataLines == old(dataLines) && timePoints == old(timePoints) && config == old(config)
        invariant i <= |points|
        invariant series.Keys == old(series).Keys + PointNames(points[..i])
        invariant forall n :: n in series ==> series[n] == if n in old(series) then old(series)[n] else []
      {
        var name := points[i].name;
        if name !in series {
          series := series[name := []];
        }
        PointNamesStep(points, i);
        i := i + 1;
      }
      assert points[..i] == points;
    }

    /** The second loop of addDataLine: every series gets the line's value for it, or 0.0. */
    method AppendValues(points: seq<DataPoint>)
      modifies this
      ensures dataLines == old(dataLines) && timePoints == old(timePoints) && config == old(config)
      ensures series == Extended(old(series), points)
    {
      var pending := series.Keys;
      while pending != {}
        invariant dataLines == old(dataLines) && timePoints == old(timePoints) && config == old(config)
        invariant pending <= series.Keys && series.Keys == old(series).Keys
        invariant forall n :: n in series ==>
                    series[n] == if n in pending then old(series)[n] else old(series)[n] + [ValueOrZero(points, n)]
        decreases pending
      {
        var n :| n in pending;
        series := series[n := series[n] + [ValueOrZero(points, n)]];
        pending := pending - {n};
      }
    }

    /** addSerialData: parse the chunk under the current configuration and add each line in turn. */
    method AddSerialData(data: string, now: int, num: NumberParser)
      requires Valid()
      modifies this
      ensures Valid() && config == old(config)
      ensures Snapshot() == AddLines(old(Snapshot()), ParseData(data, config, now, num), config.maxCache)
    {
      var lines := ParseData(data, config, now, num);
      var i := 0;
      while i < |lines|
        invariant i <= |lines| && Valid() && config == old(config)
        invariant AddLines(old(Snapshot()), lines, config.maxCache) == AddLines(Snapshot(), lines[i..], config.maxCache)
      {
        assert lines[i..][1..] == lines[i + 1..];
        AddDataLine(lines[i]);
        i := i + 1;
      }
    }

    /** clear: empty the log, the series and the timeline; the configuration stays. */
    method Clear()
      requires Valid()
      modifies this
      ensures Valid() && config == old(config)
      ensures Snapshot() == EmptyStore
      ensures GetDataPointCount() == 0 && GetSeriesNames() == []
    {
      dataLines := [];
      series := map[];
      timePoints := [];
    }
  }
}
