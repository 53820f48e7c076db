# SerialMonitor plotter and log: a Dafny model

SerialMonitor is an IDE plugin that reads a serial port. It shows what arrives in two places:

- a text log, which can be filtered;
- a live line chart ("serial plotter") of named values sent as `name:value,name:value` lines.

This project models the parts of the plugin that compute something, and proves what they promise.

- **Line parsers** (`PlotterConfigs`, `LegacyParser`). A line is trimmed and split on the item separator. Each item is split on the name separator, and it becomes a `DataPoint` only when:
  - it has exactly two parts;
  - the name is non-empty;
  - the value is a number.

  A chunk is split on `"\n"`, and the lines that yield nothing are dropped. The original `SerialDataParser` runs the same steps with `","` and `":"`. `LegacyParser.ParseLine` is modelled as the configurable parser under `Default`, and its point names are proved free of both separators. `SerialDataParser.parseData` is `PlotterConfigs.ParseData` under `Default`.
- **Series store** (`DataManager.PlotterDataManager`). It keeps:
  - a log of lines;
  - a timeline of timestamps;
  - one value list per series name.

  Adding a line registers new names with an empty list and gives every series the line's value, or 0.0 when the line lacks it. The oldest samples are then evicted down to `maxCache`. The class is specified through a `Store` value and the functions `Grown`, `Trimmed` and `AddLine`.

  Its invariant `WellFormed` is preserved by every operation:
  - at most `maxCache` samples;
  - no series longer than the timeline;
  - one series per name ever logged.
- **Chart viewport** (`PlotterPanel.SerialPlotterPanel`). It holds the x and y windows, auto-scroll, the window size and the hidden series. `updateChart` is specified by `Refreshed` and `Plotted`:
  - an auto-scroll window follows the newest samples;
  - a manual window is clamped to the data;
  - the Y range covers every value with a 10% margin;
  - colours are the position in the sorted name list modulo 10.

  Zoom, explicit windows, reset, clear and reconfiguration are methods whose contracts give the new viewport.
- **Plotter tab** (`PlotterMainPanel.SerialPlotterMainPanel`). It covers:
  - the 100 ms input throttle;
  - the scroll bar's extent, maximum, value and visibility;
  - the scroll listener's decision;
  - the Clear, Reset and Settings buttons;
  - the reaction to a new connection.
- **Text log** (`OutputPanel.SerialOutputPanel`). Everything received goes into an append-only buffer. Under a text filter, the display shows exactly the buffer's lines that contain the filter, ignoring case. `FilterLines` is proved idempotent.

The connection states (`Models.SerialPortState`) are a datatype. Number parsing (`toDouble`, `toDoubleOrNull`) is a parameter `num: NumberParser` of every parse function. The clock is a parameter `now`.

A few facts about the code, as modelled:

- a new series starts empty, with no zeros for earlier samples;
- the Y range includes hidden series;
- `resetView` keeps the current window size;
- there is no smoothing.

A handled scroll-bar move always ends with auto-scroll off (`ScrollTo`), because `setXAxisWindow` runs after the right-end test at SerialPlotterMainPanel.kt line 87. Auto-scroll is therefore always switched off again. The test still has an effect on the bar: on a move to `max - 1`, the bar snaps to its right end `max` while the window starts at `max - 1`. A move further left leaves the bar where the user put it (`OnAdjustment`).

## Model

| member | source | states |
|---|---|---|
| Optional.MapNotNullFrom | src/main/kotlin/com/serialmonitor/plotter/data/PlotterConfig.kt:86-89 | mapNotNull keeps at most one result per input, each result comes from some input, and the result is empty exactly when every input maps to null |
| Optional.MapNotNullKeeps | src/main/kotlin/com/serialmonitor/plotter/data/PlotterConfig.kt:86-89 | every non-null result of an input is in mapNotNull's output |
| Optional.MapNotNullAppend | src/main/kotlin/com/serialmonitor/plotter/data/PlotterConfig.kt:86-89 | mapNotNull over a concatenation is the concatenation of the two outputs |
| Optional.MapNotNull | src/main/kotlin/com/serialmonitor/plotter/data/PlotterConfig.kt:88 | mapNotNull returns no more elements than it was given |
| Text.TrimStart | src/main/kotlin/com/serialmonitor/plotter/data/PlotterConfig.kt:40 | a suffix of the text that drops only leading whitespace and starts with non-whitespace |
| Text.TrimEnd | src/main/kotlin/com/serialmonitor/plotter/data/PlotterConfig.kt:40 | a prefix of the text that drops only trailing whitespace and ends with non-whitespace |
| Text.Trim | src/main/kotlin/com/serialmonitor/plotter/data/PlotterConfig.kt:40-41 | the trim is empty exactly when every character is whitespace; otherwise it starts and ends with non-whitespace |
| Text.IndexOf | src/main/kotlin/com/serialmonitor/plotter/data/PlotterConfig.kt:47 | the delimiter occurs at the returned index and nowhere before it; None only when it occurs nowhere |
| Text.Split | src/main/kotlin/com/serialmonitor/plotter/data/PlotterConfig.kt:47 | split always yields at least one piece |
| Text.SplitPiecesAvoidDelimiter | src/main/kotlin/com/serialmonitor/plotter/data/PlotterConfig.kt:47-51 | no piece of a split on a non-empty delimiter contains that delimiter |
| Text.JoinSplit | src/main/kotlin/com/serialmonitor/plotter/data/PlotterConfig.kt:47 | joining the pieces of a split with its delimiter gives back the text, so the pieces lose nothing |
| Text.Join | src/main/kotlin/com/serialmonitor/ui/SerialOutputPanel.kt:209 | joinToString starts with the first part and is as long as the parts plus one separator between each two |
| Text.SplitJoin | src/main/kotlin/com/serialmonitor/ui/SerialOutputPanel.kt:200-209 | splitting a join on a one-character separator that no part contains gives back the parts |
| Text.SplitTrailing | src/main/kotlin/com/serialmonitor/plotter/data/PlotterConfig.kt:86-89 | a text ending in the delimiter splits into the pieces of the text without it, plus one empty piece |
| Text.ContainsInTrim | src/main/kotlin/com/serialmonitor/plotter/data/PlotterConfig.kt:51-52 | a separator the text does not contain is not contained in its trim either |
| Text.ContainsIgnoreCase | src/main/kotlin/com/serialmonitor/ui/SerialOutputPanel.kt:207 | a text that contains the filter ignoring case is at least as long as the filter |
| Text.ContainsIgnoreCaseBasics | src/main/kotlin/com/serialmonitor/ui/SerialOutputPanel.kt:207 | the empty filter is found in every text, and an exact occurrence is found ignoring case |
| Text.LexLess | src/main/kotlin/com/serialmonitor/plotter/data/PlotterData.kt:176 | String.compareTo puts a proper prefix first |
| Text.LexLessIrreflexive | src/main/kotlin/com/serialmonitor/plotter/data/PlotterData.kt:176 | the string order used by sorted() never puts a string before itself |
| Text.LexLessAsymmetric | src/main/kotlin/com/serialmonitor/plotter/data/PlotterData.kt:176 | no two strings are each before the other |
| Text.LexLessTransitive | src/main/kotlin/com/serialmonitor/plotter/data/PlotterData.kt:176 | the string order is transitive |
| Text.LexLessTotal | src/main/kotlin/com/serialmonitor/plotter/data/PlotterData.kt:176 | any two different strings are ordered one way or the other |
| Text.SortedKeys | src/main/kotlin/com/serialmonitor/plotter/data/PlotterData.kt:176 | sorted() of a key set: the same keys, once each, strictly ascending |
| Text.SortedKeysHead | src/main/kotlin/com/serialmonitor/plotter/data/PlotterData.kt:176 | the sorted keys are the least key followed by the sorted rest |
| Text.SortedUnique | src/main/kotlin/com/serialmonitor/plotter/data/PlotterData.kt:176 | two strictly ascending sequences with the same elements are equal, so the name order depends only on the name set |
| DataLines.GetValue | src/main/kotlin/com/serialmonitor/plotter/data/PlotterData.kt:27 | null exactly when no point has the name; otherwise the value of the first point with that name |
| DataLines.PointNames | src/main/kotlin/com/serialmonitor/plotter/data/PlotterData.kt:22 | a name is among the line's names exactly when some point carries it |
| DataLines.GetValueFirstWins | src/main/kotlin/com/serialmonitor/plotter/data/PlotterData.kt:27 | on a line with a repeated name, the first occurrence's value is the one returned |
| PlotterConfigs.DefaultIsValid | src/main/kotlin/com/serialmonitor/plotter/data/PlotterConfig.kt:6-25 | the defaults (",", ":", 20, 2000) pass validate() |
| PlotterConfigs.Validate | src/main/kotlin/com/serialmonitor/plotter/data/PlotterConfig.kt:19-25 | validate(): both separators non-empty and different, window size at least 10, cache at least 100 |
| PlotterConfigs.ParseLine | src/main/kotlin/com/serialmonitor/plotter/data/PlotterConfig.kt:39-78 | the item loop produces exactly the line's points in item order, or null for a blank line or one without points |
| PlotterConfigs.ItemPoint | src/main/kotlin/com/serialmonitor/plotter/data/PlotterConfig.kt:49-66 | an item yields a point only with a non-empty name |
| PlotterConfigs.ParsedLine | src/main/kotlin/com/serialmonitor/plotter/data/PlotterConfig.kt:39-78 | a parsed line carries the given timestamp and at least one point |
| PlotterConfigs.ItemPointsStep | src/main/kotlin/com/serialmonitor/plotter/data/PlotterConfig.kt:49-68 | one more item adds its point, if it denotes one, at the end |
| PlotterConfigs.ParsedLineNone | src/main/kotlin/com/serialmonitor/plotter/data/PlotterConfig.kt:40-74 | parseLine is null exactly when the line is all whitespace or the points of its items form an empty list |
| PlotterConfigs.ItemPointsEmpty | src/main/kotlin/com/serialmonitor/plotter/data/PlotterConfig.kt:49-74 | the point list is empty exactly when no item yields a point |
| PlotterConfigs.ItemPointWellFormed | src/main/kotlin/com/serialmonitor/plotter/data/PlotterConfig.kt:49-66 | an item's point has a non-empty name that contains neither separator |
| PlotterConfigs.ParsedLineWellFormed | src/main/kotlin/com/serialmonitor/plotter/data/PlotterConfig.kt:47-74 | a parsed line carries the given timestamp, between one point and one point per item, the item points in item order, each with a non-empty separator-free name |
| PlotterConfigs.ParseIgnoresSizes | src/main/kotlin/com/serialmonitor/plotter/data/PlotterConfig.kt:47-51 | parsing depends only on the two separators, never on windowSize or maxCache |
| PlotterConfigs.ParseDataLines | src/main/kotlin/com/serialmonitor/plotter/data/PlotterConfig.kt:86-89 | parseData yields no more lines than the chunk has; each is the parse of one chunk line, and every chunk line that parses is included |
| PlotterConfigs.ParseData | src/main/kotlin/com/serialmonitor/plotter/data/PlotterConfig.kt:86-89 | every line parseData returns carries the given timestamp and at least one point |
| PlotterConfigs.ParseDataTrailingNewline | src/main/kotlin/com/serialmonitor/plotter/data/PlotterConfig.kt:86-89 | a chunk ending in "\n" parses to the same lines as without it |
| LegacyParser.ParseLine | src/main/kotlin/com/serialmonitor/plotter/data/PlotterData.kt:41-72 | SerialDataParser.parseLine is modelled as the configurable parser under the default configuration (both number parses are `num`); its points have non-empty names without ',' or ':' |
| LegacyParser.PairItem | src/main/kotlin/com/serialmonitor/plotter/data/PlotterData.kt:53-60 | an item "name:value" yields the point (name, value) when the value parses, and nothing otherwise |
| LegacyParser.ExtraSeparatorSkipped | src/main/kotlin/com/serialmonitor/plotter/data/PlotterData.kt:53-54 | an item with two name separators ("a:1:2") yields no point |
| LegacyParser.EmptyNameSkipped | src/main/kotlin/com/serialmonitor/plotter/data/PlotterData.kt:53-58 | an item with an empty name (":5") yields no point |
| LegacyParser.NoSeparatorSkipped | src/main/kotlin/com/serialmonitor/plotter/data/PlotterData.kt:53-54 | an item without the name separator ("bad") yields no point |
| LegacyParser.EmptyValueSkipped | src/main/kotlin/com/serialmonitor/plotter/data/PlotterData.kt:53-58 | an item with an empty value ("a:") yields no point, since the empty text is no number |
| DataManager.ValueOrZero | src/main/kotlin/com/serialmonitor/plotter/data/PlotterData.kt:131 | a series' new sample is the line's value for its name, or 0.0 when the line lacks the name |
| DataManager.Registered | src/main/kotlin/com/serialmonitor/plotter/data/PlotterData.kt:120-124 | registration adds the line's names; known series are unchanged and new ones start empty |
| DataManager.Extended | src/main/kotlin/com/serialmonitor/plotter/data/PlotterData.kt:130-133 | every series grows by exactly one sample, its ValueOrZero, and keeps its earlier samples |
| DataManager.Excess | src/main/kotlin/com/serialmonitor/plotter/data/PlotterData.kt:144 | the trim loop runs until min(count, maxCache) samples remain |
| DataManager.Evict | src/main/kotlin/com/serialmonitor/plotter/data/PlotterData.kt:144-150 | k removals at index 0 leave the newest values, as many as there were less min(k, length) |
| DataManager.DropHead | src/main/kotlin/com/serialmonitor/plotter/data/PlotterData.kt:147-149 | removeAt(0) on a non-empty list drops its first value; an empty list stays empty |
| DataManager.Evicted | src/main/kotlin/com/serialmonitor/plotter/data/PlotterData.kt:146-150 | eviction keeps every series name |
| DataManager.Trimmed | src/main/kotlin/com/serialmonitor/plotter/data/PlotterData.kt:142-152 | after trimming, the timeline is the newest min(count, maxCache) timestamps in arrival order; the log and the names are kept |
| DataManager.Grown | src/main/kotlin/com/serialmonitor/plotter/data/PlotterData.kt:116-133 | before trimming, the log and the timeline grow by one, the names gain the line's, and every series gains one sample, a new series starting from empty |
| DataManager.LineNamesAppend | src/main/kotlin/com/serialmonitor/plotter/data/PlotterData.kt:117-124 | the names of a log with one more line are the old names plus the line's |
| DataManager.TrimmedWellFormed | src/main/kotlin/com/serialmonitor/plotter/data/PlotterData.kt:142-152 | trimming establishes the store invariant |
| DataManager.AddLineWellFormed | src/main/kotlin/com/serialmonitor/plotter/data/PlotterData.kt:116-137 | adding a line preserves the store invariant |
| DataManager.AddLinesWellFormed | src/main/kotlin/com/serialmonitor/plotter/data/PlotterData.kt:157-162 | adding any sequence of lines preserves the store invariant |
| DataManager.GrownKeepsGap | src/main/kotlin/com/serialmonitor/plotter/data/PlotterData.kt:120-133 | adding a line keeps each existing series' gap to the timeline, and a new series holds only the new sample |
| DataManager.EvictionKeepsGap | src/main/kotlin/com/serialmonitor/plotter/data/PlotterData.kt:144-150 | trimming keeps a series' gap to the timeline while the series has samples to lose |
| DataManager.EvictStep | src/main/kotlin/com/serialmonitor/plotter/data/PlotterData.kt:144-150 | one more removal at index 0 is one more eviction step |
| DataManager.PlotterDataManager.constructor | src/main/kotlin/com/serialmonitor/plotter/data/PlotterData.kt:91-97 | a new manager is empty and has the default configuration |
| DataManager.PlotterDataManager.GetDataPointCount | src/main/kotlin/com/serialmonitor/plotter/data/PlotterData.kt:111 | the sample count never exceeds maxCache |
| DataManager.PlotterDataManager.GetTimePoints | src/main/kotlin/com/serialmonitor/plotter/data/PlotterData.kt:186 | as many timestamps as samples |
| DataManager.PlotterDataManager.GetSeries | src/main/kotlin/com/serialmonitor/plotter/data/PlotterData.kt:181 | null exactly for a name never logged; otherwise no longer than the timeline |
| DataManager.PlotterDataManager.GetSeriesNames | src/main/kotlin/com/serialmonitor/plotter/data/PlotterData.kt:176 | exactly the names ever logged, strictly ascending |
| DataManager.PlotterDataManager.UpdateConfig | src/main/kotlin/com/serialmonitor/plotter/data/PlotterData.kt:102-106 | the new configuration is taken and the store is trimmed to its maxCache |
| DataManager.PlotterDataManager.TrimToMaxCache | src/main/kotlin/com/serialmonitor/plotter/data/PlotterData.kt:142-152 | the loop leaves the store as Trimmed describes |
| DataManager.EvictedStep | src/main/kotlin/com/serialmonitor/plotter/data/PlotterData.kt:146-150 | one more pass of dropping every series' oldest value is one more eviction |
| DataManager.TrimLoopExit | src/main/kotlin/com/serialmonitor/plotter/data/PlotterData.kt:142-152 | when the loop stops, the timeline is cut to the cache and the store is the trimmed one |
| DataManager.PlotterDataManager.DropOldestValues | src/main/kotlin/com/serialmonitor/plotter/data/PlotterData.kt:146-150 | every series loses its first value when it has one; nothing else changes |
| DataManager.PlotterDataManager.AddDataLine | src/main/kotlin/com/serialmonitor/plotter/data/PlotterData.kt:116-137 | the store becomes AddLine of the old one, that is, Grown and then Trimmed, keeping the invariant |
| DataManager.PlotterDataManager.RegisterNames | src/main/kotlin/com/serialmonitor/plotter/data/PlotterData.kt:120-124 | the loop registers exactly the line's new names with empty lists |
| DataManager.PlotterDataManager.AppendValues | src/main/kotlin/com/serialmonitor/plotter/data/PlotterData.kt:130-133 | the loop appends to every series its ValueOrZero |
| DataManager.PlotterDataManager.AddSerialData | src/main/kotlin/com/serialmonitor/plotter/data/PlotterData.kt:157-162 | the chunk's parsed lines are added one after another in order |
| DataManager.PlotterDataManager.Clear | src/main/kotlin/com/serialmonitor/plotter/data/PlotterData.kt:167-171 | the store is empty: count 0, no names; the configuration stays |
| PlotterPanel.DoubleToInt | src/main/kotlin/com/serialmonitor/plotter/ui/SerialPlotterPanel.kt:118 | Double.toInt truncates toward zero and saturates at the Int bounds |
| PlotterPanel.DoubleToIntWhole | src/main/kotlin/com/serialmonitor/plotter/ui/SerialPlotterPanel.kt:118 | a whole number within the Int range converts to itself |
| PlotterPanel.Coerce | src/main/kotlin/com/serialmonitor/plotter/ui/SerialPlotterPanel.kt:108 | coerceIn lands inside the bounds and keeps a value already inside |
| PlotterPanel.FollowWindow | src/main/kotlin/com/serialmonitor/plotter/ui/SerialPlotterPanel.kt:239-248 | the auto-scroll window is windowSize wide and ends at max(count, windowSize) |
| PlotterPanel.Clamped | src/main/kotlin/com/serialmonitor/plotter/ui/SerialPlotterPanel.kt:250-257 | with data, a clamped manual window satisfies 0 <= min, min + 1 <= max <= count |
| PlotterPanel.ClampedKeepsInBounds | src/main/kotlin/com/serialmonitor/plotter/ui/SerialPlotterPanel.kt:250-257 | a window already within the data is not moved |
| PlotterPanel.ClampedIdempotent | src/main/kotlin/com/serialmonitor/plotter/ui/SerialPlotterPanel.kt:250-257 | clamping twice is clamping once |
| PlotterPanel.ClampedNarrows | src/main/kotlin/com/serialmonitor/plotter/ui/SerialPlotterPanel.kt:250-257 | clamping never widens a window beyond max(width, 1) |
| PlotterPanel.RefreshedNarrows | src/main/kotlin/com/serialmonitor/plotter/ui/SerialPlotterPanel.kt:250-257 | in manual mode a redraw never widens the x window beyond a bound of at least 1 it already met |
| PlotterPanel.ZoomFactor | src/main/kotlin/com/serialmonitor/plotter/ui/SerialPlotterPanel.kt:108 | the zoom factor lies in [0.2, 5.0], below 1 when zooming in and above 1 when zooming out |
| PlotterPanel.ZoomBase | src/main/kotlin/com/serialmonitor/plotter/ui/SerialPlotterPanel.kt:110 | the zoom's base width is at least 1 |
| PlotterPanel.ZoomWidth | src/main/kotlin/com/serialmonitor/plotter/ui/SerialPlotterPanel.kt:112 | the new width is base × factor unless that is below 10, when it is 10; so it is at least 10, no wider than before when zooming in and no narrower when zooming out |
| PlotterPanel.Zoomed | src/main/kotlin/com/serialmonitor/plotter/ui/SerialPlotterPanel.kt:110-115 | the zoomed window has the new width and the old centre min + base/2 |
| PlotterPanel.ZoomUnclamped | src/main/kotlin/com/serialmonitor/plotter/ui/SerialPlotterPanel.kt:108-115 | when no bound applies (width at least 1, factor within [0.2, 5], result at least 10) the zoomed window is (max - min)·(1 + 0.12·delta) wide around the old centre |
| PlotterPanel.SeqMin | src/main/kotlin/com/serialmonitor/plotter/ui/SerialPlotterPanel.kt:280 | the minimum is one of the values and below all of them |
| PlotterPanel.SeqMax | src/main/kotlin/com/serialmonitor/plotter/ui/SerialPlotterPanel.kt:281 | the maximum is one of the values and above all of them |
| PlotterPanel.AllValues | src/main/kotlin/com/serialmonitor/plotter/ui/SerialPlotterPanel.kt:275-277 | the flattened values are exactly the values of the listed series, hidden ones included |
| PlotterPanel.YRange | src/main/kotlin/com/serialmonitor/plotter/ui/SerialPlotterPanel.kt:279-286 | with values, the Y range is the spread widened by 20%, centred on the midpoint of min and max (10% on each side), so it covers every value; with no values it is unchanged |
| PlotterPanel.Plotted | src/main/kotlin/com/serialmonitor/plotter/ui/SerialPlotterPanel.kt:261-272 | at most one drawn series per name; a visible name without a series is skipped |
| PlotterPanel.PlottedVisible | src/main/kotlin/com/serialmonitor/plotter/ui/SerialPlotterPanel.kt:261-272 | exactly the visible names that have a series are drawn, each with its own values and colour index = position in the sorted names mod 10 |
| PlotterPanel.PlottedStep | src/main/kotlin/com/serialmonitor/plotter/ui/SerialPlotterPanel.kt:261-272 | one more name adds its series, with its values, at the end when visible and present |
| PlotterPanel.ColourIgnoresHidden | src/main/kotlin/com/serialmonitor/plotter/ui/SerialPlotterPanel.kt:261-265 | a series keeps its colour whatever else is hidden |
| PlotterPanel.Refreshed | src/main/kotlin/com/serialmonitor/plotter/ui/SerialPlotterPanel.kt:232-286 | with no data the viewport is untouched; otherwise the x window follows or is clamped and the Y range is YRange of all values, hidden series included |
| PlotterPanel.RefreshedIdempotent | src/main/kotlin/com/serialmonitor/plotter/ui/SerialPlotterPanel.kt:232-286 | a second redraw from the result of a first changes nothing (the Reset button redraws twice) |
| PlotterPanel.FollowExample | src/main/kotlin/com/serialmonitor/plotter/ui/SerialPlotterPanel.kt:239-248 | window 20 over 25 samples is [5, 25]; over 12 samples it is [0, 20] |
| PlotterPanel.ZoomExample | src/main/kotlin/com/serialmonitor/plotter/ui/SerialPlotterPanel.kt:104-120 | one notch in on [0, 200] gives [12, 188] and window size 176 |
| PlotterPanel.SerialPlotterPanel.constructor | src/main/kotlin/com/serialmonitor/plotter/ui/SerialPlotterPanel.kt:47-69 | a new panel: empty store, default configuration, window [0, 20], auto-scroll on, nothing hidden |
| PlotterPanel.SerialPlotterPanel.UpdateChart | src/main/kotlin/com/serialmonitor/plotter/ui/SerialPlotterPanel.kt:218-299 | the viewport and the drawn series become Refreshed and Plotted of the data; the viewport callback fires exactly when there is data |
| PlotterPanel.SerialPlotterPanel.AdjustXWindow | src/main/kotlin/com/serialmonitor/plotter/ui/SerialPlotterPanel.kt:238-258 | the x window follows under auto-scroll and is clamped otherwise |
| PlotterPanel.SerialPlotterPanel.PlotVisibleSeries | src/main/kotlin/com/serialmonitor/plotter/ui/SerialPlotterPanel.kt:261-272 | the colour loop, fetching each visible series with getSeries, draws the Plotted series |
| PlotterPanel.SerialPlotterPanel.AdjustYRange | src/main/kotlin/com/serialmonitor/plotter/ui/SerialPlotterPanel.kt:275-286 | the Y range becomes YRange of all values |
| PlotterPanel.SerialPlotterPanel.IsSeriesVisible | src/main/kotlin/com/serialmonitor/plotter/ui/SerialPlotterPanel.kt:321-323 | visible exactly when not hidden |
| PlotterPanel.SerialPlotterPanel.SetSeriesVisible | src/main/kotlin/com/serialmonitor/plotter/ui/SerialPlotterPanel.kt:309-316 | the name's visibility becomes the requested one, every other name's is unchanged, and the chart is redrawn |
| PlotterPanel.SerialPlotterPanel.SetXAxisWindow | src/main/kotlin/com/serialmonitor/plotter/ui/SerialPlotterPanel.kt:328-334 | auto-scroll off, windowSize = max(trunc(max - min), 10), the chart redrawn from [min, max] |
| PlotterPanel.SerialPlotterPanel.SetAutoScrollEnabled | src/main/kotlin/com/serialmonitor/plotter/ui/SerialPlotterPanel.kt:339-342 | auto-scroll takes the given value and the chart is redrawn |
| PlotterPanel.SerialPlotterPanel.SetWindowSize | src/main/kotlin/com/serialmonitor/plotter/ui/SerialPlotterPanel.kt:349-351 | the window size becomes max(size, 10), and nothing else changes |
| PlotterPanel.SerialPlotterPanel.OnMouseWheel | src/main/kotlin/com/serialmonitor/plotter/ui/SerialPlotterPanel.kt:102-122 | no rotation changes nothing; otherwise the zoomed window is shown, auto-scroll is off and the window size is the truncated new width, at least 10 |
| PlotterPanel.SerialPlotterPanel.AddSerialData | src/main/kotlin/com/serialmonitor/plotter/ui/SerialPlotterPanel.kt:210-213 | the chunk's lines are added to the store, then the chart is redrawn |
| PlotterPanel.SerialPlotterPanel.ClearData | src/main/kotlin/com/serialmonitor/plotter/ui/SerialPlotterPanel.kt:371-387 | the store and the hidden set are emptied, auto-scroll is on and the window is [0, windowSize], without a redraw |
| PlotterPanel.SerialPlotterPanel.ResetView | src/main/kotlin/com/serialmonitor/plotter/ui/SerialPlotterPanel.kt:392-397 | auto-scroll on, the window [0, windowSize] with windowSize unchanged, then a redraw |
| PlotterPanel.SerialPlotterPanel.UpdateConfig | src/main/kotlin/com/serialmonitor/plotter/ui/SerialPlotterPanel.kt:402-410 | the store is trimmed to the new cache size, the window size becomes max(cfg.windowSize, 10), and under auto-scroll the window is [0, windowSize] before the redraw |
| PlotterMainPanel.ScrollWindow | src/main/kotlin/com/serialmonitor/plotter/ui/SerialPlotterMainPanel.kt:101 | the extent is at least 1 and is the window width truncated |
| PlotterMainPanel.FollowExtent | src/main/kotlin/com/serialmonitor/plotter/ui/SerialPlotterMainPanel.kt:101 | while following, the bar's extent equals the window size when that fits an Int |
| PlotterMainPanel.ScrollWindowAtMost | src/main/kotlin/com/serialmonitor/plotter/ui/SerialPlotterMainPanel.kt:101 | a window no wider than n (n at least 1) gives an extent of at most n |
| PlotterMainPanel.ScrollMax | src/main/kotlin/com/serialmonitor/plotter/ui/SerialPlotterMainPanel.kt:102 | the last start position is at least 0; it is positive exactly when the samples do not fit, and then max + window == count |
| PlotterMainPanel.ShownExtent | src/main/kotlin/com/serialmonitor/plotter/ui/SerialPlotterMainPanel.kt:94-102 | a manual window of width w gives an extent of at most w after the redraw, and exactly w when it lies within the data |
| PlotterMainPanel.CoerceInt | src/main/kotlin/com/serialmonitor/plotter/ui/SerialPlotterMainPanel.kt:112 | Int.coerceIn lands inside the bounds and keeps a value already inside |
| PlotterMainPanel.ScrollValue | src/main/kotlin/com/serialmonitor/plotter/ui/SerialPlotterMainPanel.kt:109-113 | the value is in [0, max]: max under auto-scroll, the previous value when it is in range and manual |
| PlotterMainPanel.ScrollValueIdempotent | src/main/kotlin/com/serialmonitor/plotter/ui/SerialPlotterMainPanel.kt:109-113 | bringing the bar in step twice is bringing it in step once |
| PlotterMainPanel.Accepted | src/main/kotlin/com/serialmonitor/plotter/ui/SerialPlotterMainPanel.kt:197-205 | the chunks the throttle hands on arrive more than 100 ms after the previous forward and after each other, and a first arrival more than 100 ms after `last` is handed on |
| PlotterMainPanel.LastForward | src/main/kotlin/com/serialmonitor/plotter/ui/SerialPlotterMainPanel.kt:197-205 | the clock after a run of arrivals is the latest forwarded arrival, or the starting clock when none was forwarded |
| PlotterMainPanel.AcceptedSnoc | src/main/kotlin/com/serialmonitor/plotter/ui/SerialPlotterMainPanel.kt:197-205 | a new arrival is handed on exactly when it comes more than 100 ms after the latest forward before it, and is dropped otherwise |
| PlotterMainPanel.SerialPlotterMainPanel.constructor | src/main/kotlin/com/serialmonitor/plotter/ui/SerialPlotterMainPanel.kt:16-65 | a new tab: a fresh plotter, the clock at 0, scroll value and maximum 0, extent = window size |
| PlotterMainPanel.SerialPlotterMainPanel.UpdateScrollBar | src/main/kotlin/com/serialmonitor/plotter/ui/SerialPlotterMainPanel.kt:98-119 | extent, maximum, visibility and value from the plotter (BarInStep); under auto-scroll the bar is at its right end; the plotter is untouched and the flag is down afterwards |
| PlotterMainPanel.SerialPlotterMainPanel.OnAdjustment | src/main/kotlin/com/serialmonitor/plotter/ui/SerialPlotterMainPanel.kt:75-95 | the bar takes the event's value; events while adjusting or while the flag is up change nothing else; a handled event ends with auto-scroll off and the window [start, start + windowSize], clamped to the data; the bar stays where it was put (given an old X window no wider than the window size), except that a move to within one step of the right end snaps it to the end |
| PlotterMainPanel.SerialPlotterMainPanel.ScrollTo | src/main/kotlin/com/serialmonitor/plotter/ui/SerialPlotterMainPanel.kt:81-94 | the handled branch: auto-scroll off, the window size kept when it fits an Int, the window at the scroll value; the bar keeps a value left of max - 1 and snaps to max from max - 1 or max |
| PlotterMainPanel.SerialPlotterMainPanel.FollowScrollPosition | src/main/kotlin/com/serialmonitor/plotter/ui/SerialPlotterMainPanel.kt:81-92 | auto-scroll is on exactly when the bar is within one step of its right end and the samples do not fit; the bar is then at max, and otherwise a value within the data stays |
| PlotterMainPanel.SerialPlotterMainPanel.SetPlotterAutoScroll | src/main/kotlin/com/serialmonitor/plotter/ui/SerialPlotterMainPanel.kt:59 | setAutoScrollEnabled with the viewport listener: auto-scroll takes the value and the chart is redrawn from it; switched on with samples beyond one window the bar goes to max; switched off it keeps a value within the data |
| PlotterMainPanel.SerialPlotterMainPanel.ShowScrollWindow | src/main/kotlin/com/serialmonitor/plotter/ui/SerialPlotterMainPanel.kt:94 | the requested window is shown in manual mode, clamped to the data when there is any; a bar value within the data is kept, and with the window inside the data the bar is coerced into [0, count - window] |
| PlotterMainPanel.SerialPlotterMainPanel.OnDataReceived | src/main/kotlin/com/serialmonitor/plotter/ui/SerialPlotterMainPanel.kt:197-205 | a chunk more than 100 ms after the last forward is added, the chart is redrawn, the bar is in step with the new chart and the clock moves to now; any other chunk changes nothing: store, viewport, drawn and hidden series, the bar and the flag stay |
| PlotterMainPanel.SerialPlotterMainPanel.ForwardChunk | src/main/kotlin/com/serialmonitor/plotter/ui/SerialPlotterMainPanel.kt:199-203 | the chunk's lines are added, the chart is redrawn and the bar ends in step with it, as after one updateScrollBar |
| PlotterMainPanel.SerialPlotterMainPanel.OnConnectionStatusChanged | src/main/kotlin/com/serialmonitor/plotter/ui/SerialPlotterMainPanel.kt:210-236 | CONNECTED clears the plotter; the other states leave store and viewport unchanged |
| PlotterMainPanel.SerialPlotterMainPanel.ClearButton | src/main/kotlin/com/serialmonitor/plotter/ui/SerialPlotterMainPanel.kt:129-135 | the store and the hidden set are empty, nothing is drawn, auto-scroll is on with the window [0, windowSize] and the size kept, and the bar is in step: hidden at value 0 |
| PlotterMainPanel.SerialPlotterMainPanel.ResetButton | src/main/kotlin/com/serialmonitor/plotter/ui/SerialPlotterMainPanel.kt:161-167 | auto-scroll ends on, the window size and hidden set are kept, the chart is one redraw of [0, windowSize] under auto-scroll, and the bar is in step at its right end |
| PlotterMainPanel.SerialPlotterMainPanel.ApplySettings | src/main/kotlin/com/serialmonitor/plotter/ui/SerialPlotterMainPanel.kt:183-192 | the plotter takes the new configuration: the store is trimmed to the new cache size, the window size is the new one, under auto-scroll the window restarts at [0, windowSize], the chart is redrawn, and the bar is brought in step when there is data and left alone otherwise |
| OutputPanel.KeepMatching | src/main/kotlin/com/serialmonitor/ui/SerialOutputPanel.kt:207 | a line is kept exactly when it contains the filter ignoring case |
| OutputPanel.KeepAllMatching | src/main/kotlin/com/serialmonitor/ui/SerialOutputPanel.kt:207 | filtering lines that all match keeps them all, in order |
| OutputPanel.FilterLines | src/main/kotlin/com/serialmonitor/ui/SerialOutputPanel.kt:196-209 | an empty filter returns the text unchanged |
| OutputPanel.EmptyLineNeverMatches | src/main/kotlin/com/serialmonitor/ui/SerialOutputPanel.kt:207 | a non-empty filter never matches an empty line |
| OutputPanel.FilteredLines | src/main/kotlin/com/serialmonitor/ui/SerialOutputPanel.kt:200-209 | the lines of the filtered text are exactly the matching lines of the original, in order |
| OutputPanel.FilterIdempotent | src/main/kotlin/com/serialmonitor/ui/SerialOutputPanel.kt:196-209 | filtering twice with the same filter is filtering once |
| OutputPanel.StatusMessage | src/main/kotlin/com/serialmonitor/ui/SerialOutputPanel.kt:237-242 | each state's message is one "=== ... ===" line |
| OutputPanel.ErrorMessage | src/main/kotlin/com/serialmonitor/ui/SerialOutputPanel.kt:261 | the error line is "ERROR: ", the message, and a newline |
| OutputPanel.SerialOutputPanel.constructor | src/main/kotlin/com/serialmonitor/ui/SerialOutputPanel.kt:33-34 | an empty log with no filter |
| OutputPanel.SerialOutputPanel.GetText | src/main/kotlin/com/serialmonitor/ui/SerialOutputPanel.kt:278 | the displayed text is the whole buffer without a filter and its matching lines under one |
| OutputPanel.SerialOutputPanel.ClearOutput | src/main/kotlin/com/serialmonitor/ui/SerialOutputPanel.kt:167-170 | buffer and display are emptied; the filter stays |
| OutputPanel.SerialOutputPanel.ApplyFilter | src/main/kotlin/com/serialmonitor/ui/SerialOutputPanel.kt:175-191 | the display becomes the buffer through the filter; the buffer is not touched |
| OutputPanel.SerialOutputPanel.SetFilter | src/main/kotlin/com/serialmonitor/ui/SerialOutputPanel.kt:73-80 | the filter text is set and the display follows it; the buffer is not touched |
| OutputPanel.SerialOutputPanel.ClearFilter | src/main/kotlin/com/serialmonitor/ui/SerialOutputPanel.kt:83-91 | no filter, and the display is the whole buffer |
| OutputPanel.SerialOutputPanel.Log | src/main/kotlin/com/serialmonitor/ui/SerialOutputPanel.kt:216-233 | the text is appended to the buffer; the display appends it without a filter and re-filters under one |
| OutputPanel.SerialOutputPanel.OnDataReceived | src/main/kotlin/com/serialmonitor/ui/SerialOutputPanel.kt:216-233 | the buffer grows by the chunk and the display shows the buffer through the filter |
| OutputPanel.SerialOutputPanel.OnConnectionStatusChanged | src/main/kotlin/com/serialmonitor/ui/SerialOutputPanel.kt:235-257 | the buffer grows by the state's message and the display shows the buffer through the filter |
| OutputPanel.SerialOutputPanel.OnError | src/main/kotlin/com/serialmonitor/ui/SerialOutputPanel.kt:259-276 | the buffer grows by the error line and the display shows the buffer through the filter |

## Left out

- Number parsing: `String.toDouble` / `toDoubleOrNull` are the parameter `num`. Its grammar is not modelled; it accepts `NaN`, `Infinity` and hex forms. IEEE-754 arithmetic is exact `real` arithmetic, and nothing is claimed about finiteness.
- Case-insensitive matching uses ASCII upper and lower case only. Kotlin's full Unicode case mapping is not modelled.
- String order is the lexicographic order on characters. Kotlin compares UTF-16 code units; the two differ only outside the Basic Multilingual Plane.
- Counts and timestamps are unbounded integers. `Int` / `Long` overflow of the sample count, of `start + window` and of `now - lastDataUpdateTime` is not modelled. `Double.toInt` truncation and saturation are modelled.
- Swing's scroll-bar model is not modelled. Setting `maximum` or `visibleAmount` outside the flag fires adjustment events of its own, and those nested events are not part of this model. The bar is four fields written directly.
- The regex filter mode, its error text for an invalid pattern, the Normal/Regex combo box and the "Live" checkbox are left out. The live filter is the same `SetFilter` step as the Apply button.
- The legend panel, the pause button, dialogs (settings, copy, errors), the click popup, drag panning, chart rendering, colours as RGB values, caret scrolling and `repaint` are left out. Drag panning is never registered as a motion listener.
- The serial port, port discovery, listener fan-out, threads and `SwingUtilities.invokeLater` are left out. Every handler runs atomically. The clock is the parameter `now`, which also stands for the timestamp `System.currentTimeMillis()` that each parsed line receives.
- DataManager.PlotterDataManager.UpdateConfig: requires `maxCache >= 0`, because with a negative cache the source's trim loop calls `removeAt(0)` on an empty list and throws.
- PlotterMainPanel.SerialPlotterMainPanel.ApplySettings: requires a configuration that passes `Validate`, which is what the settings dialog lets through.
- PlotterMainPanel.SerialPlotterMainPanel.OnAdjustment: states the bar's final value only for a move to `max - 1` or `max`, where it snaps to `max`, and for a move left of `max - 1` when the old X window was no wider than the window size. A window made wider by `setWindowSize` in manual mode can make the intermediate `updateScrollBar` clamp the bar, and that case is not stated. The extent, maximum and visibility written by the nested `updateScrollBar` calls are not stated either.
- PlotterMainPanel.SerialPlotterMainPanel.OnConnectionStatusChanged: states only the plotter's data; the pause-button changes and `portManager.resume()` are UI and port plumbing.
- OutputPanel.StatusMessage: its contract states the shape of the four messages; the exact texts are in its body.
