/**
 * PlotterConfig.kt: the plotter's parse configuration, its validity check and
 * the configurable line parser (PlotterDataParserV2).
 */
module PlotterConfigs {
  import opened Optional
  import opened Text
  import opened DataLines

  /** The four settings of the plotter. */
  datatype PlotterConfig = PlotterConfig(itemSeparator: string, nameSeparator: string, windowSize: int, maxCache: int)

  /** The defaults: items split on ",", name and value on ":", a 20-sample window, 2000 samples kept. */
  const Default := PlotterConfig(",", ":", 20, 2000)

  /** PlotterConfig.validate: both separators present and distinct, window at least 10, cache at least 100. */
  predicate Validate(c: PlotterConfig)
  {
    && c.itemSeparator != []
    && c.nameSeparator != []
    && c.itemSeparator != c.nameSeparator
    && c.windowSize >= 10
    && c.maxCache >= 100
  }

  lemma DefaultIsValid()
    ensures Validate(Default)
  {
  }

  /**
   * One item of a line: the point it denotes when, once trimmed, it splits on
   * the name separator into exactly two parts whose trimmed name is not empty
   * and whose trimmed value is a number.
   */
  function ItemPoint(item: string, nameSep: string, num: NumberParser): (r: Option<DataPoint>)
    ensures r.Some? ==> r.value.name != []
  {
    var parts := Split(Trim(item), nameSep);
    if |parts| == 2 then
      var name := Trim(parts[0]);
      var value := num(Trim(parts[1]));
      if value.Some? && name != [] then Some(DataPoint(name, value.value)) else None
    else None
  }

  /** ItemPoint with the separator and number parser fixed, as mapNotNull takes it. */
  function ItemParser(nameSep: string, num: NumberParser): string -> Option<DataPoint>
  {
    item => ItemPoint(item, nameSep, num)
  }

  /** The points of the items that denote one, in item order. */
  function ItemPoints(items: seq<string>, nameSep: string, num: NumberParser): seq<DataPoint>
  {
    MapNotNull(items, ItemParser(nameSep, num))
  }

  /** PlotterDataParserV2.parseLine as a value: None for a blank line or when no item denotes a point. */
  function ParsedLine(line: string, cfg: PlotterConfig, now: int, num: NumberParser): (r: Option<DataLine>)
    ensures r.Some? ==> r.value.timestamp == now && r.value.points != []
  {
    var trimmed := Trim(line);
    if trimmed == [] then None
    else
      var points := ItemPoints(Split(trimmed, cfg.itemSeparator), cfg.nameSeparator, num);
      if points == [] then None else Some(DataLine(points, now))
  }

  /**
   * PlotterDataParserV2.parseLine: trims the line, splits it into items and
   * collects, item by item, the points the items denote.
   */
  method ParseLine(line: string, cfg: PlotterConfig, now: int, num: NumberParser) returns (r: Option<DataLine>)
    ensures r == ParsedLine(line, cfg, now, num)
  {
    var trimmed := Trim(line);
    if trimmed == [] {
      return None;
    }
    var items := Split(trimmed, cfg.itemSeparator);
    var points: seq<DataPoint> := [];
    var i := 0;
    while i < |items|
      invariant 0 <= i <= |items|
      invariant points == ItemPoints(items[..i], cfg.nameSeparator, num)
    {
      // the item's point, when it denotes one, is added
      points := points + AsList(ItemPoint(items[i], cfg.nameSeparator, num));
      ItemPointsStep(items, i, cfg.nameSeparator, num);
      i := i + 1;
    }
    assert items[..i] == items;
    r := if points == [] then None else Some(DataLine(points, now));
  }

  /** The points of one more item: those before it, then the one it denotes, if any. */
  lemma ItemPointsStep(items: seq<string>, i: nat, nameSep: string, num: NumberParser)
    requires i < |items|
    ensures ItemPoints(items[..i + 1], nameSep, num) == ItemPoints(items[..i], nameSep, num) + AsList(ItemPoint(items[i], nameSep, num))
  {
    assert items[..i + 1][..i] == items[..i];
  }

  /** parseLine yields null exactly for a blank line or a line none of whose items denotes a point. */
  lemma ParsedLineNone(line: string, cfg: PlotterConfig, now: int, num: NumberParser)
    ensures ParsedLine(line, cfg, now, num).None? <==>
      || (forall i :: 0 <= i < |line| ==> IsWhitespace(line[i]))
      || ItemPoints(Split(Trim(line), cfg.itemSeparator), cfg.nameSeparator, num) == []
  {
    var trimmed := Trim(line);
    if trimmed != [] {
      assert ParsedLine(line, cfg, now, num).None? <==> ItemPoints(Split(trimmed, cfg.itemSeparator), cfg.nameSeparator, num) == [];
    }
  }

  /** No points come from a list of items exactly when no item denotes one. */
  lemma ItemPointsEmpty(items: seq<string>, nameSep: string, num: NumberParser)
    ensures ItemPoints(items, nameSep, num) == [] <==> forall i :: 0 <= i < |items| ==> ItemPoint(items[i], nameSep, num).None?
  {
    MapNotNullFrom(items, ItemParser(nameSep, num));
  }

  /** Under non-empty separators, an item's point has a non-empty name free of both separators. */
  lemma ItemPointWellFormed(item: string, cfg: PlotterConfig, num: NumberParser)
    requires cfg.itemSeparator != [] && cfg.nameSeparator != []
    requires !Contains(item, cfg.itemSeparator)
    ensures ItemPoint(item, cfg.nameSeparator, num).Some? ==>
      var p := ItemPoint(item, cfg.nameSeparator, num).value;
      p.name != [] && !Contains(p.name, cfg.itemSeparator) && !Contains(p.name, cfg.nameSeparator)
  {
    var t := Trim(item);
    var parts := Split(t, cfg.nameSeparator);
    if |parts| == 2 {
      SplitPiecesAvoidDelimiter(t, cfg.nameSeparator);
      assert parts[0] in parts;
      ContainsInTrim(parts[0], cfg.nameSeparator);
      ContainsInTrim(item, cfg.itemSeparator);
      JoinSplit(t, cfg.nameSeparator);
      assert t == parts[0] + cfg.nameSeparator + parts[1];
      ContainsInSlice(t, cfg.itemSeparator, 0, |parts[0]|);
      assert t[0..|parts[0]|] == parts[0];
      ContainsInTrim(parts[0], cfg.itemSeparator);
    }
  }

  /**
   * What a parsed line holds: the given timestamp, at least one point and no
   * more points than items, each point produced by one of the line's items,
   * in item order, with a non-empty name free of both separators.
   */
  lemma ParsedLineWellFormed(line: string, cfg: PlotterConfig, now: int, num: NumberParser)
    requires cfg.itemSeparator != [] && cfg.nameSeparator != []
    ensures ParsedLine(line, cfg, now, num).Some? ==>
      var dl := ParsedLine(line, cfg, now, num).value;
      var items := Split(Trim(line), cfg.itemSeparator);
      && dl.timestamp == now
      && 1 <= |dl.points| <= |items|
      && dl.points == ItemPoints(items, cfg.nameSeparator, num)
      && forall p :: p in dl.points ==>
           p.name != [] && !Contains(p.name, cfg.itemSeparator) && !Contains(p.name, cfg.nameSeparator)
  {
    var items := Split(Trim(line), cfg.itemSeparator);
    MapNotNullFrom(items, ItemParser(cfg.nameSeparator, num));
    SplitPiecesAvoidDelimiter(Trim(line), cfg.itemSeparator);
    forall i | 0 <= i < |items|
      ensures ItemPoint(items[i], cfg.nameSeparator, num).Some? ==>
        var p := ItemPoint(items[i], cfg.nameSeparator, num).value;
        p.name != [] && !Contains(p.name, cfg.itemSeparator) && !Contains(p.name, cfg.nameSeparator)
    {
      assert items[i] in items;
      ItemPointWellFormed(items[i], cfg, num);
    }
  }

  /** Parsing reads only the two separators of the configuration, never the window or cache sizes. */
  lemma ParseIgnoresSizes(line: string, a: PlotterConfig, b: PlotterConfig, now: int, num: NumberParser)
    requires a.itemSeparator == b.itemSeparator && a.nameSeparator == b.nameSeparator
    ensures ParsedLine(line, a, now, num) == ParsedLine(line, b, now, num)
  {
  }

  /** ParsedLine with the configuration, time and number parser fixed, as mapNotNull takes it. */
  function LineParser(cfg: PlotterConfig, now: int, num: NumberParser): string -> Option<DataLine>
  {
    line => ParsedLine(line, cfg, now, num)
  }

  /** PlotterDataParserV2.parseData: the chunk split on "\n", each line parsed, the nulls dropped. */
  function ParseData(data: string, cfg: PlotterConfig, now: int, num: NumberParser): (r: seq<DataLine>)
    ensures forall dl :: dl in r ==> dl.timestamp == now && dl.points != []
  {
    var texts := Split(data, "\n");
    var f := LineParser(cfg, now, num);
    MapNotNullFrom(texts, f);
    MapNotNull(texts, f)
  }

  /**
   * parseData keeps one data line per text line that parses, in order: no
   * more lines than the chunk has, each the parse of one of its lines, and
   * every line that parses is among them.
   */
  lemma ParseDataLines(data: string, cfg: PlotterConfig, now: int, num: NumberParser)
    ensures var texts := Split(data, "\n");
      var r := ParseData(data, cfg, now, num);
      && |r| <= |texts|
      && (forall dl :: dl in r ==> exists i :: 0 <= i < |texts| && ParsedLine(texts[i], cfg, now, num) == Some(dl))
      && (forall i :: 0 <= i < |texts| && ParsedLine(texts[i], cfg, now, num).Some? ==> ParsedLine(texts[i], cfg, now, num).value in r)
  {
    var texts := Split(data, "\n");
    var f := LineParser(cfg, now, num);
    MapNotNullFrom(texts, f);
    forall i | 0 <= i < |texts| && ParsedLine(texts[i], cfg, now, num).Some?
      ensures ParsedLine(texts[i], cfg, now, num).value in ParseData(data, cfg, now, num)
    {
      assert f(texts[i]) == ParsedLine(texts[i], cfg, now, num);
      MapNotNullKeeps(texts, f, i);
    }
  }

  /** A chunk that ends in a newline parses to the same lines as without it. */
  lemma ParseDataTrailingNewline(data: string, cfg: PlotterConfig, now: int, num: NumberParser)
    ensures ParseData(data + "\n", cfg, now, num) == ParseData(data, cfg, now, num)
  {
    SplitTrailing(data, '\n');
    MapNotNullAppend(Split(data, "\n"), [""], LineParser(cfg, now, num));
    assert MapNotNull([""], LineParser(cfg, now, num)) == [];
  }
}
