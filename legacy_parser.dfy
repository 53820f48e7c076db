/**
 * SerialDataParser (PlotterData.kt): the original parser, with "," between
 * items and ":" between a name and its value. It takes the same steps as the
 * configurable parser; parsing with the default configuration is parsing
 * with this one.
 */
module LegacyParser {
  import opened Optional
  import opened Text
  import opened DataLines
  import opened PlotterConfigs

  /** SerialDataParser.parseLine: parseLine of the configurable parser under the default separators. */
  method ParseLine(line: string, now: int, num: NumberParser) returns (r: Option<DataLine>)
    ensures r.Some? ==> r.value.timestamp == now && r.value.points != []
    ensures r.Some? ==> forall p :: p in r.value.points ==> p.name != [] && ',' !in p.name && ':' !in p.name
    ensures r.None? <==> ParsedLine(line, Default, now, num).None?
    ensures r == ParsedLine(line, Default, now, num)
  {
    r := PlotterConfigs.ParseLine(line, Default, now, num);
    ParsedLineWellFormed(line, Default, now, num);
    if r.Some? {
      forall p | p in r.value.points
        ensures ',' !in p.name && ':' !in p.name
      {
        ContainsChar(p.name, ',');
        ContainsChar(p.name, ':');
      }
    }
  }

  /** A text framed by non-blank characters is its own trim. */
  lemma TrimFramed(s: string)
    requires s != [] && !IsWhitespace(s[0]) && !IsWhitespace(s[|s| - 1])
    ensures Trim(s) == s
  {
    assert TrimStart(s) == s;
  }

  /** An item framed by non-blank characters, joined from separator-free parts, splits back into those parts. */
  lemma SplitFramed(item: string, parts: seq<string>, c: char)
    requires |parts| >= 1 && forall p :: p in parts ==> c !in p
    requires item == Join(parts, [c])
    requires item != [] && !IsWhitespace(item[0]) && !IsWhitespace(item[|item| - 1])
    ensures Split(Trim(item), [c]) == parts
  {
    TrimFramed(item);
    SplitJoin(parts, c);
  }

  /**
   * An item "name:value" whose name and value are non-blank at both ends
   * and free of the separator denotes the point (name, value) when the value
   * is a number, and nothing otherwise.
   */
  lemma PairItem(name: string, value: string, c: char, num: NumberParser)
    requires c !in name && c !in value && !IsWhitespace(c)
    requires name != [] && !IsWhitespace(name[0]) && !IsWhitespace(name[|name| - 1])
    requires value != [] && !IsWhitespace(value[0]) && !IsWhitespace(value[|value| - 1])
    ensures ItemPoint(name + [c] + value, [c], num)
      == if num(value).Some? then Some(DataPoint(name, num(value).value)) else None
  {
    var item := name + [c] + value;
    assert Join([name, value], [c]) == item;
    SplitFramed(item, [name, value], c);
    TrimFramed(name);
    TrimFramed(value);
  }

  /** An item with the separator twice ("a:1:2") denotes no point, whatever its parts. */
  lemma ExtraSeparatorSkipped(x: string, y: string, z: string, c: char, num: NumberParser)
    requires c !in x && c !in y && c !in z && !IsWhitespace(c)
    requires x != [] && !IsWhitespace(x[0])
    requires z != [] && !IsWhitespace(z[|z| - 1])
    ensures ItemPoint(x + [c] + y + [c] + z, [c], num) == None
  {
    var item := x + [c] + y + [c] + z;
    assert [x, y, z][1..] == [y, z];
    assert Join([y, z], [c]) == y + [c] + z;
    assert Join([x, y, z], [c]) == item;
    SplitFramed(item, [x, y, z], c);
  }

  /** An item with nothing before the separator (":5") denotes no point. */
  lemma EmptyNameSkipped(value: string, c: char, num: NumberParser)
    requires c !in value && !IsWhitespace(c)
    requires value != [] && !IsWhitespace(value[|value| - 1])
    ensures ItemPoint([c] + value, [c], num) == None
  {
    var item := [c] + value;
    assert Join(["", value], [c]) == item;
    SplitFramed(item, ["", value], c);
    assert Trim("") == "";
  }

  /** An item without the separator ("bad") denotes no point. */
  lemma NoSeparatorSkipped(item: string, c: char, num: NumberParser)
    requires c !in item
    ensures ItemPoint(item, [c], num) == None
  {
    ContainsChar(item, c);
    ContainsInTrim(item, [c]);
    ContainsChar(Trim(item), c);
    SplitJoin([Trim(item)], c);
  }

  /** An item with nothing after the separator ("a:") denotes no point, as the empty text is no number. */
  lemma EmptyValueSkipped(name: string, c: char, num: NumberParser)
    requires num("") == None
    requires c !in name && !IsWhitespace(c)
    requires name != [] && !IsWhitespace(name[0])
    ensures ItemPoint(name + [c], [c], num) == None
  {
    var item := name + [c];
    assert Join([name, ""], [c]) == item;
    SplitFramed(item, [name, ""], c);
    assert Trim("") == "";
  }
}
