/** The parsed-sample records of PlotterData.kt: DataPoint and DataLine. */
module DataLines {
  import opened Optional

  /** One named reading; the Kotlin Double is modelled as an exact real. */
  datatype DataPoint = DataPoint(name: string, value: real)

  /** The readings parsed from one input line, stamped with the parse time in milliseconds. */
  datatype DataLine = DataLine(points: seq<DataPoint>, timestamp: int)

  /**
   * Kotlin's String.toDouble / toDoubleOrNull: the number a text denotes, or
   * None where toDouble throws. Kept abstract: every parser takes one.
   */
  type NumberParser = string -> Option<real>

  /** DataLine.getValue: the value of the first point that carries `name`, None when none does. */
  function GetValue(points: seq<DataPoint>, name: string): (r: Option<real>)
    ensures r.None? <==> forall i :: 0 <= i < |points| ==> points[i].name != name
    ensures r.Some? ==> exists i :: 0 <= i < |points| && points[i].name == name && points[i].value == r.value
                                    && forall j :: 0 <= j < i ==> points[j].name != name
  {
    if points == [] then None
    else if points[0].name == name then Some(points[0].value)
    else
      var r := GetValue(points[1..], name);
      assert forall i :: 1 <= i < |points| ==> points[1..][i - 1] == points[i];
      r
  }

  /** The names carried by a list of points. */
  function PointNames(points: seq<DataPoint>): (r: set<string>)
    ensures forall n :: n in r <==> exists i :: 0 <= i < |points| && points[i].name == n
  {
    set i | 0 <= i < |points| :: points[i].name
  }

  /** The names of one more point: those before and its own. */
  lemma PointNamesStep(points: seq<DataPoint>, i: nat)
    requires i < |points|
    ensures PointNames(points[..i + 1]) == PointNames(points[..i]) + {points[i].name}
  {
    assert points[..i + 1] == points[..i] + [points[i]];
  }

  /** The names carried by any point of any of the lines. */
  function LineNames(lines: seq<DataLine>): set<string>
  {
    if lines == [] then {} else LineNames(lines[..|lines| - 1]) + PointNames(lines[|lines| - 1].points)
  }

  /** On a line that repeats a name, the first occurrence's value is the one read. */
  lemma {:induction false} GetValueFirstWins(before: seq<DataPoint>, name: string, v: real, after: seq<DataPoint>)
    requires forall i :: 0 <= i < |before| ==> before[i].name != name
    ensures GetValue(before + [DataPoint(name, v)] + after, name) == Some(v)
    decreases |before|
  {
    var ps := before + [DataPoint(name, v)] + after;
    if before != [] {
      assert ps[1..] == before[1..] + [DataPoint(name, v)] + after;
      GetValueFirstWins(before[1..], name, v, after);
    }
  }
}
