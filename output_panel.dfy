/**
 * SerialOutputPanel.kt: the text log. Everything received is kept in a
 * buffer; the display shows the whole buffer, or, under a text filter, only
 * the buffer's lines that contain the filter ignoring case.
 */
module OutputPanel {
  import opened Optional
  import opened Text
  import opened Models

  /** The lines that contain `filter` ignoring case, in their original order. */
  function KeepMatching(lines: seq<string>, filter: string): (r: seq<string>)
    ensures |r| <= |lines|
    ensures forall l :: l in r ==> l in lines && ContainsIgnoreCase(l, filter)
    ensures forall l :: l in lines && ContainsIgnoreCase(l, filter) ==> l in r
  {
    if lines == [] then []
    else
      var rest := KeepMatching(lines[1..], filter);
      assert forall l :: l in lines ==> l == lines[0] || l in lines[1..];
      if ContainsIgnoreCase(lines[0], filter) then [lines[0]] + rest else rest
  }

  /** Keeping the matching lines of lines that all match keeps them all. */
  lemma {:induction false} KeepAllMatching(lines: seq<string>, filter: string)
    requires forall l :: l in lines ==> ContainsIgnoreCase(l, filter)
    ensures KeepMatching(lines, filter) == lines
  {
    if lines != [] {
      assert lines[0] in lines;
      assert forall l :: l in lines[1..] ==> l in lines;
      KeepAllMatching(lines[1..], filter);
      assert [lines[0]] + lines[1..] == lines;
    }
  }

  /** filterLines in text mode: no filter shows the text unchanged, otherwise the matching lines joined by newlines. */
  function FilterLines(text: string, filter: string): (r: string)
    ensures filter == [] ==> r == text
  {
    if filter == [] then text
    else Join(KeepMatching(Split(text, "\n"), filter), "\n")
  }

  /** A non-empty filter never matches the empty line. */
  lemma EmptyLineNeverMatches(filter: string)
    requires filter != []
    ensures !ContainsIgnoreCase("", filter)
  {
    forall i | 0 <= i <= 0
      ensures !StartsWithIgnoreCase(""[i..], filter)
    {
    }
  }

  /**
   * The lines of a filtered text are exactly the matching lines of the
   * original, in order (a single empty line when nothing matches).
   */
  lemma FilteredLines(text: string, filter: string)
    requires filter != []
    ensures var kept := KeepMatching(Split(text, "\n"), filter);
      Split(FilterLines(text, filter), "\n") == if kept == [] then [""] else kept
  {
    var kept := KeepMatching(Split(text, "\n"), filter);
    if kept == [] {
      assert FilterLines(text, filter) == "";
      assert IndexOf("", "\n") == None;
    } else {
      SplitPiecesAvoidDelimiter(text, "\n");
      forall p | p in kept
        ensures '\n' !in p
      {
        ContainsChar(p, '\n');
      }
      SplitJoin(kept, '\n');
    }
  }

  /** Filtering an already filtered text with the same filter changes nothing. */
  lemma FilterIdempotent(text: string, filter: string)
    ensures FilterLines(FilterLines(text, filter), filter) == FilterLines(text, filter)
  {
    if filter != [] {
      var kept := KeepMatching(Split(text, "\n"), filter);
      FilteredLines(text, filter);
      if kept == [] {
        EmptyLineNeverMatches(filter);
        assert KeepMatching([""], filter) == [];
      } else {
        KeepAllMatching(kept, filter);
      }
    }
  }

  /** The line logged for a connection state. */
  function StatusMessage(state: SerialPortState): (m: string)
    ensures |m| >= 9 && m[..4] == "=== " && m[|m| - 5..] == " ===\n"
  {
    match state
    case Connected => "=== Serial Port Connected ===\n"
    case Disconnected => "=== Serial Port Disconnected ===\n"
    case Connecting => "=== Connecting... ===\n"
    case Error => "=== Error ===\n"
  }

  /** The line logged for an error report: the message after "ERROR: ", ended by a newline. */
  function ErrorMessage(message: string): (m: string)
    ensures |m| == |message| + 8
    ensures m[..7] == "ERROR: " && m[7..|m| - 1] == message && m[|m| - 1] == '\n'
  {
    "ERROR: " + message + "\n"
  }

  /**
   * SerialOutputPanel: the buffer of everything received, the current
   * filter text and the text on display.
   */
  class SerialOutputPanel {
    var received: string
    var filterText: string
    var display: string

    /** The display always shows the buffer through the current filter. */
    predicate Valid()
      reads this
    {
      display == FilterLines(received, filterText)
    }

    /** An empty log with no filter. */
    constructor()
      ensures Valid() && received == "" && filterText == "" && display == ""
    {
      received := "";
      filterText := "";
      display := "";
    }

    /** getText. */
    function GetText(): (text: string)
      reads this
      requires Valid()
      ensures filterText == [] ==> text == received
      ensures filterText != [] ==> text == Join(KeepMatching(Split(received, "\n"), filterText), "\n")
    {
      display
    }

    /** clearOutput: both the display and the buffer become empty; the filter stays. */
    method ClearOutput()
      requires Valid()
      modifies this
      ensures Valid() && received == "" && display == "" && filterText == old(filterText)
    {
      display := "";
      received := "";
      if filterText != [] {
        assert IndexOf("", "\n") == None;
        EmptyLineNeverMatches(filterText);
        assert KeepMatching([""], filterText) == [];
      }
    }

    /** applyFilter: the display becomes the whole buffer, or its lines matching `filter`. */
    method ApplyFilter(filter: string)
      modifies this
      ensures received == old(received) && filterText == old(filterText)
      ensures display == FilterLines(received, filter)
    {
      if filter == [] {
        display := received;
      } else {
        display := FilterLines(received, filter);
      }
    }

    /** The Apply button, the Enter key and the live filter: the field's text becomes the filter and is applied. */
    method SetFilter(text: string)
      requires Valid()
      modifies this
      ensures Valid() && filterText == text && received == old(received)
    {
      filterText := text;
      ApplyFilter(filterText);
    }

    /** The Clear button of the filter bar: no filter, the whole buffer on display. */
    method ClearFilter()
      requires Valid()
      modifies this
      ensures Valid() && filterText == "" && received == old(received) && display == received
    {
      filterText := "";
      ApplyFilter("");
    }

    /**
     * What every listener does with its text: append it to the buffer, then
     * re-filter the whole buffer under a filter, or append it to the display
     * without one.
     */
    method Log(message: string)
      requires Valid()
      modifies this
      ensures Valid() && received == old(received) + message && filterText == old(filterText)
      ensures filterText == [] ==> display == old(display) + message
    {
      received := received + message;
      if filterText != [] {
        ApplyFilter(filterText);
      } else {
        display := display + message;
      }
    }

    /** onDataReceived: the chunk is logged as it came. */
    method OnDataReceived(data: string)
      requires Valid()
      modifies this
      ensures Valid() && received == old(received) + data && filterText == old(filterText)
    {
      Log(data);
    }

    /** onConnectionStatusChanged: the state's line is logged. */
    method OnConnectionStatusChanged(state: SerialPortState)
      requires Valid()
      modifies this
      ensures Valid() && received == old(received) + StatusMessage(state) && filterText == old(filterText)
    {
      Log(StatusMessage(state));
    }

    /** onError: the error line is logged. */
    method OnError(errorMessage: string)
      requires Valid()
      modifies this
      ensures Valid() && received == old(received) + ErrorMessage(errorMessage) && filterText == old(filterText)
    {
      Log(ErrorMessage(errorMessage));
    }
  }
}
