/**
 * The stand-alone mock REPL of the first sprint. It is kept in two copies, a TypeScript
 * original and its compiled JavaScript twin, which behave the same.
 *
 * The page keeps three pieces of state: a log of every submitted command, a log of
 * every output, and the last CSV loaded by `get`. Input is split on single spaces.
 * A two-token `get <name>` loads the named fixture, and a one-token `stats` reports
 * its size; everything else is an unknown command.
 *
 * `Step` and `Run` are the specification: one input's output with the next loaded
 * CSV, and the state a whole command log gives from a cleared page. The class `Repl`
 * follows the source's mutable globals and is proved to keep them equal to the replay
 * of its command log.
 */
module MockRepl {
  import opened Wrappers
  import Text
  import Json
  import MockedJson

  const UnknownCommand: string := "ERROR - Unknown command."
  const FileNotFound: string := "ERROR - File unable to be found or opened."
  const NoCsvLoaded: string := "ERROR - No CSV file loaded."

  type Csv = seq<seq<string>>

  // ---------------------------------------------------------------------------
  // getStats

  /** The row count and the length of the first row; both 0 for an empty CSV. */
  function GetStats(csv: Csv): (stats: seq<nat>)
    ensures |stats| == 2 && stats[0] == |csv|
    ensures stats[1] == 0 <==> csv == [] || csv[0] == []
    ensures |csv| > 0 ==> stats[1] == |csv[0]|
  {
    if |csv| == 0 then [0, 0] else [|csv|, |csv[0]|]
  }

  /** The text `stats` prints for a loaded CSV. */
  function StatsMessage(csv: Csv): string
  {
    var stats := GetStats(csv);
    "Rows: " + Text.NatToString(stats[0]) + ", Columns: " + Text.NatToString(stats[1])
  }

  // ---------------------------------------------------------------------------
  // csvAsString: one row per line, each row as its JSON array

  /** A row's line: a newline, a tab and the row as a JSON array of strings. */
  function RowText(row: seq<string>): string
  {
    "\n\t" + Json.StringArray(row)
  }

  /** The lines of `rows`, each followed by a comma. */
  function Separated(rows: Csv): string
  {
    if |rows| == 0 then "" else RowText(rows[0]) + "," + Separated(rows[1..])
  }

  /**
   * The printed form of a CSV: `[]` when there are no rows, otherwise `[`, each row's
   * line with a comma after all but the last, then a newline and `]`.
   */
  function CsvLayout(csv: Csv): string
  {
    if |csv| == 0 then "[]" else "[" + Separated(csv[..|csv| - 1]) + RowText(csv[|csv| - 1]) + "\n]"
  }

  /** Reads the row lines of a layout after its `[`, through the final newline and `]`. */
  function LayoutRows(s: string): Option<Csv>
    decreases |s|
  {
    if |s| < 2 || s[0] != '\n' || s[1] != '\t' then None
    else
      match Json.ArrayPrefix(s[2..])
      case None => None
      case Some(p) =>
        if p.1 == "\n]" then Some([p.0])
        else if |p.1| > 0 && p.1[0] == ',' then
          match LayoutRows(p.1[1..])
          case None => None
          case Some(rows) => Some([p.0] + rows)
        else None
  }

  /** Reads a CSV back from its printed form. */
  function ParseLayout(s: string): Option<Csv>
  {
    if s == "[]" then Some([])
    else if |s| > 0 && s[0] == '[' then LayoutRows(s[1..])
    else None
  }

  /** Appending a row to `rows` appends its line and a comma. */
  lemma {:induction false} SeparatedSnoc(rows: Csv, row: seq<string>)
    ensures Separated(rows + [row]) == Separated(rows) + RowText(row) + ","
  {
    if |rows| > 0 {
      SeparatedSnoc(rows[1..], row);
      assert (rows + [row])[1..] == rows[1..] + [row];
    } else {
      assert rows + [row] == [row];
    }
  }

  /** A row's line followed by any text: the line's array is read and the text remains. */
  lemma RowTextPrefix(row: seq<string>, tail: string)
    ensures var s := RowText(row) + tail;
      |s| >= 2 && s[0] == '\n' && s[1] == '\t' && Json.ArrayPrefix(s[2..]) == Some((row, tail))
  {
    var s := RowText(row) + tail;
    assert s == "\n\t" + (Json.StringArray(row) + tail);
    assert s[2..] == Json.StringArray(row) + tail;
    Json.ArrayPrefixRoundTrip(row, tail);
  }

  /** The last row's line, closed by a newline and `]`. */
  lemma LayoutLast(last: seq<string>)
    ensures LayoutRows(RowText(last) + "\n]") == Some([last])
  {
    RowTextPrefix(last, "\n]");
  }

  /** A row's line, a comma and further lines. */
  lemma LayoutNext(row: seq<string>, more: string)
    ensures LayoutRows(RowText(row) + "," + more) ==
      match LayoutRows(more)
      case None => None
      case Some(rows) => Some([row] + rows)
  {
    var tail := "," + more;
    RowTextPrefix(row, tail);
    assert RowText(row) + "," + more == RowText(row) + tail;
    assert tail != "\n]" && tail[0] == ',' && tail[1..] == more;
  }

  lemma Regroup(a: string, b: string, c: string, d: string)
    ensures a + b + c + d == a + (b + c + d)
  {
  }

  /** The lines of `rows` and then of `last` are read back as `rows` followed by `last`. */
  lemma {:induction false} LayoutRowsRoundTrip(rows: Csv, last: seq<string>)
    ensures LayoutRows(Separated(rows) + RowText(last) + "\n]") == Some(rows + [last])
  {
    if |rows| == 0 {
      LayoutLast(last);
      assert Separated(rows) + RowText(last) + "\n]" == RowText(last) + "\n]";
      assert rows + [last] == [last];
    } else {
      var more := Separated(rows[1..]) + RowText(last) + "\n]";
      LayoutRowsRoundTrip(rows[1..], last);
      LayoutNext(rows[0], more);
      var head := RowText(rows[0]) + ",";
      assert Separated(rows) == head + Separated(rows[1..]);
      Regroup(head, Separated(rows[1..]), RowText(last), "\n]");
      assert [rows[0]] + (rows[1..] + [last]) == rows + [last];
    }
  }

  /** A non-empty layout is its `[` and its row lines. */
  lemma LayoutOpen(csv: Csv)
    requires |csv| > 0
    ensures var body := Separated(csv[..|csv| - 1]) + RowText(csv[|csv| - 1]) + "\n]";
      ParseLayout(CsvLayout(csv)) == LayoutRows(body)
  {
    var body := Separated(csv[..|csv| - 1]) + RowText(csv[|csv| - 1]) + "\n]";
    var s := "[" + body;
    assert CsvLayout(csv) == s;
    assert |RowText(csv[|csv| - 1])| >= 2;
    assert |s| > 2 && s[0] == '[' && s[1..] == body;
  }

  /** Every printed CSV reads back as that CSV. */
  lemma LayoutRoundTrip(csv: Csv)
    ensures ParseLayout(CsvLayout(csv)) == Some(csv)
  {
    if |csv| > 0 {
      LayoutOpen(csv);
      LayoutRowsRoundTrip(csv[..|csv| - 1], csv[|csv| - 1]);
      InitLast(csv);
    }
  }

  lemma InitLast(csv: Csv)
    requires |csv| > 0
    ensures csv[..|csv| - 1] + [csv[|csv| - 1]] == csv
  {
  }

  /** Two CSVs with the same printed form are equal. */
  lemma LayoutInjective(a: Csv, b: Csv)
    requires CsvLayout(a) == CsvLayout(b)
    ensures a == b
  {
    LayoutRoundTrip(a);
    LayoutRoundTrip(b);
  }

  /** One more row's line and comma on the text built so far. */
  lemma AppendLine(built: string, done: string, row: seq<string>)
    requires built == "[" + done
    ensures built + "\n\t" + Json.StringArray(row) + "," == "[" + (done + RowText(row) + ",")
  {
  }

  /** The last row's line and the closing newline and bracket on the text built so far. */
  lemma CloseLayout(built: string, done: string, row: seq<string>)
    requires built == "[" + done
    ensures built + "\n\t" + Json.StringArray(row) + "\n" + "]" == "[" + done + RowText(row) + "\n]"
  {
  }

  /** Builds the printed form row by row, as `csvAsString` does. */
  method CsvAsString(csv: Csv) returns (csvString: string)
    ensures csvString == CsvLayout(csv)
    ensures ParseLayout(csvString) == Some(csv)
  {
    csvString := "[";
    var i := 0;
    while i < |csv| - 1
      invariant 0 <= i <= if |csv| == 0 then 0 else |csv| - 1
      invariant csvString == "[" + Separated(csv[..i])
    {
      SeparatedSnoc(csv[..i], csv[i]);
      assert csv[..i + 1] == csv[..i] + [csv[i]];
      AppendLine(csvString, Separated(csv[..i]), csv[i]);
      csvString := csvString + "\n\t" + Json.StringArray(csv[i]) + ",";
      i := i + 1;
    }
    if |csv| > 0 {
      assert i == |csv| - 1;
      CloseLayout(csvString, Separated(csv[..|csv| - 1]), csv[|csv| - 1]);
      csvString := csvString + "\n\t" + Json.StringArray(csv[|csv| - 1]) + "\n";
    }
    csvString := csvString + "]";
    assert csvString == CsvLayout(csv);
    LayoutRoundTrip(csv);
  }

  // ---------------------------------------------------------------------------
  // processInput as a function of the loaded CSV

  /** What one input prints, and the loaded CSV after it. */
  datatype Reply = Reply(output: string, loaded: Option<Csv>)

  /**
   * One input. The first test can never hold (no length is both below 1 and above 2),
   * so inputs of three or more tokens reach the one-token branch.
   */
  function Step(loaded: Option<Csv>, userCommand: string): Reply
  {
    var commandSplit := Text.Split(userCommand, ' ');
    if |commandSplit| < 1 && |commandSplit| > 2 then Reply(UnknownCommand, loaded)
    else if |commandSplit| == 2 then
      if commandSplit[0] == "get" then
        if commandSplit[1] in MockedJson.MockCsvs then
          var contents := MockedJson.MockCsvs[commandSplit[1]];
          Reply(CsvLayout(contents), Some(contents))
        else Reply(FileNotFound, loaded)
      else Reply(UnknownCommand, loaded)
    else if commandSplit[0] == "stats" then
      match loaded
      case Some(csv) => Reply(StatsMessage(csv), loaded)
      case None => Reply(NoCsvLoaded, loaded)
    else Reply(UnknownCommand, loaded)
  }

  /** The output log and the loaded CSV after a command log, from a cleared page. */
  datatype Session = Session(outputs: seq<string>, loaded: Option<Csv>)

  /** One more input: its output is logged and its loaded CSV replaces the old one. */
  function Advance(s: Session, userCommand: string): Session
  {
    var reply := Step(s.loaded, userCommand);
    Session(s.outputs + [reply.output], reply.loaded)
  }

  /** Replays a command log: one output per command, in order. */
  function Run(commands: seq<string>): (s: Session)
    ensures |s.outputs| == |commands|
  {
    if |commands| == 0 then Session([], None)
    else Advance(Run(commands[..|commands| - 1]), commands[|commands| - 1])
  }

  /** Replaying one more command advances the replay of the others by it. */
  lemma RunSnoc(commands: seq<string>, userCommand: string)
    ensures Run(commands + [userCommand]) == Advance(Run(commands), userCommand)
  {
    assert (commands + [userCommand])[..|commands|] == commands;
  }

  // ---------------------------------------------------------------------------
  // Properties of one input

  /**
   * `get <name>` with a space-free name prints and loads a known fixture, and
   * otherwise prints the not-found error and keeps the loaded CSV.
   */
  lemma StepGet(loaded: Option<Csv>, name: string)
    requires ' ' !in name
    ensures Step(loaded, "get " + name) ==
      if name in MockedJson.MockCsvs then
        Reply(CsvLayout(MockedJson.MockCsvs[name]), Some(MockedJson.MockCsvs[name]))
      else Reply(FileNotFound, loaded)
  {
    Text.SplitAfterWord("get", name, ' ');
    Text.SplitWithout(name, ' ');
    assert "get " + name == "get" + [' '] + name;
  }

  /** `stats` reports the loaded CSV's size, or that none is loaded, and never changes what is loaded. */
  lemma StepStats(loaded: Option<Csv>)
    ensures Step(loaded, "stats").loaded == loaded
    ensures Step(loaded, "stats").output ==
      if loaded.Some? then "Rows: " + Text.NatToString(|loaded.value|) + ", Columns: " +
        Text.NatToString(if |loaded.value| == 0 then 0 else |loaded.value[0]|)
      else NoCsvLoaded
  {
    Text.SplitWithout("stats", ' ');
  }

  /** Only a successful `get` changes the loaded CSV, and then to the named fixture. */
  lemma OnlyGetLoads(loaded: Option<Csv>, userCommand: string)
    ensures Step(loaded, userCommand).loaded != loaded ==>
      exists name :: name in MockedJson.MockCsvs && userCommand == "get " + name &&
        Step(loaded, userCommand).loaded == Some(MockedJson.MockCsvs[name])
  {
    var parts := Text.Split(userCommand, ' ');
    if Step(loaded, userCommand).loaded != loaded {
      assert |parts| == 2 && parts[0] == "get";
      Text.SplitInTwo(userCommand, ' ');
      assert userCommand == "get " + parts[1];
    }
  }

  /**
   * The first test never holds, so an input of three or more tokens is judged by its
   * first token alone: `stats a b` reports the size like `stats`.
   */
  lemma ThreeOrMoreTokens(loaded: Option<Csv>, userCommand: string)
    requires |Text.Split(userCommand, ' ')| >= 3
    ensures Step(loaded, userCommand) == Step(loaded, Text.Split(userCommand, ' ')[0])
  {
    var first := Text.Split(userCommand, ' ')[0];
    Text.SplitShape(userCommand, ' ');
    Text.SplitWithout(first, ' ');
  }

  /** `stats` followed by more tokens: extra arguments are ignored when there are at least two. */
  lemma StatsIgnoresExtraArguments(loaded: Option<Csv>, a: string, b: string)
    requires ' ' !in a && ' ' !in b
    ensures Step(loaded, "stats " + a + " " + b) == Step(loaded, "stats")
  {
    Text.SplitAfterWord("stats", a + " " + b, ' ');
    Text.SplitAfterWord(a, b, ' ');
    Text.SplitWithout(b, ' ');
    assert "stats " + a + " " + b == "stats" + [' '] + (a + " " + b);
    assert a + " " + b == a + [' '] + b;
    ThreeOrMoreTokens(loaded, "stats " + a + " " + b);
  }

  /** An input that keeps the loaded CSV prints the same line when it is given twice. */
  lemma AdvanceTwice(s: Session, userCommand: string)
    requires Step(s.loaded, userCommand).loaded == s.loaded
    ensures var o := Step(s.loaded, userCommand).output;
      Advance(Advance(s, userCommand), userCommand) == Session(s.outputs + [o, o], s.loaded)
  {
    assert s.outputs + [Step(s.loaded, userCommand).output] + [Step(s.loaded, userCommand).output]
        == s.outputs + [Step(s.loaded, userCommand).output, Step(s.loaded, userCommand).output];
  }

  /**
   * Asking for the stats twice in a row, after any history, prints the same line
   * twice and loads nothing.
   */
  lemma StatsIdempotent(s: Session)
    ensures var o := Step(s.loaded, "stats").output;
      Advance(Advance(s, "stats"), "stats") == Session(s.outputs + [o, o], s.loaded)
  {
    StepStats(s.loaded);
    AdvanceTwice(s, "stats");
  }

  /** A one-token input other than `stats` is unknown, and keeps the loaded CSV. */
  lemma StepWord(loaded: Option<Csv>, word: string)
    requires ' ' !in word && word != "stats"
    ensures Step(loaded, word) == Reply(UnknownCommand, loaded)
  {
    Text.SplitWithout(word, ' ');
  }

  /** A two-token input whose first token is not `get` is unknown, and keeps the loaded CSV. */
  lemma StepPair(loaded: Option<Csv>, first: string, second: string)
    requires ' ' !in first && ' ' !in second && first != "get"
    ensures Step(loaded, first + " " + second) == Reply(UnknownCommand, loaded)
  {
    Text.SplitAfterWord(first, second, ' ');
    Text.SplitWithout(second, ' ');
    assert first + " " + second == first + [' '] + second;
  }

  /** `get` with two or more arguments is judged by `get` alone, which is not a command. */
  lemma GetWithExtraArguments(loaded: Option<Csv>, a: string, b: string)
    requires ' ' !in a && ' ' !in b
    ensures Step(loaded, "get " + a + " " + b) == Reply(UnknownCommand, loaded)
  {
    Text.SplitAfterWord("get", a + " " + b, ' ');
    Text.SplitAfterWord(a, b, ' ');
    Text.SplitWithout(b, ' ');
    assert "get " + a + " " + b == "get" + [' '] + (a + " " + b);
    assert a + " " + b == a + [' '] + b;
    ThreeOrMoreTokens(loaded, "get " + a + " " + b);
    StepWord(loaded, "get");
  }

  /** A one-row CSV prints on a single line between the brackets. */
  lemma SingleRowLayout(row: seq<string>)
    ensures CsvLayout([row]) == "[\n\t" + Json.StringArray(row) + "\n]"
  {
    assert [row][..0] == [];
  }

  /** The row and column counts of the fixtures. */
  lemma FixtureStats()
    ensures GetStats(MockedJson.EmptyCsv) == [0, 0]
    ensures GetStats(MockedJson.EmptyRowCsv) == [1, 0]
    ensures GetStats(MockedJson.OneRowCsv) == [1, 3]
    ensures GetStats(MockedJson.OneColumnCsv) == [3, 1]
    ensures GetStats(MockedJson.EmptyStrCsv) == [3, 4]
    ensures GetStats(MockedJson.NonAlphCsv) == [2, 5]
    ensures GetStats(MockedJson.SimpleCsv) == [2, 3]
  {
  }

  // ---------------------------------------------------------------------------
  // The page

  class Repl {
    var commands: seq<string>
    var outputs: seq<string>
    var loadedCSV: Option<Csv>
    /** The text in the command box. */
    var inputValue: string

    /** The logs and the loaded CSV are what replaying the command log gives. */
    ghost predicate Valid()
      reads this
    {
      Run(commands) == Session(outputs, loadedCSV)
    }

    constructor()
      ensures Valid()
      ensures commands == [] && outputs == [] && loadedCSV == None && inputValue == ""
    {
      commands := [];
      outputs := [];
      loadedCSV := None;
      inputValue := "";
    }

    /** The command log, which replays to the output log. */
    function GetCommands(): (cs: seq<string>)
      reads this
      requires Valid()
      ensures Run(cs).outputs == outputs && |cs| == |outputs|
    {
      commands
    }

    /** The output log: one entry per command, each the output of replaying the log up to it. */
    function GetOutputs(): (os: seq<string>)
      reads this
      requires Valid()
      ensures |os| == |commands|
      ensures forall i :: 0 <= i < |os| ==> os[i] == Run(commands[..i + 1]).outputs[i]
    {
      OutputsArePrefixes(commands);
      outputs
    }

    /** Logs the input, prints exactly one output for it and updates the loaded CSV. */
    method ProcessInput(userCommand: string)
      requires Valid()
      modifies this
      ensures Valid()
      ensures commands == old(commands) + [userCommand]
      ensures outputs == old(outputs) + [Step(old(loadedCSV), userCommand).output]
      ensures loadedCSV == Step(old(loadedCSV), userCommand).loaded
      ensures inputValue == old(inputValue)
    {
      RunSnoc(commands, userCommand);
      commands := commands + [userCommand];
      var commandSplit := Text.Split(userCommand, ' ');
      if |commandSplit| < 1 && |commandSplit| > 2 {
        assert false;
      } else if |commandSplit| == 2 {
        if commandSplit[0] == "get" {
          var fileName := commandSplit[1];
          if fileName in MockedJson.MockCsvs {
            var contents := MockedJson.MockCsvs[fileName];
            loadedCSV := Some(contents);
            var shown := CsvAsString(contents);
            outputs := outputs + [shown];
          } else {
            outputs := outputs + [FileNotFound];
          }
        } else {
          outputs := outputs + [UnknownCommand];
        }
      } else {
        if commandSplit[0] == "stats" {
          if loadedCSV.Some? {
            var stats := GetStats(loadedCSV.value);
            outputs := outputs + ["Rows: " + Text.NatToString(stats[0]) + ", Columns: " + Text.NatToString(stats[1])];
          } else {
            outputs := outputs + [NoCsvLoaded];
          }
        } else {
          outputs := outputs + [UnknownCommand];
        }
      }
    }

    /** Empties both logs and unloads the CSV. */
    method ClearHistory()
      modifies this
      ensures Valid()
      ensures commands == [] && outputs == [] && loadedCSV == None
      ensures inputValue == old(inputValue)
    {
      commands := [];
      outputs := [];
      loadedCSV := None;
    }

    /** Puts text in the command box. */
    method SetInput(input: string)
      modifies this
      ensures inputValue == input
      ensures commands == old(commands) && outputs == old(outputs) && loadedCSV == old(loadedCSV)
    {
      inputValue := input;
    }

    /** Only the Enter key submits the box's text and then empties the box. */
    method HandleKeyPress(key: string)
      requires Valid()
      modifies this
      ensures Valid()
      ensures key == "Enter" ==>
        && commands == old(commands) + [old(inputValue)]
        && outputs == old(outputs) + [Step(old(loadedCSV), old(inputValue)).output]
        && loadedCSV == Step(old(loadedCSV), old(inputValue)).loaded
        && inputValue == ""
      ensures key != "Enter" ==> unchanged(this)
    {
      if key == "Enter" {
        ProcessInput(inputValue);
        inputValue := "";
      }
    }

    /** A click on the submit button submits the box's text and then empties the box. */
    method HandleClick()
      requires Valid()
      modifies this
      ensures Valid()
      ensures commands == old(commands) + [old(inputValue)]
      ensures outputs == old(outputs) + [Step(old(loadedCSV), old(inputValue)).output]
      ensures loadedCSV == Step(old(loadedCSV), old(inputValue)).loaded
      ensures inputValue == ""
    {
      ProcessInput(inputValue);
      inputValue := "";
    }
  }

  /** Each output in a replay stays what it was when its command was the last one. */
  lemma {:induction false} OutputsArePrefixes(commands: seq<string>)
    ensures forall i :: 0 <= i < |commands| ==> Run(commands).outputs[i] == Run(commands[..i + 1]).outputs[i]
  {
    if |commands| > 0 {
      var init := commands[..|commands| - 1];
      OutputsArePrefixes(init);
      forall i | 0 <= i < |commands|
        ensures Run(commands).outputs[i] == Run(commands[..i + 1]).outputs[i]
      {
        if i < |init| {
          assert init[..i + 1] == commands[..i + 1];
        } else {
          assert commands[..i + 1] == commands;
        }
      }
    }
  }
}
