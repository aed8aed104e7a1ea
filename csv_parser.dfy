/**
 * `CSVParser`: counts the words, characters, rows and columns of a CSV file, and turns
 * each data row into an object with a row factory. The file's `Reader` is a sequence of
 * lines without their terminators, read one at a time; the first line is the header.
 * Rows are split on every comma (no quoting), as Java's `split(",")` does.
 *
 * The specification functions range over `lines[lo..hi]` by index, so that a loop that
 * has read up to line `pos` is described by the range ending at `pos`.
 */
module CsvParser {
  import opened Wrappers
  import Text
  import opened RowFactories

  /** The `IOException`s the model can raise. */
  datatype IOException = StreamClosed | FileNotFound(path: string)

  /** What `create` may throw: a read error or the factory's failure on a row. */
  datatype CreateError = ReadFailure(cause: IOException) | RowFailure(failure: FactoryFailure)

  /** The delimiters of the word count's `StringTokenizer`. */
  const WordDelimiters: set<char> := {',', '|', ' '}

  /** The cells of one line: Java's `line.split(",")`. */
  function RowCells(line: string): seq<string>
  {
    Text.JavaSplit(line, ',')
  }

  /** Index of the first data line of a file whose lines start at `pos`: the header is skipped when there is one. */
  function DataStart(pos: nat, lines: seq<string>): (lo: nat)
    requires pos <= |lines|
    ensures lo <= |lines|
    ensures pos < |lines| ==> lo == pos + 1
    ensures pos == |lines| ==> lo == pos
  {
    if pos < |lines| then pos + 1 else pos
  }

  /** Sum of the token counts of `lines[lo..hi]`. */
  function WordsIn(lines: seq<string>, lo: nat, hi: nat): nat
    requires lo <= hi <= |lines|
    decreases hi
  {
    if hi == lo then 0 else WordsIn(lines, lo, hi - 1) + Text.CountTokens(lines[hi - 1], WordDelimiters)
  }

  /** Sum of the lengths of `lines[lo..hi]`. */
  function CharsIn(lines: seq<string>, lo: nat, hi: nat): nat
    requires lo <= hi <= |lines|
    decreases hi
  {
    if hi == lo then 0 else CharsIn(lines, lo, hi - 1) + |lines[hi - 1]|
  }

  /**
   * The objects a factory builds from `lines[lo..hi]`, one per line in order, each from
   * the line's comma-split cells; the first line the factory rejects decides the failure.
   */
  function CreateRange<T>(create: Creator<T>, lines: seq<string>, lo: nat, hi: nat): (r: Result<seq<T>, FactoryFailure>)
    requires lo <= hi <= |lines|
    ensures r.Success? ==> |r.value| == hi - lo
    decreases hi
  {
    if hi == lo then Success([])
    else
      match CreateRange(create, lines, lo, hi - 1)
      case Failure(f) => Failure(f)
      case Success(objects) =>
        match create(RowCells(lines[hi - 1]))
        case Failure(f) => Failure(f)
        case Success(x) => Success(objects + [x])
  }

  /** A source of lines standing for the `BufferedReader` wrapped around the file's `Reader`. */
  class LineReader {
    const lines: seq<string>
    var pos: nat
    var closed: bool

    constructor (lines: seq<string>)
      ensures this.lines == lines && pos == 0 && !closed
    {
      this.lines := lines;
      pos := 0;
      closed := false;
    }

    /** `readLine`: the next line, `None` at the end of the file, an exception once closed. */
    method ReadLine() returns (r: Result<Option<string>, IOException>)
      requires pos <= |lines|
      modifies this
      ensures pos <= |lines| && closed == old(closed)
      ensures old(closed) ==> r == Failure(StreamClosed) && pos == old(pos)
      ensures !old(closed) && old(pos) < |lines| ==> r == Success(Some(lines[old(pos)])) && pos == old(pos) + 1
      ensures !old(closed) && old(pos) == |lines| ==> r == Success(None) && pos == old(pos)
    {
      if closed {
        r := Failure(StreamClosed);
      } else if pos < |lines| {
        r := Success(Some(lines[pos]));
        pos := pos + 1;
      } else {
        r := Success(None);
      }
    }

    /** `close`: later reads fail. */
    method Close()
      modifies this
      ensures closed && pos == old(pos)
    {
      closed := true;
    }
  }

  class Parser<T> {
    const reader: LineReader
    const rowCreator: Creator<T>
    var wordCount: int
    var characterCount: int
    var rowCount: int
    var columnCount: int

    constructor (reader: LineReader, rowCreator: Creator<T>)
      ensures this.reader == reader && this.rowCreator == rowCreator
      ensures wordCount == 0 && characterCount == 0 && rowCount == 0 && columnCount == 0
    {
      this.reader := reader;
      this.rowCreator := rowCreator;
      wordCount := 0;
      characterCount := 0;
      rowCount := 0;
      columnCount := 0;
    }

    /**
     * `count`: the header sets the column count to its number of cells; every later
     * line adds its tokens to the words, its length to the characters and one to the
     * rows; then the reader is closed. A closed reader throws before anything changes.
     */
    method Count() returns (outcome: Outcome<IOException>)
      requires reader.pos <= |reader.lines|
      modifies this, reader
      ensures reader.pos <= |reader.lines|
      ensures old(reader.closed) ==>
        && outcome == Fail(StreamClosed)
        && reader.closed && reader.pos == old(reader.pos)
        && unchanged(this)
      ensures !old(reader.closed) ==>
        var lo := DataStart(old(reader.pos), reader.lines);
        && outcome == Pass
        && reader.closed && reader.pos == |reader.lines|
        && columnCount == (if old(reader.pos) < |reader.lines| then |RowCells(reader.lines[old(reader.pos)])| else old(columnCount))
        && wordCount == old(wordCount) + WordsIn(reader.lines, lo, |reader.lines|)
        && characterCount == old(characterCount) + CharsIn(reader.lines, lo, |reader.lines|)
        && rowCount == old(rowCount) + (|reader.lines| - lo)
    {
      var line := reader.ReadLine();
      if line.Failure? {
        return Fail(line.error);
      }
      if line.value.Some? {
        columnCount := |RowCells(line.value.value)|;
      }
      ghost var lo := reader.pos;
      while true
        invariant lo <= reader.pos <= |reader.lines| && !reader.closed
        invariant wordCount == old(wordCount) + WordsIn(reader.lines, lo, reader.pos)
        invariant characterCount == old(characterCount) + CharsIn(reader.lines, lo, reader.pos)
        invariant rowCount == old(rowCount) + (reader.pos - lo)
        invariant columnCount == (if old(reader.pos) < |reader.lines| then |RowCells(reader.lines[old(reader.pos)])| else old(columnCount))
        decreases |reader.lines| - reader.pos
      {
        line := reader.ReadLine();
        if line.Failure? || line.value.None? {
          break;
        }
        wordCount := wordCount + Text.CountTokens(line.value.value, WordDelimiters);
        characterCount := characterCount + |line.value.value|;
        rowCount := rowCount + 1;
      }
      reader.Close();
      return Pass;
    }

    /**
     * `create`: the header is skipped and every later line, split on commas, is handed
     * to the row factory; the objects come back in file order and the reader is closed.
     * The first row the factory rejects ends the call with its failure, leaving the
     * reader open; a closed reader throws a read error.
     */
    method Create() returns (r: Result<seq<T>, CreateError>)
      requires reader.pos <= |reader.lines|
      modifies reader
      ensures reader.pos <= |reader.lines|
      ensures old(reader.closed) ==> r == Failure(ReadFailure(StreamClosed)) && reader.closed && reader.pos == old(reader.pos)
      ensures !old(reader.closed) ==>
        var made := CreateRange(rowCreator, reader.lines, DataStart(old(reader.pos), reader.lines), |reader.lines|);
        && (made.Success? ==> r == Success(made.value) && reader.closed && reader.pos == |reader.lines|)
        && (made.Failure? ==> r == Failure(RowFailure(made.error)) && !reader.closed)
    {
      var objects: seq<T> := [];
      var line := reader.ReadLine();
      if line.Failure? {
        return Failure(ReadFailure(line.error));
      }
      ghost var lo := reader.pos;
      while true
        invariant lo <= reader.pos <= |reader.lines| && !reader.closed
        invariant CreateRange(rowCreator, reader.lines, lo, reader.pos) == Success(objects)
        decreases |reader.lines| - reader.pos
      {
        line := reader.ReadLine();
        if line.Failure? || line.value.None? {
          break;
        }
        var newObject := rowCreator(RowCells(line.value.value));
        if newObject.Failure? {
          CreateRangePrefixFailure(rowCreator, reader.lines, lo, reader.pos, |reader.lines|);
          return Failure(RowFailure(newObject.error));
        }
        objects := objects + [newObject.value];
      }
      reader.Close();
      return Success(objects);
    }
  }

  // ---------------------------------------------------------------------------
  // Properties of create and of the counts

  /** A failure on the first lines of a range is the failure of the whole range. */
  lemma {:induction false} CreateRangePrefixFailure<T>(create: Creator<T>, lines: seq<string>, lo: nat, k: nat, hi: nat)
    requires lo <= k <= hi <= |lines| && CreateRange(create, lines, lo, k).Failure?
    ensures CreateRange(create, lines, lo, hi) == CreateRange(create, lines, lo, k)
    decreases hi
  {
    if k < hi {
      CreateRangePrefixFailure(create, lines, lo, k, hi - 1);
    }
  }

  /**
   * `create` against its reference, line by line: it succeeds exactly when the factory
   * accepts the cells of every line of the range, element `i` is then the factory's
   * object for line `lo + i`, and a failure is the factory's failure on the first line
   * it rejects.
   */
  lemma {:induction false} CreateRangeSpec<T>(create: Creator<T>, lines: seq<string>, lo: nat, hi: nat)
    requires lo <= hi <= |lines|
    ensures CreateRange(create, lines, lo, hi).Success? <==>
      forall i :: lo <= i < hi ==> create(RowCells(lines[i])).Success?
    ensures CreateRange(create, lines, lo, hi).Success? ==>
      forall i :: lo <= i < hi ==> CreateRange(create, lines, lo, hi).value[i - lo] == create(RowCells(lines[i])).value
    ensures CreateRange(create, lines, lo, hi).Failure? ==>
      exists k :: lo <= k < hi
        && create(RowCells(lines[k])) == Failure(CreateRange(create, lines, lo, hi).error)
        && forall i :: lo <= i < k ==> create(RowCells(lines[i])).Success?
    decreases hi
  {
    if hi > lo {
      CreateRangeSpec(create, lines, lo, hi - 1);
      if CreateRange(create, lines, lo, hi - 1).Failure? {
        var k :| lo <= k < hi - 1
          && create(RowCells(lines[k])) == Failure(CreateRange(create, lines, lo, hi - 1).error)
          && forall i :: lo <= i < k ==> create(RowCells(lines[i])).Success?;
        assert create(RowCells(lines[k])) == Failure(CreateRange(create, lines, lo, hi).error);
      } else if create(RowCells(lines[hi - 1])).Failure? {
        assert create(RowCells(lines[hi - 1])) == Failure(CreateRange(create, lines, lo, hi).error);
      }
    }
  }

  /** With the string-list factory, `create` gives the comma-split lines verbatim and never fails. */
  lemma {:induction false} ListStringRows(lines: seq<string>, lo: nat, hi: nat)
    requires lo <= hi <= |lines|
    ensures CreateRange(ListStringCreate, lines, lo, hi).Success?
    ensures forall i :: lo <= i < hi ==> CreateRange(ListStringCreate, lines, lo, hi).value[i - lo] == RowCells(lines[i])
  {
    CreateRangeSpec(ListStringCreate, lines, lo, hi);
  }

  /** A decimal numeral has no comma, so it is one cell. */
  lemma NumeralHasNoComma(i: int)
    ensures RowCells(Text.IntToString(i)) == [Text.IntToString(i)]
  {
    var s := Text.IntToString(i);
    var digits := Text.NatToString(if i < 0 then -i else i);
    assert s == (if i < 0 then "-" else "") + digits;
    assert forall k :: 0 <= k < |s| ==> s[k] == '-' || Text.IsDigit(s[k]);
  }

  /** Integers written one per line come back from the integer factory as written. */
  lemma {:induction false} IntegerRows(lines: seq<string>, lo: nat, values: seq<int>)
    requires lo + |values| <= |lines|
    requires forall j :: 0 <= j < |values| ==> Text.INT_MIN <= values[j] <= Text.INT_MAX
    requires forall j :: 0 <= j < |values| ==> lines[lo + j] == Text.IntToString(values[j])
    ensures CreateRange(IntegerCreate, lines, lo, lo + |values|) == Success(values)
    decreases |values|
  {
    if |values| > 0 {
      var last := values[|values| - 1];
      var init := values[..|values| - 1];
      IntegerRows(lines, lo, init);
      NumeralHasNoComma(last);
      IntegerRoundTrip(last);
      assert values == init + [last];
    }
  }

  /** Each line contributes no more words than characters, so neither do the totals. */
  lemma {:induction false} WordsAtMostCharacters(lines: seq<string>, lo: nat, hi: nat)
    requires lo <= hi <= |lines|
    ensures WordsIn(lines, lo, hi) <= CharsIn(lines, lo, hi)
    decreases hi
  {
    if hi > lo {
      WordsAtMostCharacters(lines, lo, hi - 1);
      Text.CountTokensAtMostLength(lines[hi - 1], WordDelimiters);
    }
  }
}
