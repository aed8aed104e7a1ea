/**
 * `CSVData`: the state the backend's handlers share, the rows of the last file
 * loaded (or nothing) and whether a load has succeeded.
 */
module CsvData {
  import opened Wrappers

  /** A parsed CSV file: its rows, each a list of cells. */
  type Grid = seq<seq<string>>

  class CsvData {
    /** `None` stands for Java's `null`. */
    var data: Option<Grid>
    var isLoaded: bool

    /** The invariant the load route keeps: a successful load has stored rows. */
    predicate LoadedHasData()
      reads this
    {
      isLoaded ==> data.Some?
    }

    /** `CSVData(data)`: the given rows, not yet loaded. */
    constructor (data: Option<Grid>)
      ensures this.data == data && !isLoaded
    {
      this.data := data;
      isLoaded := false;
    }

    /** `CSVData()`: no rows, not loaded. */
    constructor Empty()
      ensures data == None && !isLoaded
      ensures LoadedHasData()
    {
      data := None;
      isLoaded := false;
    }

    /** `getData`: a row-by-row copy of the stored rows, `None` when there are none. */
    method GetData() returns (copy: Option<Grid>)
      ensures copy == data
    {
      if data.None? {
        return None;
      }
      var rows := data.value;
      var dataCopy: Grid := [];
      var i := 0;
      while i < |rows|
        invariant 0 <= i <= |rows|
        invariant |dataCopy| == i
        invariant forall k :: 0 <= k < i ==> dataCopy[k] == rows[k]
      {
        dataCopy := dataCopy + [rows[i]];
        i := i + 1;
      }
      assert dataCopy == rows;
      return Some(dataCopy);
    }

    /** `setData`: replaces the rows and nothing else. */
    method SetData(csvData: Option<Grid>)
      modifies this
      ensures data == csvData && isLoaded == old(isLoaded)
    {
      data := csvData;
    }

    /** `getIsLoaded`. */
    method GetIsLoaded() returns (value: bool)
      ensures value == isLoaded
    {
      return isLoaded;
    }

    /** `setIsLoaded`: replaces the flag and nothing else. */
    method SetIsLoaded(value: bool)
      modifies this
      ensures isLoaded == value && data == old(data)
    {
      isLoaded := value;
    }
  }
}
