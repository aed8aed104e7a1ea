/**
 * The `loadcsv` route: parse the file named by the `filepath` query parameter into
 * rows of cells and store them in the shared `CSVData`. Only paths under `data/` are
 * read. The file system is a parameter mapping each readable path to its lines.
 */
module LoadRoute {
  import opened Wrappers
  import Text
  import opened RowFactories
  import opened CsvParser
  import opened CsvData

  /** The two keys of the route's reply; a `None` filepath is left out of the JSON. */
  datatype LoadResponse = LoadResponse(result: string, filepath: Option<string>)

  /** The file system the route reads: each file's lines, without terminators. */
  type Files = map<string, seq<string>>

  /** The rows of a readable file, parsed with the string-list factory. */
  function FileRows(lines: seq<string>): Result<Grid, FactoryFailure>
  {
    CreateRange(ListStringCreate, lines, DataStart(0, lines), |lines|)
  }

  /** What a request leads to: the rows to store, or the result code of the refusal. */
  function LoadDecision(files: Files, query: Option<string>): Result<Grid, string>
  {
    if query.None? then Failure("error_bad_request")
    else if !Text.StartsWith(query.value, "data/") then Failure("error_datasource")
    else if query.value !in files then Failure("error_datasource")
    else
      match FileRows(files[query.value])
      case Failure(_) => Failure("error_datasource")
      case Success(rows) => Success(rows)
  }

  class LoadHandler {
    var filepath: Option<string>
    const data: CsvData

    constructor (data: CsvData)
      ensures this.data == data && filepath == None
    {
      filepath := None;
      this.data := data;
    }

    /**
     * `handle`: remembers the requested path, then answers `error_bad_request` when
     * there is none and `error_datasource` for a path outside `data/`, a missing file
     * or a row the factory rejects, leaving the shared state as it was. Otherwise the
     * parsed rows are stored, the state is marked loaded and the answer is `success`.
     * Every answer echoes the requested path.
     */
    method Handle(files: Files, query: Option<string>) returns (response: LoadResponse)
      modifies this, data
      ensures filepath == query
      ensures LoadDecision(files, query).Failure? ==>
        && response == LoadResponse(LoadDecision(files, query).error, query)
        && data.data == old(data.data) && data.isLoaded == old(data.isLoaded)
      ensures LoadDecision(files, query).Success? ==>
        && response == LoadResponse("success", query)
        && data.data == Some(LoadDecision(files, query).value) && data.isLoaded
      ensures old(data.LoadedHasData()) ==> data.LoadedHasData()
    {
      filepath := query;
      if filepath.None? {
        return LoadResponse("error_bad_request", filepath);
      }
      var path := filepath.value;
      if !Text.StartsWith(path, "data/") {
        return LoadResponse("error_datasource", filepath);
      }
      if path !in files {
        // `new FileReader(file)` throws `FileNotFoundException`, an `IOException`
        return LoadResponse("error_datasource", filepath);
      }
      var reader := new LineReader(files[path]);
      var parser := new Parser(reader, ListStringCreate);
      var fileData := parser.Create();
      if fileData.Failure? {
        return LoadResponse("error_datasource", filepath);
      }
      data.SetData(Some(fileData.value));
      data.SetIsLoaded(true);
      return LoadResponse("success", filepath);
    }

    /** `loadResponse`: the result code together with the path last requested. */
    method Respond(responseType: string) returns (response: LoadResponse)
      ensures response.result == responseType && response.filepath == filepath
    {
      return LoadResponse(responseType, filepath);
    }
  }

  // ---------------------------------------------------------------------------
  // Properties of the load route

  /**
   * The string-list factory never fails, so every existing file under `data/` loads,
   * however its rows are shaped, and what is stored is its header-less lines split on
   * commas, in file order.
   */
  lemma AnyDataFileLoads(files: Files, path: string)
    requires Text.StartsWith(path, "data/") && path in files
    ensures LoadDecision(files, Some(path)).Success?
    ensures var lines := files[path];
      var rows := LoadDecision(files, Some(path)).value;
      && |rows| == (if |lines| == 0 then 0 else |lines| - 1)
      && forall i :: 0 <= i < |rows| ==> rows[i] == RowCells(lines[i + 1])
  {
    var lines := files[path];
    ListStringRows(lines, DataStart(0, lines), |lines|);
  }

  /**
   * The result codes: no path is a bad request; a path outside `data/` or a file that
   * does not exist is a data-source error; an existing file under `data/` always loads.
   */
  lemma LoadResultCodes(files: Files, query: Option<string>)
    ensures query.None? ==> LoadDecision(files, query) == Failure("error_bad_request")
    ensures query.Some? && !Text.StartsWith(query.value, "data/") ==>
      LoadDecision(files, query) == Failure("error_datasource")
    ensures query.Some? && query.value !in files ==> LoadDecision(files, query) == Failure("error_datasource")
    ensures LoadDecision(files, query).Success? <==>
      query.Some? && Text.StartsWith(query.value, "data/") && query.value in files
  {
    if query.Some? && Text.StartsWith(query.value, "data/") && query.value in files {
      AnyDataFileLoads(files, query.value);
    }
  }
}
