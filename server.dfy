/**
 * The backend as `Server` wires it: one `CSVData`, initially empty, shared by the load,
 * get and stats routes; and what the frontend's `get` and `stats` commands show for the
 * routes' replies. Each method here starts a fresh server and plays one sequence of
 * requests against it.
 */
module Backend {
  import opened Wrappers
  import Text
  import opened CsvParser
  import opened CsvData
  import opened LoadRoute
  import opened GetRoute
  import opened StatsRoute
  import Terminal
  import Commands

  class Server {
    const data: CsvData
    const loader: LoadHandler
    const getter: GetHandler
    const stats: StatsHandler

    /** A fresh, unloaded shared state, and the three routes that share it. */
    constructor ()
      ensures fresh(data) && fresh(loader) && fresh(getter) && fresh(stats)
      ensures loader.data == data && getter.data == data && stats.data == data
      ensures data.data == None && !data.isLoaded && loader.filepath == None
    {
      var shared := new CsvData.Empty();
      data := shared;
      loader := new LoadHandler(shared);
      getter := new GetHandler(shared);
      stats := new StatsHandler(shared);
    }
  }

  /** The frontend's `get` for the two replies. */
  function ShowGet(path: string, load: LoadResponse, got: GetResponse): Terminal.Output
  {
    Commands.Get([path], Commands.LoadJson(load.result), Commands.GetJson(got.result, got.data)).output
  }

  /**
   * Loading an existing file under `data/` and then asking for it returns its
   * header-less, comma-split lines, and the frontend's `get` shows them as a table.
   */
  method LoadThenGet(files: Files, path: string) returns (load: LoadResponse, got: GetResponse)
    requires Text.StartsWith(path, "data/") && path in files
    ensures load == LoadResponse("success", Some(path))
    ensures var lines := files[path];
      && got.result == "success" && got.data.Some?
      && |got.data.value| == (if |lines| == 0 then 0 else |lines| - 1)
      && (forall i :: 0 <= i < |got.data.value| ==> got.data.value[i] == RowCells(lines[i + 1]))
      && ShowGet(path, load, got) == Terminal.Grid(got.data.value)
  {
    var server := new Server();
    load := server.loader.Handle(files, Some(path));
    AnyDataFileLoads(files, path);
    got := server.getter.Handle();
  }

  /**
   * A refused load leaves a fresh server unloaded, so a later `getcsv` is a bad request;
   * the frontend stops after the refusal with the message for its code.
   */
  method RefusedLoadThenGet(files: Files, path: string) returns (load: LoadResponse, got: GetResponse)
    requires !Text.StartsWith(path, "data/") || path !in files
    ensures load == LoadResponse("error_datasource", Some(path))
    ensures got == GetResponse("error_bad_request", None)
    ensures ShowGet(path, load, got) == Terminal.Message(Commands.NotParsed)
  {
    var server := new Server();
    load := server.loader.Handle(files, Some(path));
    LoadResultCodes(files, Some(path));
    got := server.getter.Handle();
  }

  /**
   * After a successful load, `stats` reports the number of data lines and the number
   * of cells of the first of them; a file with no data line makes the route throw.
   */
  method LoadThenStats(files: Files, path: string) returns (reply: StatsResponse)
    requires Text.StartsWith(path, "data/") && path in files
    ensures var lines := files[path];
      && (|lines| >= 2 ==> reply == StatsSuccess(|lines| - 1, |RowCells(lines[1])|))
      && (|lines| < 2 ==> reply == Thrown)
  {
    var server := new Server();
    var load := server.loader.Handle(files, Some(path));
    AnyDataFileLoads(files, path);
    reply := server.stats.Handle();
  }

  /** The frontend's `stats` shows a successful reply's two counts. */
  lemma StatsShown(rows: int, columns: int)
    ensures Commands.Stats([], Commands.StatsJson("success", rows, columns)).output ==
      Terminal.Message("Rows: " + Text.IntToString(rows) + ", Columns: " + Text.IntToString(columns))
  {
  }
}
