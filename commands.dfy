/**
 * The frontend's command handlers `get`, `stats` and `weather`, and their mocks.
 * Each real handler checks its argument count before contacting the backend, then
 * maps the backend's `result` code to a fixed message. The backend's JSON replies
 * are parameters; an outcome records the URLs the handler would fetch, in order,
 * together with the value its promise settles to.
 */
module Commands {
  import opened Wrappers
  import Text
  import opened Terminal

  const BackendUrl: string := "http://localhost:3232"

  const GetArity: string := "Error - requires one argument, a filepath."
  const NotFound: string := "Error - file could not be found or accessed."
  const NotParsed: string := "Error - file could not be read or parsed."
  const NoFileLoaded: string := "Error - no file is loaded."
  const StatsArity: string := "Error - requires 0 arguments."
  const WeatherArity: string := "Error - requires 2 arguments, latitude and longitude."
  const InvalidArguments: string := "Error - invalid arguments."
  const NoWeather: string := "Error - weather not able to be retrieved."

  /** The fields the handlers read from the backend's JSON replies. */
  datatype LoadJson = LoadJson(result: string)
  /** `data` is `None` when the reply's `data` is not an array. */
  datatype GetJson = GetJson(result: string, data: Option<seq<seq<string>>>)
  datatype StatsJson = StatsJson(result: string, rows: int, columns: int)
  /** `temperature` is the text JavaScript renders for the reply's number. */
  datatype WeatherJson = WeatherJson(result: string, temperature: string)

  /** What a handler fetches, in order, and what its promise settles to. */
  datatype Outcome = Outcome(requests: seq<string>, output: Output)

  function LoadUrl(filepath: string): string
  {
    BackendUrl + "/loadcsv?filepath=" + filepath
  }

  function WeatherUrl(lat: string, lon: string): string
  {
    BackendUrl + "/weather?lat=" + lat + "&lon=" + lon
  }

  /** `get`: load the file, then fetch its contents and show them as a table. */
  function Get(args: seq<string>, load: LoadJson, got: GetJson): Outcome
  {
    if |args| != 1 then Outcome([], Message(GetArity))
    else if load.result == "error_bad_request" then Outcome([LoadUrl(args[0])], Message(NotFound))
    else if load.result == "error_datasource" then Outcome([LoadUrl(args[0])], Message(NotParsed))
    else
      var requests := [LoadUrl(args[0]), BackendUrl + "/getcsv"];
      if got.result == "error_bad_request" then Outcome(requests, Message(NoFileLoaded))
      else if got.result == "error_datasource" then Outcome(requests, Message(NotParsed))
      else if got.data.Some? then Outcome(requests, Grid(got.data.value))
      else Outcome(requests, Undefined)
  }

  /** `stats`: the row and column counts of the loaded file. */
  function Stats(args: seq<string>, stats: StatsJson): Outcome
  {
    if |args| != 0 then Outcome([], Message(StatsArity))
    else if stats.result == "error_bad_request" then Outcome([BackendUrl + "/stats"], Message(NoFileLoaded))
    else if stats.result == "error_datasource" then Outcome([BackendUrl + "/stats"], Message(NotParsed))
    else
      Outcome([BackendUrl + "/stats"],
        Message("Rows: " + Text.IntToString(stats.rows) + ", Columns: " + Text.IntToString(stats.columns)))
  }

  /** `weather`: the temperature at a latitude and longitude. */
  function Weather(args: seq<string>, weather: WeatherJson): Outcome
  {
    if |args| != 2 then Outcome([], Message(WeatherArity))
    else
      var requests := [WeatherUrl(args[0], args[1])];
      if weather.result == "error_bad_request" then Outcome(requests, Message(InvalidArguments))
      else if weather.result == "error_datasource" || weather.result == "error_bad_json" then
        Outcome(requests, Message(NoWeather))
      else Outcome(requests, Message("Temperature (F): " + weather.temperature))
  }

  /** `mockGet`: the one-star file's single data row as text, without a backend. */
  function MockGet(args: seq<string>): Output
  {
    if |args| != 1 then Message(GetArity)
    else if args[0] == "data/stars/one-star.csv" then Message("[0,Sol,0,0,0]")
    else Message(NotParsed)
  }

  /** `mockStats`: the one-star file's counts, without a backend. */
  function MockStats(args: seq<string>): Output
  {
    if |args| != 0 then Message(StatsArity) else Message("Rows: 1, Columns: 5")
  }

  /** `mockWeather`: Washington's temperature, without a backend. */
  function MockWeather(args: seq<string>): Output
  {
    if |args| != 2 then Message(WeatherArity)
    else if args[0] == "38" && args[1] == "-77" then Message("61")
    else Message(NotParsed)
  }

  // ---------------------------------------------------------------------------
  // Argument checks come before any request

  /** Each handler contacts the backend exactly when its argument count is right, and not otherwise. */
  lemma ArityBeforeRequests(args: seq<string>, load: LoadJson, got: GetJson, stats: StatsJson, weather: WeatherJson)
    ensures |args| != 1 <==> Get(args, load, got).requests == []
    ensures |args| != 1 ==> Get(args, load, got).output == Message(GetArity)
    ensures |args| != 0 <==> Stats(args, stats).requests == []
    ensures |args| != 0 ==> Stats(args, stats).output == Message(StatsArity)
    ensures |args| != 2 <==> Weather(args, weather).requests == []
    ensures |args| != 2 ==> Weather(args, weather).output == Message(WeatherArity)
  {
  }

  // ---------------------------------------------------------------------------
  // Result codes

  /**
   * `get` stops after the load request on the two load errors, and fetches the
   * contents only for any other load result, where the contents reply decides.
   */
  lemma GetResultCodes(path: string, load: LoadJson, got: GetJson)
    ensures var o := Get([path], load, got);
      && (load.result == "error_bad_request" ==> o == Outcome([LoadUrl(path)], Message(NotFound)))
      && (load.result == "error_datasource" ==> o == Outcome([LoadUrl(path)], Message(NotParsed)))
      && (|o.requests| == 2 <==> load.result != "error_bad_request" && load.result != "error_datasource")
      && (|o.requests| == 2 ==>
            && o.requests[1] == BackendUrl + "/getcsv"
            && o.output == (if got.result == "error_bad_request" then Message(NoFileLoaded)
                            else if got.result == "error_datasource" then Message(NotParsed)
                            else if got.data.Some? then Grid(got.data.value)
                            else Undefined))
  {
  }

  /** Only a contents reply that is not an error and carries an array is shown as a table, of exactly that array. */
  lemma GetShowsTable(path: string, load: LoadJson, got: GetJson)
    ensures Get([path], load, got).output.Grid? <==>
      && load.result != "error_bad_request" && load.result != "error_datasource"
      && got.result != "error_bad_request" && got.result != "error_datasource"
      && got.data.Some?
    ensures Get([path], load, got).output.Grid? ==> Get([path], load, got).output.data == got.data.value
  {
  }

  /** `stats` maps the two error codes to messages and shows the counts for any other result. */
  lemma StatsResultCodes(stats: StatsJson)
    ensures stats.result == "error_bad_request" ==> Stats([], stats).output == Message(NoFileLoaded)
    ensures stats.result == "error_datasource" ==> Stats([], stats).output == Message(NotParsed)
    ensures stats.result != "error_bad_request" && stats.result != "error_datasource" ==>
      Stats([], stats).output ==
        Message("Rows: " + Text.IntToString(stats.rows) + ", Columns: " + Text.IntToString(stats.columns))
  {
  }

  /** `weather`: one message for bad arguments, one shared by the two retrieval errors, else the temperature. */
  lemma WeatherResultCodes(lat: string, lon: string, weather: WeatherJson)
    ensures Weather([lat, lon], weather).requests == [WeatherUrl(lat, lon)]
    ensures weather.result == "error_bad_request" ==> Weather([lat, lon], weather).output == Message(InvalidArguments)
    ensures weather.result == "error_datasource" || weather.result == "error_bad_json" ==>
      Weather([lat, lon], weather).output == Message(NoWeather)
    ensures weather.result !in {"error_bad_request", "error_datasource", "error_bad_json"} ==>
      Weather([lat, lon], weather).output == Message("Temperature (F): " + weather.temperature)
  {
  }

  // ---------------------------------------------------------------------------
  // Mocks

  /** The mocks keep the real handlers' arity errors and answer only their one fixed input. */
  lemma MocksAnswerFixedInputs(args: seq<string>)
    ensures MockGet(args) == Message("[0,Sol,0,0,0]") <==> args == ["data/stars/one-star.csv"]
    ensures |args| != 1 ==> MockGet(args) == Message(GetArity)
    ensures MockStats(args) == (if |args| == 0 then Message("Rows: 1, Columns: 5") else Message(StatsArity))
    ensures MockWeather(args) == Message("61") <==> args == ["38", "-77"]
    ensures |args| != 2 ==> MockWeather(args) == Message(WeatherArity)
  {
    if |args| == 1 && args[0] == "data/stars/one-star.csv" {
      assert args == ["data/stars/one-star.csv"];
    }
    if |args| == 2 && args[0] == "38" && args[1] == "-77" {
      assert args == ["38", "-77"];
    }
  }

  // ---------------------------------------------------------------------------
  // Handlers behind the dispatcher

  /**
   * With `stats` registered, the dispatcher passes the typed arguments through and
   * the handler, not the dispatcher, rejects them: `stats asdf` is an arity error and
   * `stats` with no file loaded reports that.
   */
  lemma StatsThroughDispatcher(commands: map<string, Handler>, reply: StatsJson)
    requires reply.result == "error_bad_request"
    ensures var registered := commands["stats" := (args: seq<string>) => Stats(args, reply).output];
      && Dispatch(registered, "stats asdf") == Message(StatsArity)
      && Dispatch(registered, "stats") == Message(NoFileLoaded)
  {
    ParseNameThenArgs("stats", "asdf");
    assert Text.Split("asdf", ' ') == ["asdf"] by { Text.SplitWithout("asdf", ' '); }
    ParseWord("stats");
  }
}
