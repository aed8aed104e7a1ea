# Command-terminal REPLs and CSV backend, in Dafny

This project models a small web REPL system and proves properties of the model:

- the frontend's command registry and dispatcher, which splits an input line on single spaces and runs the named handler;
- the older, first-sprint version of that dispatcher;
- the CSV table element with its padding and accessibility labels;
- the `get`, `stats` and `weather` command handlers, with their argument checks and result-code messages, and their three mocks;
- the stand-alone mock REPL page (`src/main.ts`, with its compiled twin `src/main.js`), with its command and output logs, its loaded CSV and its `csvAsString` printer;
- the Java backend:
  - `CSVParser` with its counts and its factory-driven `create`;
  - the `IntegerFactory` and `ListStringFactory` row factories;
  - the shared `CSVData` state;
  - the `loadcsv`, `getcsv` and `stats` routes.

Each source object whose fields change is a Dafny `class`, with `modifies` clauses on the methods that change them. Examples are the command registry, the mock REPL page, `CSVParser` with its reader, `CSVData` and the load route. Each of these methods is proved against a specification function: `Dispatch`, `Step`/`Run`, `WordsIn`/`CharsIn`/`CreateRange` and `LoadDecision`. Lemmas then prove what the source promises about those functions. The pure code is written as functions and lemmas: the handlers, the parser, the factories, getStats and the JSON encoding.

The library behaviour the system relies on is modelled exactly (module `Text`):

- JavaScript's `split(" ")` keeps empty segments.
- Java's `split(",")` returns the whole string when there is no comma, and otherwise drops the trailing empty segments.
- `StringTokenizer(line, ",| ")` skips empty tokens.
- `Integer.parseInt` accepts an optional sign, then decimal digits, with a value inside the 32-bit range.

`JSON.stringify` on strings and string arrays follows section 7 of RFC 8259, with ECMAScript's choice of escapes (module `Json`). The model adds a decoder, which round-trip lemmas connect to the encoder.

Inputs that the system reads from outside are parameters of the model:

- The backend's JSON replies to the frontend handlers are records passed in; the handlers never call `fetch`.
- A file is a sequence of lines without terminators.
- The file system is a map from paths to lines.
- A handler's promise is represented by the value it settles to.

Where the code's behaviour is surprising, the model follows the code:

- The registry accepts any string as a command name, the empty one included (frontend/src/Terminal.tsx:120-128), so `DispatchEmpty` requires that nothing is registered under `""`.
- The mock REPL's first guard (`length < 1 && length > 2`, src/main.ts:99) can never hold. It is modelled as written, so inputs of three or more tokens are judged by their first token.
- The `stats` route indexes row 0 of the stored rows. On a loaded file without data rows it throws, which the model records as the `Thrown` reply, whereas the frontend test expects a count there. This is taken as the code's behaviour and is not corrected.
- The frontend test of `get data/stars/one-star.csv` (frontend/src/Terminal.test.tsx:254-275) expects the header row `StarID,ProperName,X,Y,Z` as table row 1. The backend's `create` reads and discards the first line (backend/src/main/java/edu/brown/cs/student/csv/CSVParser.java:118), so the header never reaches `getcsv`. `Backend.LoadThenGet` models the skip.

## Model

| member | source | states |
|---|---|---|
| Terminal.ParseRoundTrip | frontend/src/Terminal.tsx:131-133 | joining the name and the arguments with single spaces gives back the input exactly; there are as many arguments as spaces, and no token contains a space |
| Terminal.ParseEmpty | frontend/src/Terminal.tsx:131-133 | the empty input has the name `""` and no arguments |
| Terminal.ParseNameThenArgs | frontend/src/Terminal.tsx:131-133 | a space-free word, then a space, then any text: the word is the name and the text's space-split segments, empty ones included, are the arguments |
| Terminal.ParseWord | frontend/src/Terminal.tsx:131-133 | a space-free input is a name with no arguments |
| Terminal.DispatchOutcome | frontend/src/Terminal.tsx:136-141 | a registered name gives exactly its handler's result on the parsed arguments, with no check of its own; any other name gives exactly "Error - unknown command." |
| Terminal.DispatchEmpty | frontend/src/Terminal.tsx:131-141 | the empty input is an unknown command when nothing is registered under `""` |
| Terminal.DispatchUnregistered | frontend/src/Terminal.tsx:136-141 | an unregistered word is an unknown command, with or without arguments after it |
| Terminal.DispatchAfterRegister | frontend/src/Terminal.tsx:120-122 | after registering `f` under a name, inputs with that name run `f`, and every other input gives the same output as before |
| Terminal.OutputSink.AddOutput | frontend/src/Terminal.tsx:143 | the reported output is appended to everything reported before |
| Terminal.CommandRegistry.constructor | frontend/src/Terminal.tsx:106 | the registry starts empty |
| Terminal.CommandRegistry.RegisterCommand | frontend/src/Terminal.tsx:120-122 | the name now maps to the handler, replacing any earlier one; every other name keeps its entry or its absence |
| Terminal.CommandRegistry.Get | frontend/src/Terminal.tsx:136 | the lookup finds a handler exactly when the name is registered, and then finds that name's handler |
| Terminal.CommandRegistry.ProcessInput | frontend/src/Terminal.tsx:130-144 | exactly one output is reported, and it is `Dispatch` of the input; the registry is not in the modifies clause, so it cannot change |
| LegacyTerminal.AgreesWithFrontend | src/Terminal.tsx:77-87 | the older dispatcher gives the same result as the frontend one for registered names; for other names its error is "Error - unknown command", the frontend's text without the final period |
| LegacyTerminal.RegisterOverwrites | src/Terminal.tsx:73-75 | registering again under a name replaces the earlier handler: the name, with or without arguments, runs the new handler on exactly those arguments |
| CsvTable.WidthIsMaximum | frontend/src/CSVTable.tsx:29-35 | `Width` is the maximum row length: no row is longer, some row reaches it unless it is 0, and it is 0 for an empty table |
| CsvTable.MaxCol | frontend/src/CSVTable.tsx:29-35 | the `forEach` loop computes `Width`: no row is longer than the result, and some row reaches it when it is positive |
| CsvTable.RenderRow | frontend/src/CSVTable.tsx:38-46 | the row's label is "row r of table" (1-based); the row has exactly `maxCol` cells; cell `i` holds the row's own value, or `""` past the row's end, and is labelled "row r, column c of table, value is v" |
| CsvTable.Render | frontend/src/CSVTable.tsx:37-50 | the table's label is "table of CSV data"; it has one rendered row per input row, in order, each with as many cells as the longest row |
| CsvTable.PaddingKeepsRow | frontend/src/CSVTable.tsx:42 | a padded row starts with the row's own cells, only empty cells follow, and the row is never cut short |
| Commands.ArityBeforeRequests | frontend/src/Commands.tsx:14-17 | `get` contacts the backend exactly when it has one argument, `stats` when it has none and `weather` when it has two; otherwise each returns its fixed arity error |
| Commands.GetResultCodes | frontend/src/Commands.tsx:19-35 | a load of `error_bad_request` gives "Error - file could not be found or accessed." and a load of `error_datasource` gives "Error - file could not be read or parsed.", with no second request; for any other load result, `getcsv` is fetched and its reply maps to "no file is loaded", "could not be read or parsed", the table, or `undefined` |
| Commands.GetShowsTable | frontend/src/Commands.tsx:32-34 | a table is shown exactly when neither reply is an error and the contents reply carries an array, and the table shows that array |
| Commands.StatsResultCodes | frontend/src/Commands.tsx:50-57 | `error_bad_request` gives "no file is loaded", `error_datasource` gives "could not be read or parsed", and any other result gives "Rows: r, Columns: c" |
| Commands.WeatherResultCodes | frontend/src/Commands.tsx:71-83 | one request to the weather URL; `error_bad_request` gives "invalid arguments"; `error_datasource` and `error_bad_json` both give "weather not able to be retrieved"; anything else gives "Temperature (F): t" |
| Commands.MocksAnswerFixedInputs | frontend/src/Commands.tsx:91-136 | `mockGet` answers "[0,Sol,0,0,0]" exactly for `data/stars/one-star.csv`; `mockStats` answers "Rows: 1, Columns: 5" when it has no arguments; `mockWeather` answers "61" exactly for `38 -77`; each keeps the real handler's arity errors |
| Commands.StatsThroughDispatcher | frontend/src/Commands.tsx:45-52 | behind the dispatcher, `stats asdf` is rejected by the handler's arity check, and `stats` with no file loaded reports that |
| MockedJson.FixtureLookup | mocks/mockedJson.ts:30-38 | the fixture map finds fixtures by name and has no `randomCSV` |
| MockRepl.GetStats | src/main.ts:165-171 | two numbers: the row count, then, for a non-empty CSV, the first row's length; the second is 0 exactly for an empty CSV or an empty first row |
| MockRepl.FixtureStats | src/main.ts:165-171 | the row and column counts of each fixture, among them `[0,0]` for the empty CSV and `[1,0]` for `[[]]` |
| MockRepl.CsvAsString | src/main.ts:148-157 | the loop builds `CsvLayout`: `"[]"` for no rows; otherwise `"["`, then `"\n\t"` + JSON + `","` for every row but the last, then `"\n\t"` + JSON of the last row + `"\n]"`; the printed text reads back as the CSV |
| MockRepl.LayoutRoundTrip | src/main.ts:148-157 | parsing the printed form gives back the CSV |
| MockRepl.LayoutInjective | src/main.ts:148-157 | two CSVs that print the same are equal |
| MockRepl.SingleRowLayout | src/main.ts:153-155 | a one-row CSV prints as `"[\n\t"` + its JSON array + `"\n]"` |
| MockRepl.Run | src/main.ts:94-128 | replaying a command log gives one output per command |
| MockRepl.RunSnoc | src/main.ts:94-128 | replaying one more command advances the replay of the earlier ones by that command |
| MockRepl.OutputsArePrefixes | src/main.ts:94-128 | each output in a replay, once written, is never changed by later commands |
| MockRepl.StepGet | src/main.ts:101-110 | `get <name>` loads and prints a known fixture; for an unknown name it prints "ERROR - File unable to be found or opened." and keeps the loaded CSV |
| MockRepl.StepStats | src/main.ts:114-121 | `stats` prints "Rows: r, Columns: c" for the loaded CSV, or "ERROR - No CSV file loaded.", and never changes what is loaded |
| MockRepl.OnlyGetLoads | src/main.ts:104-107 | the loaded CSV changes only through `get <name>` with a known fixture, and then becomes that fixture |
| MockRepl.ThreeOrMoreTokens | src/main.ts:99 | the first guard never holds, so an input of three or more tokens is judged by its first token alone |
| MockRepl.StatsIgnoresExtraArguments | src/main.ts:99-121 | `stats a b` behaves exactly like `stats` |
| MockRepl.GetWithExtraArguments | src/main.ts:99-124 | `get a b` is an unknown command and keeps the loaded CSV |
| MockRepl.StepWord | src/main.ts:122-124 | a one-token input other than `stats` is an unknown command and keeps the loaded CSV |
| MockRepl.StepPair | src/main.ts:111-113 | a two-token input not starting with `get` is an unknown command and keeps the loaded CSV |
| MockRepl.AdvanceTwice | src/main.ts:94-128 | an input that keeps the loaded CSV prints the same line when given twice |
| MockRepl.StatsIdempotent | src/main.ts:114-121 | `stats` twice in a row, after any history, prints the same line twice and loads nothing |
| MockRepl.Repl.constructor | src/main.ts:79-88 | empty logs, nothing loaded, empty input box; the state is the replay of the empty log |
| MockRepl.Repl.GetCommands | src/main.ts:180-182 | the command log, which replays to the output log |
| MockRepl.Repl.GetOutputs | src/main.ts:188-190 | the output log: one entry per command, each the output its command had when it was submitted |
| MockRepl.Repl.ProcessInput | src/main.ts:94-128 | appends the raw input to the command log and exactly one output (`Step`'s) to the output log, updates the loaded CSV as `Step` says, and keeps both logs equal to the replay of the command log |
| MockRepl.Repl.ClearHistory | src/main.ts:195-199 | both logs are emptied and the CSV is unloaded |
| MockRepl.Repl.SetInput | src/main.ts:205-210 | puts text in the input box and changes nothing else |
| MockRepl.Repl.HandleKeyPress | src/main.ts:57-63 | only Enter submits the box's text and then empties the box; any other key changes nothing |
| MockRepl.Repl.HandleClick | src/main.ts:69-75 | a click submits the box's text and then empties the box |
| Json.EscapePlain | src/main.ts:151 | `JSON.stringify` writes a string's body verbatim exactly when it has no control character, quote or backslash |
| Json.QuoteRoundTrip | src/main.ts:151 | every JSON string literal that is written parses back to its string |
| Json.StringArrayRoundTrip | src/main.ts:151 | every JSON string array that is written parses back to its array |
| Text.SplitJoin | frontend/src/Terminal.tsx:131 | joining the segments of `split(" ")` with the separator gives back the input |
| Text.SplitShape | frontend/src/Terminal.tsx:131 | `split` gives one more segment than there are separators, and no segment contains one |
| Text.JavaSplitSpec | backend/src/main/java/edu/brown/cs/student/csv/CSVParser.java:83 | Java's `split(",")` gives the whole string when there is no comma; otherwise it gives a prefix of JavaScript's split, the cut-off part holds only empty segments, and the last kept segment is not empty |
| Text.TokensAreNonEmptySegments | backend/src/main/java/edu/brown/cs/student/csv/CSVParser.java:90 | the tokenizer's tokens are exactly the non-empty segments between delimiters |
| Text.TokensShape | backend/src/main/java/edu/brown/cs/student/csv/CSVParser.java:90 | every token is non-empty and contains no delimiter |
| Text.CountTokensAtMostLength | backend/src/main/java/edu/brown/cs/student/csv/CSVParser.java:90 | a line has no more tokens than characters |
| Text.ParseInt | backend/src/main/java/edu/brown/cs/student/csv/IntegerFactory.java:14 | a parsed value is within the 32-bit range, and the text starts with a digit or a sign |
| Text.ParseUnsigned | backend/src/main/java/edu/brown/cs/student/csv/IntegerFactory.java:14 | a digit string whose value is at most 2^31-1 parses to that value |
| Text.ParsePlus | backend/src/main/java/edu/brown/cs/student/csv/IntegerFactory.java:14 | a plus sign before such a digit string is accepted and leaves the value unchanged |
| Text.ParseNegative | backend/src/main/java/edu/brown/cs/student/csv/IntegerFactory.java:14 | a minus sign before a digit string whose value is at most 2^31 parses to the negated value |
| Text.ParseOutOfRange | backend/src/main/java/edu/brown/cs/student/csv/IntegerFactory.java:14-17 | a digit string whose value exceeds 2^31-1 is rejected, with or without a plus sign |
| Text.ParseNegativeOutOfRange | backend/src/main/java/edu/brown/cs/student/csv/IntegerFactory.java:14-17 | a minus sign before a digit string whose value exceeds 2^31 is rejected |
| Text.IntRoundTrip | backend/src/main/java/edu/brown/cs/student/csv/IntegerFactory.java:14 | the decimal rendering of every 32-bit integer parses back to it |
| RowFactories.IntegerCreate | backend/src/main/java/edu/brown/cs/student/csv/IntegerFactory.java:9-18 | a failure carries the rejected row; a success comes from a one-cell row and is a 32-bit value |
| RowFactories.ListStringCreate | backend/src/main/java/edu/brown/cs/student/csv/ListStringFactory.java:9-11 | never fails, for rows of any length, and gives the row unchanged |
| RowFactories.IntegerNeedsOneCell | backend/src/main/java/edu/brown/cs/student/csv/IntegerFactory.java:10-12 | a row of other than one cell is rejected, whatever it holds |
| RowFactories.IntegerAcceptsNumeralsOnly | backend/src/main/java/edu/brown/cs/student/csv/IntegerFactory.java:14-17 | an accepted cell is an optional sign followed by one or more digits, so an empty cell or a non-digit is rejected |
| RowFactories.IntegerNumeralValue | backend/src/main/java/edu/brown/cs/student/csv/IntegerFactory.java:13-17 | a one-cell row holding a digit string, bare or after `+` or `-`, gives the numeral's signed value exactly when that value is a 32-bit integer, and fails otherwise |
| RowFactories.IntegerRoundTrip | backend/src/main/java/edu/brown/cs/student/csv/IntegerFactory.java:14 | a one-cell row holding the decimal rendering of a 32-bit integer gives that integer |
| CsvParser.CreateRange | backend/src/main/java/edu/brown/cs/student/csv/CSVParser.java:123-129 | a successful result has one object per line of the range |
| CsvParser.LineReader.constructor | backend/src/main/java/edu/brown/cs/student/csv/CSVParser.java:77 | an open reader, positioned at the first line |
| CsvParser.LineReader.ReadLine | backend/src/main/java/edu/brown/cs/student/csv/CSVParser.java:88 | the next line, advancing by one; `null` (`None`) at the end; an `IOException` once the reader is closed |
| CsvParser.LineReader.Close | backend/src/main/java/edu/brown/cs/student/csv/CSVParser.java:96 | the reader becomes closed |
| CsvParser.Parser.constructor | backend/src/main/java/edu/brown/cs/student/csv/CSVParser.java:24-38 | keeps the reader and the factory; all four counters start at 0 |
| CsvParser.Parser.Count | backend/src/main/java/edu/brown/cs/student/csv/CSVParser.java:74-102 | the column count is the number of Java-split cells of the header, unchanged when there are no lines; each later line adds its tokens to `wordCount`, its length to `characterCount` and one to `rowCount`; the reader ends closed; a closed reader throws before any counter changes |
| CsvParser.Parser.Create | backend/src/main/java/edu/brown/cs/student/csv/CSVParser.java:111-144 | skips the header and returns `CreateRange` over the remaining lines, one object per line in file order, and closes the reader; the first rejected row ends the call with the factory's failure; a closed reader throws |
| CsvParser.CreateRangePrefixFailure | backend/src/main/java/edu/brown/cs/student/csv/CSVParser.java:137-140 | once a row fails, the whole result is that failure, whatever follows it |
| CsvParser.CreateRangeSpec | backend/src/main/java/edu/brown/cs/student/csv/CSVParser.java:123-129 | succeeds exactly when the factory accepts every line's cells; element `i` is then the factory's object for line `lo + i`; a failure is the factory's failure on the first line it rejects |
| CsvParser.ListStringRows | backend/src/main/java/edu/brown/cs/student/csv/CSVParser.java:125-128 | with the string-list factory, the result never fails and is the comma-split lines verbatim |
| CsvParser.NumeralHasNoComma | backend/src/main/java/edu/brown/cs/student/csv/CSVParser.java:125 | a decimal numeral is a single cell |
| CsvParser.IntegerRows | backend/src/main/java/edu/brown/cs/student/csv/CSVParser.java:123-129 | 32-bit integers written one per line come back from the integer factory as written |
| CsvParser.WordsAtMostCharacters | backend/src/main/java/edu/brown/cs/student/csv/CSVParser.java:90-91 | the word total of any range of lines is at most its character total |
| CsvData.CsvData.constructor | backend/src/main/java/edu/brown/cs/student/csv/CSVData.java:19-22 | the given rows, not loaded |
| CsvData.CsvData.Empty | backend/src/main/java/edu/brown/cs/student/csv/CSVData.java:24-26 | no rows (`null`), not loaded |
| CsvData.CsvData.GetData | backend/src/main/java/edu/brown/cs/student/csv/CSVData.java:33-43 | `null` when nothing is stored; otherwise a row-by-row copy equal to the stored rows |
| CsvData.CsvData.SetData | backend/src/main/java/edu/brown/cs/student/csv/CSVData.java:50-52 | replaces the rows and leaves the loaded flag alone |
| CsvData.CsvData.GetIsLoaded | backend/src/main/java/edu/brown/cs/student/csv/CSVData.java:59-61 | the loaded flag |
| CsvData.CsvData.SetIsLoaded | backend/src/main/java/edu/brown/cs/student/csv/CSVData.java:68-70 | replaces the flag and leaves the rows alone |
| LoadRoute.LoadHandler.constructor | backend/src/main/java/edu/brown/cs/student/server/LoadHandler.java:26-29 | no path yet, and the given shared state |
| LoadRoute.LoadHandler.Handle | backend/src/main/java/edu/brown/cs/student/server/LoadHandler.java:42-71 | remembers the requested path and echoes it in the reply; each refusal gives its code and leaves the rows and the flag as they were; a success stores the parsed rows, sets the flag and answers `success`; a state where loaded implies rows stays that way |
| LoadRoute.LoadHandler.Respond | backend/src/main/java/edu/brown/cs/student/server/LoadHandler.java:81-90 | the reply carries the given result and the last requested path |
| LoadRoute.LoadResultCodes | backend/src/main/java/edu/brown/cs/student/server/LoadHandler.java:47-67 | no path gives `error_bad_request`; a path outside `data/` or a missing file gives `error_datasource`; a load succeeds exactly for an existing file under `data/` |
| LoadRoute.AnyDataFileLoads | backend/src/main/java/edu/brown/cs/student/server/LoadHandler.java:57-62 | every existing file under `data/` loads, even a malformed one, and what is stored is its comma-split lines after the header |
| GetRoute.GetHandler.constructor | backend/src/main/java/edu/brown/cs/student/server/GetHandler.java:19-21 | the given shared state |
| GetRoute.GetHandler.Handle | backend/src/main/java/edu/brown/cs/student/server/GetHandler.java:34-48 | `error_bad_request` before a load; `error_datasource` when loaded without rows; otherwise `success` with the stored rows; failures carry no data; never `error_datasource` in a state where loaded implies rows; nothing is modified |
| GetRoute.GetHandler.SuccessResponse | backend/src/main/java/edu/brown/cs/student/server/GetHandler.java:57-66 | `success` with the stored rows |
| GetRoute.GetHandler.FailureResponse | backend/src/main/java/edu/brown/cs/student/server/GetHandler.java:75-83 | only the result code |
| StatsRoute.StatsHandler.constructor | backend/src/main/java/edu/brown/cs/student/server/StatsHandler.java:15-17 | the given shared state |
| StatsRoute.StatsHandler.Handle | backend/src/main/java/edu/brown/cs/student/server/StatsHandler.java:20-37 | `error_bad_request` before a load; `error_datasource` when loaded without rows; otherwise the number of rows and the size of row 0; an exception when there is no row 0; nothing is modified |
| StatsRoute.StatsHandler.SuccessResponse | backend/src/main/java/edu/brown/cs/student/server/StatsHandler.java:39-49 | `success` with both counts |
| StatsRoute.StatsHandler.FailureResponse | backend/src/main/java/edu/brown/cs/student/server/StatsHandler.java:51-59 | only the result code |
| Backend.Server.constructor | backend/src/main/java/edu/brown/cs/student/server/Server.java:25-30 | one fresh, unloaded `CSVData`, shared by the three routes |
| Backend.LoadThenGet | backend/src/main/java/edu/brown/cs/student/server/Server.java:25-29 | on a fresh server, loading an existing file under `data/` answers `success`; `getcsv` then returns the header-less comma-split lines; the frontend's `get` shows exactly them as a table |
| Backend.RefusedLoadThenGet | backend/src/main/java/edu/brown/cs/student/server/LoadHandler.java:52-54 | a path outside `data/`, or a missing file, is refused with `error_datasource`; a later `getcsv` is `error_bad_request`; the frontend shows "Error - file could not be read or parsed." |
| Backend.LoadThenStats | backend/src/main/java/edu/brown/cs/student/server/StatsHandler.java:33-35 | after loading a file, `stats` reports the number of data lines and the cell count of the first data line; a file without data lines makes the route throw |
| Backend.StatsShown | frontend/src/Commands.tsx:56 | the frontend shows a successful stats reply as "Rows: r, Columns: c" |

## Left out

- DOM and React rendering and event wiring, such as the input element, `logToRepl`, the React components and `index.tsx`/`App.tsx`. The mock REPL keeps only the input box's text.
- Network and asynchrony: `fetch`, promise chaining and overlapping submissions. Backend replies are parameters, and a handler's promise is its settled value.
- HTTP routing and JSON serialization on the backend (Spark, Moshi). Replies are records holding the fields the JSON would carry.
- A successful `stats` reply is not passed through the frontend. A route that throws (`Thrown`) would reach the frontend as an HTTP error, and how the frontend then rejects is not modelled.
- `WeatherHandler`, which calls a remote weather service and formats floating point. The stars, the k-d tree, `Main.java` and `src/CommandTerminal.tsx`, which does not compile, are not part of this model.
- `Reader`/`BufferedReader`: a file is a sequence of lines, so line terminators and read buffering are not modelled. After a factory failure the model's reader keeps its position and stays open, as the source's does, since `create` skips `close` on that path.
- `CsvData.CsvData.GetData`: the model works on values, so it shows only that the copy equals the stored rows. That later changes to the copy cannot reach the stored rows (Java aliasing) follows from value semantics and is not stated separately.
- `CsvParser.Parser.Count`: the counters are unbounded integers. Java's `int` counters would wrap past 2^31-1.
- `CsvParser.Parser.Count`: `line.length()` counts UTF-16 code units. The model counts characters, and the two differ for characters outside the Basic Multilingual Plane.
- `Text.ParseInt`: only the ASCII digits are accepted. `Integer.parseInt` also accepts other Unicode decimal digits.
- `Commands.Get`: `instanceof Array` is taken as "the reply carries an array of string arrays". A reply whose rows are not strings is not represented.
- `MockRepl.Repl.ProcessInput`: the two `logToRepl` calls only write to the page and are left out.
- `Json.EscapeChar`: ECMAScript writes a lone surrogate as `\udXXX`. A Dafny `char` is a Unicode scalar value, so lone surrogates cannot occur in the model and that escape is not modelled.
- `Commands.Get`: the path is put into the `loadcsv` query unencoded (frontend/src/Commands.tsx:17), so a path holding `+`, `%` or `&` would reach the load route decoded differently. The integration lemmas pass the raw path as the query value, which is exact only for paths without those characters.
