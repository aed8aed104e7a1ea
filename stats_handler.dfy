/**
 * The `stats` route: the number of rows of the loaded file and the number of cells of
 * its first row. It only reads the shared `CSVData`.
 */
module StatsRoute {
  import opened Wrappers
  import opened CsvData

  /**
   * The route's reply. `Thrown` is the `IndexOutOfBoundsException` that reading row 0
   * of a loaded but empty grid raises, which the route does not catch.
   */
  datatype StatsResponse =
    | StatsFailure(result: string)
    | StatsSuccess(rows: int, columns: int)
    | Thrown

  class StatsHandler {
    const data: CsvData

    constructor (data: CsvData)
      ensures this.data == data
    {
      this.data := data;
    }

    /**
     * `handle`: `error_bad_request` before a load, `error_datasource` when the loaded
     * state holds no rows, and otherwise the number of stored rows and the size of the
     * first one, which throws when there is no first row.
     */
    method Handle() returns (response: StatsResponse)
      ensures !data.isLoaded ==> response == StatsFailure("error_bad_request")
      ensures data.isLoaded && data.data.None? ==> response == StatsFailure("error_datasource")
      ensures data.isLoaded && data.data.Some? && |data.data.value| == 0 ==> response == Thrown
      ensures data.isLoaded && data.data.Some? && |data.data.value| > 0 ==>
        response == StatsSuccess(|data.data.value|, |data.data.value[0]|)
    {
      var loaded := data.GetIsLoaded();
      if !loaded {
        response := FailureResponse("error_bad_request");
        return;
      }
      var fileData := data.GetData();
      if fileData.None? {
        response := FailureResponse("error_datasource");
        return;
      }
      var rows := |fileData.value|;
      if rows == 0 {
        return Thrown;
      }
      var columns := |fileData.value[0]|;
      response := SuccessResponse(rows, columns);
    }

    /** `getSuccessResponse`: `success` with the two counts. */
    method SuccessResponse(rows: int, columns: int) returns (response: StatsResponse)
      ensures response == StatsSuccess(rows, columns)
    {
      return StatsSuccess(rows, columns);
    }

    /** `getFailureResponse`: only the result code. */
    method FailureResponse(responseType: string) returns (response: StatsResponse)
      ensures response == StatsFailure(responseType)
    {
      return StatsFailure(responseType);
    }
  }
}
