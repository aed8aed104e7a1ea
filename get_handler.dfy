/**
 * The `getcsv` route: the rows of the loaded file. It only reads the shared `CSVData`.
 */
module GetRoute {
  import opened Wrappers
  import opened CsvData

  /** The route's reply; a failure carries only its `result` key. */
  datatype GetResponse = GetResponse(result: string, data: Option<Grid>)

  class GetHandler {
    const data: CsvData

    constructor (data: CsvData)
      ensures this.data == data
    {
      this.data := data;
    }

    /**
     * `handle`: `error_bad_request` before a load, `error_datasource` when the loaded
     * state holds no rows, and otherwise `success` with a copy of the stored rows.
     */
    method Handle() returns (response: GetResponse)
      ensures !data.isLoaded ==> response == GetResponse("error_bad_request", None)
      ensures data.isLoaded && data.data.None? ==> response == GetResponse("error_datasource", None)
      ensures data.isLoaded && data.data.Some? ==> response == GetResponse("success", data.data)
      ensures data.LoadedHasData() ==> response.result != "error_datasource"
    {
      var loaded := data.GetIsLoaded();
      if !loaded {
        response := FailureResponse("error_bad_request");
        return;
      }
      var fileData := data.GetData();
      if fileData.None? {
        response := FailureResponse("error_datasource");
        return;
      }
      response := SuccessResponse();
    }

    /** `getSuccessResponse`: `success` with a fresh copy of the stored rows. */
    method SuccessResponse() returns (response: GetResponse)
      ensures response == GetResponse("success", data.data)
    {
      var rows := data.GetData();
      return GetResponse("success", rows);
    }

    /** `getFailureResponse`: only the result code. */
    method FailureResponse(responseType: string) returns (response: GetResponse)
      ensures response == GetResponse(responseType, None)
    {
      return GetResponse(responseType, None);
    }
  }
}
