/** GET /api/file-count: counts the blobs stored under `database/table/`. */
module FileCountApi {
  import opened JsCore
  import opened ApiCommon

  const FailureMessage := "Error fetching file count"

  /** The handler. `listing` is what storage yields for the prefix the handler
      asks for; `listedPrefix` is that prefix, or `None` when the handler
      answers without touching storage. */
  method Handler(req: QueryRequest, env: StorageEnv, listing: Settled<seq<BlobItem>>)
    returns (res: Response, listedPrefix: Option<string>)
    ensures req.verb != "GET" ==> res == MethodNotAllowed && listedPrefix == None
    ensures req.verb == "GET" && !Admitted(req) ==> res == MissingParametersResponse && listedPrefix == None
    ensures Admitted(req) && !Configured(env) ==>
      res == MetricFailure(FailureMessage, ErrorObject(NotConfiguredMessage)) && listedPrefix == None
    ensures Admitted(req) && Configured(env) ==>
      listedPrefix == Some(BlobPrefix(Render(req.database), Render(req.table)))
    ensures Admitted(req) && Configured(env) && listing.Rejected? ==>
      res == MetricFailure(FailureMessage, listing.reason)
    ensures Admitted(req) && Configured(env) && listing.Resolved? ==>
      res == Response(StatusOk, FileCountBody(|listing.value|))
  {
    if req.verb != "GET" {
      return MethodNotAllowed, None;
    }
    if !QueryTruthy(req.database) || !QueryTruthy(req.table) {
      return MissingParametersResponse, None;
    }
    if !Configured(env) {
      return MetricFailure(FailureMessage, ErrorObject(NotConfiguredMessage)), None;
    }
    listedPrefix := Some(BlobPrefix(Render(req.database), Render(req.table)));
    match listing {
      case Rejected(t) =>
        res := MetricFailure(FailureMessage, t);
      case Resolved(blobs) =>
        var fileCount := 0;
        for i := 0 to |blobs|
          invariant fileCount == i
        {
          fileCount := fileCount + 1;
        }
        res := Response(StatusOk, FileCountBody(fileCount));
    }
  }
}
