/** The browser-side client: `uploadToBlob` turns whatever the upload request
    yields into an `UploadResult`, and `getFileCount` / `getTotalDataIngested`
    turn a metrics response into a number or a prefixed error. */
module AzureUpload {
  import opened JsCore

  /** The `File` the user picked: its name and size in bytes. */
  datatype File = File(name: string, size: nat)

  datatype UploadResult = UploadResult(success: bool, size: int, error: Option<string>)

  /** The parsed JSON body of the upload response. */
  datatype UploadJson = UploadJson(message: Option<string>)

  /** The upload response: its content-type header (`None` when absent),
      status, status text, and what `response.json()` and `response.text()`
      settle to (only the one the code reads matters). */
  datatype UploadResponse = UploadResponse(contentType: Option<string>, status: nat, statusText: string,
                                           json: Settled<UploadJson>, text: Settled<string>) {
    /** `response.ok` */
    predicate Ok() {
      200 <= status <= 299
    }
  }

  const UnknownUploadError := "Erro desconhecido durante o upload"

  /** `contentType && contentType.indexOf("application/json") !== -1` */
  predicate IsJsonContent(contentType: Option<string>) {
    Present(contentType) && IndexOf(contentType.value, "application/json") != -1
  }

  /** Every failure reports no bytes and carries a message. */
  function Failed(message: string): (r: UploadResult)
    ensures !r.success && r.size == 0 && r.error == Some(message)
  {
    UploadResult(false, 0, Some(message))
  }

  /** `uploadToBlob(file, database, table)`, given what the `fetch` settled
      to. The `try`/`catch` makes it total: every path yields a result. */
  function UploadToBlob(file: File, reply: Settled<UploadResponse>): (r: UploadResult)
    ensures r.success <==>
      reply.Resolved? && IsJsonContent(reply.value.contentType) && reply.value.json.Resolved? && reply.value.Ok()
    ensures r.success ==> r.size == file.size && r.error == None
    ensures !r.success ==> r.size == 0 && r.error.Some?
    ensures reply.Rejected? ==> r.error == Some(MessageOr(reply.reason, UnknownUploadError))
    ensures reply.Resolved? && IsJsonContent(reply.value.contentType) && reply.value.json.Rejected? ==>
      r.error == Some(MessageOr(reply.value.json.reason, UnknownUploadError))
    ensures reply.Resolved? && IsJsonContent(reply.value.contentType) && reply.value.json.Resolved? && !reply.value.Ok() ==>
      r.error == Some(OrElse(reply.value.json.value.message, "Falha no upload"))
    ensures reply.Resolved? && !IsJsonContent(reply.value.contentType) && reply.value.text.Rejected? ==>
      r.error == Some(MessageOr(reply.value.text.reason, UnknownUploadError))
    ensures reply.Resolved? && !IsJsonContent(reply.value.contentType) && reply.value.text.Resolved? ==>
      r.error == Some("Resposta inesperada: " + NatToString(reply.value.status) + " " + reply.value.statusText)
  {
    match reply
    case Rejected(t) => Failed(MessageOr(t, UnknownUploadError))
    case Resolved(response) =>
      if IsJsonContent(response.contentType) then
        match response.json
        case Rejected(t) => Failed(MessageOr(t, UnknownUploadError))
        case Resolved(data) =>
          if !response.Ok() then Failed(OrElse(data.message, "Falha no upload"))
          else UploadResult(true, file.size, None)
      else
        match response.text
        case Rejected(t) => Failed(MessageOr(t, UnknownUploadError))
        case Resolved(_) => Failed("Resposta inesperada: " + NatToString(response.status) + " " + response.statusText)
  }

  /** A JSON 500 answer carrying `{ message: "disk full" }` fails with that
      message, so the batch reports it and moves on to the next file. */
  lemma ServerMessageReported(file: File, contentType: Option<string>, statusText: string, text: Settled<string>)
    requires IsJsonContent(contentType)
    ensures UploadToBlob(file, Resolved(UploadResponse(contentType, 500, statusText, Resolved(UploadJson(Some("disk full"))), text)))
         == UploadResult(false, 0, Some("disk full"))
  {
  }

  /** The parsed JSON body of a metrics response: its `message` and its number
      (`fileCount` or `totalSize`). */
  datatype MetricJson = MetricJson(message: Option<string>, value: int)

  datatype MetricResponse = MetricResponse(status: nat, json: Settled<MetricJson>) {
    predicate Ok() {
      200 <= status <= 299
    }
  }

  /** The shared shape of the two fetchers: the number on an ok response,
      otherwise an `Error` whose message is `failPrefix` followed by the
      server's message, `fallback`, or the caught error's message. */
  function FetchMetric(reply: Settled<MetricResponse>, failPrefix: string, fallback: string): (r: Result<int>)
    ensures r.Success? <==> reply.Resolved? && reply.value.Ok() && reply.value.json.Resolved?
    ensures r.Success? ==> r.value == reply.value.json.value.value
    ensures r.Failure? ==> StartsWith(r.error, failPrefix)
    ensures reply.Resolved? && !reply.value.Ok() && reply.value.json.Resolved? ==>
      r == Failure(failPrefix + OrElse(reply.value.json.value.message, fallback))
    ensures reply.Resolved? && reply.value.json.Rejected? ==>
      r == Failure(failPrefix + MessageOr(reply.value.json.reason, "Erro desconhecido ocorreu"))
    ensures reply.Rejected? ==> r == Failure(failPrefix + MessageOr(reply.reason, "Erro desconhecido ocorreu"))
  {
    match reply
    case Rejected(t) => Failure(failPrefix + MessageOr(t, "Erro desconhecido ocorreu"))
    case Resolved(response) =>
      match response.json
      case Rejected(t) => Failure(failPrefix + MessageOr(t, "Erro desconhecido ocorreu"))
      case Resolved(data) =>
        if !response.Ok() then Failure(failPrefix + OrElse(data.message, fallback))
        else Success(data.value)
  }

  const FileCountErrorPrefix := "Falha ao recuperar a contagem de arquivos: "
  const TotalDataErrorPrefix := "Falha ao recuperar o total de dados ingeridos: "

  /** `getFileCount(database, table)`, given what the `fetch` settled to. */
  function GetFileCount(reply: Settled<MetricResponse>): (r: Result<int>)
    ensures r.Success? <==> reply.Resolved? && reply.value.Ok() && reply.value.json.Resolved?
    ensures r.Success? ==> r.value == reply.value.json.value.value
    ensures r.Failure? ==> StartsWith(r.error, FileCountErrorPrefix)
    ensures reply.Resolved? && !reply.value.Ok() && reply.value.json.Resolved? ==>
      r.error == FileCountErrorPrefix + OrElse(reply.value.json.value.message, "Falha ao buscar a contagem de arquivos")
  {
    FetchMetric(reply, FileCountErrorPrefix, "Falha ao buscar a contagem de arquivos")
  }

  /** `getTotalDataIngested(database, table)`, given what the `fetch` settled to. */
  function GetTotalDataIngested(reply: Settled<MetricResponse>): (r: Result<int>)
    ensures r.Success? <==> reply.Resolved? && reply.value.Ok() && reply.value.json.Resolved?
    ensures r.Success? ==> r.value == reply.value.json.value.value
    ensures r.Failure? ==> StartsWith(r.error, TotalDataErrorPrefix)
    ensures reply.Resolved? && !reply.value.Ok() && reply.value.json.Resolved? ==>
      r.error == TotalDataErrorPrefix + OrElse(reply.value.json.value.message, "Falha ao buscar o total de dados ingeridos")
  {
    FetchMetric(reply, TotalDataErrorPrefix, "Falha ao buscar o total de dados ingeridos")
  }
}
