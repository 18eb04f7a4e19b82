# DINO data ingestion portal: a Dafny model

This project models the DINO (Data Ingestion Non Optimized) portal. The portal
is a Next.js application. Its users pick `.txt` files and upload them to Azure
Blob Storage under `database/table/`. They then see the table's file count and
total ingested size, a Databricks job is submitted and the cost is refreshed.
Each step reports back through toast notifications.

The model covers six parts of the portal:

- `toasts.dfy` (`Toasts`): the `useToast` hook. A `ToastQueue` class holds the
  `toasts` list. `toast` appends to it and `dismissToast` filters it by id.
- `portal.dfy` (`Portal`): the `DataIngestionPortal` page. A class holds the
  page's state. Around it are `handleUpload`, `updateFileCount`,
  `updateTotalDataIngested`, the input handlers that set the state, and the
  job-submission and cost steps that `handleUpload` runs inline.
- `azure_upload.dfy` (`AzureUpload`): the browser client. `uploadToBlob` turns
  whatever the upload request settles to into an `UploadResult`.
  `getFileCount` and `getTotalDataIngested` map a metrics response to a number
  or to an error with a prefixed message.
- `upload_api.dfy` (`UploadApi`): the `POST /api/upload` route. It checks the
  form fields, the `.txt` suffix and the storage configuration, in that order,
  and then writes the blob `database/table/<file name>`.
- `file_count_api.dfy` (`FileCountApi`) and `total_data_api.dfy`
  (`TotalDataApi`): the `GET /api/file-count` and `GET /api/total-data`
  routes. Each has the method and parameter guards, the configuration check,
  the `database/table/` listing prefix, and the loop that counts the listed
  blobs or sums their lengths.
- `js_core.dfy` (`JsCore`) and `api_common.dfy` (`ApiCommon`): the JavaScript
  semantics the code relies on. These are truthiness, `error instanceof Error
  ? error.message : fallback`, promise settlement, `indexOf`, `endsWith`,
  number-to-string, array-to-string, and the HTTP status codes of RFC 9110
  sections 15.3.1, 15.5.1, 15.5.6 and 15.6.1.

Every network, SDK, file-system and clock call becomes an input to the model:

- Each `fetch`, formidable parse, `readFileSync`, blob upload and blob
  listing becomes a `Settled<T>` value: `Resolved(value)` or
  `Rejected(thrown)`.
- `Date.now()` becomes `clock`. The k-th toast of one `handleUpload` call gets
  the id `clock(k)`.
- The page records its outbound calls, in order, in the field
  `requests`. That is how "files are uploaded one at a time, in selection
  order" and "the four follow-up steps run in this order" become statements
  about state.

A few modelling choices:

- **Captured values.** `handleUpload` is a closure over one render's
  `files`, `database` and `table`. So `updateFileCount`,
  `updateTotalDataIngested` and the upload loop take those values as
  parameters. They do not re-read the state.
- **Progress.** `uploadProgress` is advanced in steps of `100 / files.length`
  percent. The model keeps the number of steps, `progressSteps`, so the
  displayed value is `100 * progressSteps / files.length` up to rounding: the
  code adds `(1 / files.length) * 100` in floating point, so three steps out
  of three show 99.99999999999999.
- **Upload route.** `uploadToBlob` posts to `/api/upload-adls`. The route
  modelled here is `pages/api/upload.ts`, which serves `/api/upload`. The code
  is followed as written: the two modules are not wired together, and the
  upload request is recorded as the page's `UploadFileRequest`.
- **Disabled button.** The upload button is disabled while an upload runs,
  when nothing is selected, and when the database or the table is empty
  (`page.tsx:225`). From the button, then, the target guard of
  `handleUpload` never fires. `HandleUpload` models the function itself, so
  it also covers an empty selection and that guard.

## Model

| member | source | states |
|---|---|---|
| Toasts.Entry | frontend/dino-app/src/hooks/use-toast.ts:20-23 | the new entry carries the given id, title and description; an omitted variant becomes `Default` |
| Toasts.Without | frontend/dino-app/src/hooks/use-toast.ts:30 | no entry with the id remains, the list never grows, and it shrinks exactly when some entry had the id |
| Toasts.WithoutIsSubsequence | frontend/dino-app/src/hooks/use-toast.ts:30 | the surviving entries keep their original relative order |
| Toasts.WithoutCounts | frontend/dino-app/src/hooks/use-toast.ts:30 | every entry with another id survives as often as it occurred; every entry with the id is removed, not only the first |
| Toasts.WithoutAbsent | frontend/dino-app/src/hooks/use-toast.ts:30 | dismissing an id no entry carries leaves the list unchanged |
| Toasts.WithoutIdempotent | frontend/dino-app/src/hooks/use-toast.ts:30 | dismissing the same id twice equals dismissing it once |
| Toasts.WithoutAppend | frontend/dino-app/src/hooks/use-toast.ts:30 | the filter distributes over concatenation |
| Toasts.SameIdBothDismissed | frontend/dino-app/src/hooks/use-toast.ts:23-30 | two toasts created at the same clock reading are both removed by one dismiss |
| Toasts.ToastQueue.constructor | frontend/dino-app/src/hooks/use-toast.ts:16 | the list starts empty |
| Toasts.ToastQueue.ShowToast | frontend/dino-app/src/hooks/use-toast.ts:20-25 | the list becomes the old list followed by exactly one new entry |
| Toasts.ToastQueue.DismissToast | frontend/dino-app/src/hooks/use-toast.ts:29-31 | the list becomes the filtered old list: no longer, and with no entry carrying the id |
| AzureUpload.IsJsonContent | frontend/dino-app/src/lib/azure-upload.ts:32 | the content-type test: the header is present, non-empty and contains `application/json` |
| AzureUpload.UploadToBlob | frontend/dino-app/src/lib/azure-upload.ts:16-51 | total on every outcome; success exactly when the content type contains `application/json`, the JSON parses and the status is 2xx, with size = file size; every failure carries size 0 and a message: the caught `Error`'s message or `Erro desconhecido durante o upload` when `fetch`, `response.json()` or `response.text()` rejects; the server's message or `Falha no upload` for a JSON answer that is not 2xx; `Resposta inesperada: <status> <statusText>` for a non-JSON answer whose text was read, 2xx included |
| AzureUpload.ServerMessageReported | frontend/dino-app/src/lib/azure-upload.ts:32-36 | a JSON 500 answer with a message fails with that message and 0 bytes |
| AzureUpload.FetchMetric | frontend/dino-app/src/lib/azure-upload.ts:59-97 | a number exactly when the response is ok and its JSON parses; every error message starts with the fetcher's prefix, followed by the server message or the default for a non-ok answer, and by the caught message (or `Erro desconhecido ocorreu`) when `fetch` or `response.json()` rejects |
| AzureUpload.GetFileCount | frontend/dino-app/src/lib/azure-upload.ts:59-74 | returns `fileCount` on an ok response; otherwise an error starting with `Falha ao recuperar a contagem de arquivos: ` followed by the server message or its default |
| AzureUpload.GetTotalDataIngested | frontend/dino-app/src/lib/azure-upload.ts:82-97 | returns `totalSize` on an ok response; otherwise an error starting with `Falha ao recuperar o total de dados ingeridos: ` followed by the server message or its default |
| UploadApi.CheckFields | frontend/dino-app/src/pages/api/upload.ts:28-39 | an unsent field crashes the request; a missing file, database or table gets `Missing required fields`; an accepted form has a non-empty database and table and either no file name or one ending in `.txt`; the form is accepted exactly when all three fields are present and non-empty and the file name is absent, empty or ends in `.txt`; it gets `File must be a TXT` exactly when they are present and a non-empty name lacks the suffix, and that is the only other 400 |
| UploadApi.UpperCaseSuffixRefused | frontend/dino-app/src/pages/api/upload.ts:37-39 | the suffix check is case-sensitive: `notes.TXT` is refused |
| UploadApi.FilenameText | frontend/dino-app/src/pages/api/upload.ts:56 | `${file.originalFilename}`: the name, or `null` when none was sent |
| UploadApi.BlobPath | frontend/dino-app/src/pages/api/upload.ts:56 | the blob path starts with the `database/table/` prefix, and the rest is the file name (`null` when absent) |
| UploadApi.Handler | frontend/dino-app/src/pages/api/upload.ts:14-66 | not-POST gets 405; a failed parse gets 500; field errors come before the configuration check; an incomplete configuration gets 500; a write happens only for an accepted form under a full configuration, to `database/table/name` with the buffer's length, and then exactly when the file could be read; a failed read gets 500 with its message and no write; 200 `File uploaded successfully` exactly when the write happened and the upload resolved; a failed upload gets 500 with its message |
| ApiCommon.Configured | frontend/dino-app/src/pages/api/upload.ts:45 | the configuration check: all three storage variables set and non-empty (the same test as `file-count.ts:20` and `total-data.ts:20`) |
| ApiCommon.QueryTruthy | frontend/dino-app/src/pages/api/file-count.ts:11 | `!value` for a query entry: falsy when missing or the empty string; an array, even an empty one, is truthy |
| ApiCommon.Admitted | frontend/dino-app/src/pages/api/file-count.ts:5-13 | a metric request passes the guards exactly when it is a GET with truthy database and table |
| ApiCommon.Render | frontend/dino-app/src/pages/api/file-count.ts:29 | `${value}` of a query entry: `undefined` when missing, the string itself, or the values joined with `,` for a repeated parameter (the same at `total-data.ts:29`) |
| ApiCommon.BlobPrefix | frontend/dino-app/src/pages/api/file-count.ts:29 | the prefix is the database, `/`, the table and a final `/`, and nothing else |
| ApiCommon.MetricFailure | frontend/dino-app/src/pages/api/file-count.ts:38-41 | the 500 of a metric route's `catch`: its message, and the caught `Error`'s message or `Unknown error` (the same at `total-data.ts:37-40`) |
| UploadApi.Crashed | frontend/dino-app/src/pages/api/upload.ts:62-65 | the 500 of the upload route's `catch`: `Error uploading file`, with `error` present exactly when an `Error` was caught, and then its message |
| ApiCommon.SegmentPrefix | frontend/dino-app/src/pages/api/file-count.ts:29 | a slash-free name followed by `/` starts another such name followed by `/` only when the names are equal |
| ApiCommon.ListedUnderOwnPrefix | frontend/dino-app/src/pages/api/upload.ts:56 | with slash-free names, a blob written for one target lies under another target's listing prefix exactly when the targets are equal |
| ApiCommon.SlashedNamesSharePrefix | frontend/dino-app/src/pages/api/total-data.ts:29 | names containing `/` can give two different targets the same prefix |
| FileCountApi.Handler | frontend/dino-app/src/pages/api/file-count.ts:4-42 | not-GET gets 405 and missing parameters get 400, both without touching storage; an incomplete configuration gets 500; otherwise it lists the `database/table/` prefix and answers 200 with the listing's length, or 500 with the listing error's message |
| TotalDataApi.LengthOrZero | frontend/dino-app/src/pages/api/total-data.ts:33 | `contentLength \|\| 0`: a blob's length, 0 when it has none |
| TotalDataApi.TotalLength | frontend/dino-app/src/pages/api/total-data.ts:31-34 | the running total of the listed lengths, in listing order; its properties are the four lemmas below |
| TotalDataApi.TotalLengthSnoc | frontend/dino-app/src/pages/api/total-data.ts:33 | one more listed blob adds its `contentLength`, or 0 when it has none |
| TotalDataApi.TotalLengthAppend | frontend/dino-app/src/pages/api/total-data.ts:31-34 | the total splits over any cut of the listing |
| TotalDataApi.TotalLengthNonNegative | frontend/dino-app/src/pages/api/total-data.ts:31-34 | with no negative lengths listed, the total is never negative |
| TotalDataApi.TotalLengthIgnoresMissing | frontend/dino-app/src/pages/api/total-data.ts:33 | a blob without a length adds nothing |
| TotalDataApi.Handler | frontend/dino-app/src/pages/api/total-data.ts:4-40 | the same guards, configuration check and prefix as the count route; 200 with the sum of the listed lengths (missing ones as 0), or 500 with the listing error's message |
| JsCore.MessageOr | frontend/dino-app/src/lib/azure-upload.ts:48 | `error instanceof Error ? error.message : fallback`, as also at `azure-upload.ts:72` and `page.tsx:50,71,110,165,184` |
| JsCore.OrElse | frontend/dino-app/src/lib/azure-upload.ts:35 | `x \|\| fallback` for an optional string: the value when it is a non-empty string, the fallback otherwise, as also at `page.tsx:104` |
| JsCore.Join | frontend/dino-app/src/pages/api/file-count.ts:29 | `values.join(",")`, which is what an array renders as in a template literal: the values in order with the separator between them |
| JsCore.EndsWith | frontend/dino-app/src/pages/api/upload.ts:37 | `endsWith`: the last characters of the string are the suffix, compared case-sensitively |
| JsCore.EndsWithAppended | frontend/dino-app/src/pages/api/upload.ts:37 | any text followed by the suffix ends with it, and a string that ends with it splits into the rest and the suffix |
| JsCore.IndexFrom | frontend/dino-app/src/lib/azure-upload.ts:32 | `indexOf` from a position: -1 exactly when the text does not occur at or after it, otherwise the first position where it occurs |
| JsCore.IndexOf | frontend/dino-app/src/lib/azure-upload.ts:32 | -1 exactly when the text occurs nowhere; otherwise the first occurrence |
| JsCore.NatToString | frontend/dino-app/src/lib/azure-upload.ts:41 | the decimal digits of the status, with no leading zero |
| JsCore.DecimalRoundTrip | frontend/dino-app/src/lib/azure-upload.ts:41 | reading back the digits written for a status gives the status again |
| Portal.JobFor | frontend/dino-app/src/app/page.tsx:131-149 | the submitted job targets the current database and table, with notebook `/dino_workspace/DINO` and task `DINO` |
| Portal.StampAppend | frontend/dino-app/src/hooks/use-toast.ts:23 | consecutive runs of toasts read consecutive clock values |
| Portal.SuccessCount | frontend/dino-app/src/app/page.tsx:96-98 | the number of successful results: the steps the progress bar advances |
| Portal.SuccessBytes | frontend/dino-app/src/app/page.tsx:91-97 | `uploadedSize`: the sizes of the successful results, summed in order |
| Portal.SentDescription | frontend/dino-app/src/app/page.tsx:101 | the success toast's text: `<name> foi enviado com sucesso para <database>.<table>.` |
| Portal.FailedDescription | frontend/dino-app/src/app/page.tsx:104-110 | the failure toast's text: `Falha ao enviar <name>: ` and the thrown message, `result.error` or the default |
| Portal.FailureShowsMessage | frontend/dino-app/src/app/page.tsx:104-110 | a failed upload's toast shows the message `uploadToBlob` reported, or `Erro desconhecido durante o upload` when it is empty |
| Portal.UploadNote | frontend/dino-app/src/app/page.tsx:96-113 | a file's one toast is destructive exactly when its upload failed |
| Portal.BatchStep | frontend/dino-app/src/app/page.tsx:93-114 | one more file adds its bytes and one progress step if it succeeded, and exactly one upload call and one toast |
| Portal.UploadToastsSplit | frontend/dino-app/src/app/page.tsx:96-113 | one toast per file, and successes plus destructive toasts equals the number of files |
| Portal.FailuresAddNoBytes | frontend/dino-app/src/app/page.tsx:91-97 | a failed upload adds no bytes, so summing the successes equals summing every result, and never goes negative |
| Portal.TwoFileBatch | frontend/dino-app/src/app/page.tsx:91-118 | two successful files of 100 and 200 bytes give 300 bytes, two steps and no destructive toast |
| Portal.FileCountNotes | frontend/dino-app/src/app/page.tsx:41-55 | no toast when the count is fetched; one destructive toast when it fails |
| Portal.TotalDataNote | frontend/dino-app/src/app/page.tsx:58-76 | the total-data toast is destructive exactly when the fetch fails |
| Portal.JobError | frontend/dino-app/src/app/page.tsx:125-161 | the job step completes exactly when the response is ok and its JSON parses; a non-ok response fails with `Falha ao submeter job: <statusText>`; a rejected `fetch` or `response.json()` fails with the caught message, or `Erro desconhecido` |
| Portal.JobNote | frontend/dino-app/src/app/page.tsx:152-167 | the job toast is destructive exactly when the submission fails |
| Portal.CostNote | frontend/dino-app/src/app/page.tsx:171-187 | the cost toast is destructive exactly when the cost fetch fails |
| Portal.DestructiveAppend | frontend/dino-app/src/app/page.tsx:79-187 | destructive toasts of two consecutive runs add up |
| Portal.RefreshToastCount | frontend/dino-app/src/app/page.tsx:121-187 | no failing step hides a later one: after the upload toasts come one toast per follow-up step, plus one for a failed count; the destructive toasts are one per failed upload and one per failed step |
| Portal.DataIngestionPortal.constructor | frontend/dino-app/src/app/page.tsx:21-31 | the initial `useState` values and an empty toast list |
| Portal.DataIngestionPortal.HasTarget | frontend/dino-app/src/app/page.tsx:42 | `database && table`: both names are non-empty, the test of `page.tsx:42,59` and, negated, of `page.tsx:80` |
| Portal.DataIngestionPortal.HandleFileChange | frontend/dino-app/src/app/page.tsx:34-38 | a non-null file list replaces the selection; null leaves it |
| Portal.DataIngestionPortal.SetDatabase | frontend/dino-app/src/app/page.tsx:208 | the database input replaces `database` |
| Portal.DataIngestionPortal.SetTable | frontend/dino-app/src/app/page.tsx:219 | the table input replaces `table` |
| Portal.DataIngestionPortal.UpdateFileCount | frontend/dino-app/src/app/page.tsx:41-55 | with a target: one count request; a fetched count replaces `totalFiles` with no toast; a failure keeps it and adds one destructive toast; without a target nothing changes |
| Portal.DataIngestionPortal.UpdateTotalDataIngested | frontend/dino-app/src/app/page.tsx:58-76 | with a target: one total request; a fetched total replaces `totalSize` and adds an info toast; a failure keeps it and adds one destructive toast; without a target nothing changes |
| Portal.DataIngestionPortal.SubmitJob | frontend/dino-app/src/app/page.tsx:125-167 | one job request for the current target and exactly one toast |
| Portal.DataIngestionPortal.UpdateCost | frontend/dino-app/src/app/page.tsx:171-187 | one cost request; fetched details replace cost, currency and timeframe with a toast; a failure keeps them and adds one destructive toast |
| Portal.DataIngestionPortal.UploadOne | frontend/dino-app/src/app/page.tsx:94-113 | one upload call, the `uploadToBlob` result, one progress step on success, and one toast |
| Portal.DataIngestionPortal.UploadBatch | frontend/dino-app/src/app/page.tsx:91-114 | the loop's bytes are the successes' sizes summed; progress grows by the success count; one upload call and one toast per file, in selection order |
| Portal.DataIngestionPortal.UploadSelection | frontend/dino-app/src/app/page.tsx:89-118 | progress restarts at 0 and ends at the success count; `totalSize` grows by the uploaded bytes; `uploading` is false and the selection empty afterwards |
| Portal.DataIngestionPortal.RefreshMetrics | frontend/dino-app/src/app/page.tsx:121-122 | file count then total data, with their requests, state updates and toasts in that order |
| Portal.DataIngestionPortal.RefreshJobAndCost | frontend/dino-app/src/app/page.tsx:124-187 | job submission then cost, with their requests, updates and toasts in that order |
| Portal.DataIngestionPortal.Refresh | frontend/dino-app/src/app/page.tsx:120-187 | the four follow-up steps in order, each one whatever the earlier ones did |
| Portal.DataIngestionPortal.UploadAndRefresh | frontend/dino-app/src/app/page.tsx:89-187 | the whole call after the guard: requests, counters, cost fields and toasts as below |
| Portal.DataIngestionPortal.HandleUpload | frontend/dino-app/src/app/page.tsx:79-188 | without a target: one destructive toast and no other change; otherwise the upload calls in selection order, then count, total, job and cost requests; selection cleared; progress = successes; `totalFiles` and `totalSize` from the fetches or kept (plus the uploaded bytes); cost fields from the fetch or kept; the toasts are one per file and then one per step |

## Left out

- JSX rendering, CSS classes and the megabyte and gigabyte display
  conversions of the page: presentation only, in floating point.
- The megabyte figure of the total-data toast, `(n / (1024 * 1024)).toFixed(2)`,
  is in floating point. It is the parameter `megabytes` of
  `UpdateTotalDataIngested`, `HandleUpload` and `TotalDataNote`.
- `${costDetails.totalCost}` is the JavaScript form of a floating-point
  number. It is the field `totalCostText` of `CostDetails`, and `totalCost` is
  a `real`.
- `getCostFromAzure`, the cost route, the job-submission route and its client
  library: calls into Azure Cost Management and Databricks. Their outcomes are
  inputs: the `Settled<CostDetails>` and `Settled<JobResponse>` values.
- `fetch`, formidable parsing, `fs.readFileSync`, the blob upload and
  `listBlobsFlat`: foreign calls, replaced by the values they settle to.
- `StorageSharedKeyCredential`, `new BlobServiceClient` (`upload.ts:49-55`)
  and `BlobServiceClient.fromConnectionString` (`file-count.ts:24-28`,
  `total-data.ts:24-28`) are assumed not to throw. In the code a throw there,
  for instance from an account name that is not a valid host name, is caught
  and answered with a 500; the model has no such outcome.
- UploadApi.Handler, FileCountApi.Handler, TotalDataApi.Handler: because of
  that assumption they do not cover a 500 from a failing credential or client
  constructor. With a full configuration the upload route always goes on to
  reading the file and then, if the read succeeds, to the write; the metric
  routes always go on to the listing.
- `FormData` and `encodeURIComponent` run in the browser client, inside the
  `try` blocks of `uploadToBlob`, `getFileCount` and `getTotalDataIngested`
  (`azure-upload.ts:17-22`, `60-61`, `83-84`). A throw there lands in the same
  `catch` as a rejected `fetch`, so a `Rejected` reply gives the same result;
  only the page's `requests` log, which still records the request, differs.
- `console.log` and `console.error`: they have no effect on state.
- `Date.now()`: the parameter `clock`. Ids are therefore not guaranteed
  unique, as in the code.
- The concurrency of `async`/`await` and React's batching of state updates:
  every awaited step and every setter runs to completion, in program order.
- AzureUpload.FetchMetric: an ok response whose JSON lacks `fileCount` or
  `totalSize` would yield `undefined`. The model assumes the field is a
  number.
- `response.text()` in the non-JSON branch of `uploadToBlob`: its value is
  only logged, so the model keeps only whether it rejected.
- Number width: JavaScript numbers are doubles, while the model's `file.size`,
  `uploadedSize` (`page.tsx:91,97,116`), `fileCount` (`file-count.ts:34`) and
  `totalSize` (`total-data.ts:33`) are unbounded integers. The model matches
  the code only while these stay below 2^53.
- Portal.DataIngestionPortal.HandleUpload: the progress value is kept as a
  step count, not as the floating-point percentage `100 * steps / N`.
