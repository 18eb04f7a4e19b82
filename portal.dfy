/** The `DataIngestionPortal` page: its state, and `handleUpload` with the
    refresh steps it runs after the batch. Every network call is replaced by
    the value it settles to, and the page records, in `requests`, the calls
    it makes, in order. */
module Portal {
  import opened JsCore
  import opened Toasts
  import opened AzureUpload

  /** The argument object of one `toast({ ... })` call. */
  datatype Note = Note(title: string, description: string, variant: Option<Variant>)

  /** The body posted to /api/submitJob. */
  datatype JobSpec = JobSpec(
    runName: string, taskKey: string, description: string, notebookPath: string,
    databaseName: string, tableName: string, servicePrincipalName: string)

  /** The outbound calls the page makes. */
  datatype Request =
    | UploadFileRequest(fileName: string, database: string, table: string)
    | FileCountRequest(database: string, table: string)
    | TotalDataRequest(database: string, table: string)
    | SubmitJobRequest(job: JobSpec)
    | CostRequest

  /** The response of /api/submitJob: status, status text and what
      `response.json()` settles to. */
  datatype JobResponse = JobResponse(status: nat, statusText: string, json: Settled<()>) {
    predicate Ok() {
      200 <= status <= 299
    }
  }

  /** What `getCostFromAzure()` resolves to. `totalCostText` is the number's
      JavaScript string form, used in the toast. */
  datatype CostDetails = CostDetails(totalCost: real, totalCostText: string, currency: string, timeframe: string)

  /** The job specification built for one target. */
  function JobFor(database: string, table: string): (job: JobSpec)
    ensures job.databaseName == database && job.tableName == table
    ensures job.notebookPath == "/dino_workspace/DINO" && job.taskKey == "DINO"
  {
    JobSpec("Data Ingestion Non Optimized", "DINO", "Ingestão", "/dino_workspace/DINO",
            database, table, "8541a6b4-fa5d-4897-bd76-8c4399ba1792")
  }

  /** The toasts a run of notes becomes when the k-th of them is created at
      clock reading `clock(tick + k)`. */
  function Stamp(notes: seq<Note>, clock: nat -> int, tick: nat): (ts: seq<Toast>)
    ensures |ts| == |notes|
  {
    seq(|notes|, k requires 0 <= k < |notes| => Entry(clock(tick + k), notes[k].title, notes[k].description, notes[k].variant))
  }

  /** Consecutive runs of toasts read consecutive clock values. */
  lemma StampAppend(a: seq<Note>, b: seq<Note>, clock: nat -> int, tick: nat)
    ensures Stamp(a + b, clock, tick) == Stamp(a, clock, tick) + Stamp(b, clock, tick + |a|)
  {
    var left, right := Stamp(a + b, clock, tick), Stamp(a, clock, tick) + Stamp(b, clock, tick + |a|);
    assert |left| == |right|;
    forall k | 0 <= k < |left|
      ensures left[k] == right[k]
    {
      if k >= |a| {
        assert (a + b)[k] == b[k - |a|];
        assert tick + k == tick + |a| + (k - |a|);
      }
    }
  }

  // ---- the toast texts ----

  const SentTitle := "Arquivo Enviado"
  const SentText := " foi enviado com sucesso para "
  const UploadFailedTitle := "Falha no Upload"
  const UploadFailedText := "Falha ao enviar "
  const CountFailedTitle := "Falha na Contagem de Arquivos"
  const CountFailedText := "Não foi possível obter a contagem mais recente de arquivos: "
  const TotalDataTitle := "Dados Ingeridos Atualizados"
  const TotalDataText := "Total de dados ingeridos: "
  const TotalDataFailedTitle := "Falha na Busca de Dados Ingeridos"
  const TotalDataFailedText := "Não foi possível obter o total de dados ingeridos: "
  const JobSubmittedTitle := "Job Submetido"
  const JobSubmittedText := "Job do Databricks foi submetido com sucesso."
  const JobFailedTitle := "Falha na Submissão de Job"
  const JobFailedText := "Não foi possível submeter o job para o Databricks: "
  const JobStatusText := "Falha ao submeter job: "
  const CostTitle := "Custo Atualizado"
  const CostText := "Custo total para "
  const CostFailedTitle := "Falha na Busca de Custo"
  const CostFailedText := "Não foi possível obter as informações mais recentes de custo: "
  /** The fallback of `error instanceof Error ? error.message : "Erro desconhecido"`. */
  const UnknownError := "Erro desconhecido"

  // ---- the upload batch ----

  /** The result of each file's `uploadToBlob`, in selection order. */
  function UploadResults(files: seq<File>, replies: seq<Settled<UploadResponse>>): (rs: seq<UploadResult>)
    requires |replies| == |files|
    ensures |rs| == |files|
  {
    seq(|files|, i requires 0 <= i < |files| => UploadToBlob(files[i], replies[i]))
  }

  /** How many results are successes: the steps the progress bar advanced. */
  function SuccessCount(rs: seq<UploadResult>): nat {
    if rs == [] then 0
    else SuccessCount(rs[..|rs| - 1]) + (if rs[|rs| - 1].success then 1 else 0)
  }

  /** `uploadedSize`: the sizes of the successful results, summed in order. */
  function SuccessBytes(rs: seq<UploadResult>): int {
    if rs == [] then 0
    else SuccessBytes(rs[..|rs| - 1]) + (if rs[|rs| - 1].success then rs[|rs| - 1].size else 0)
  }

  /** The sizes of all results, failed ones included. */
  function AllBytes(rs: seq<UploadResult>): int {
    if rs == [] then 0 else AllBytes(rs[..|rs| - 1]) + rs[|rs| - 1].size
  }

  function SentDescription(file: File, database: string, table: string): string {
    file.name + SentText + database + "." + table + "."
  }

  /** The `Error` thrown for a failed result carries `result.error`, or the
      default message when that is absent or empty. */
  function FailedDescription(file: File, result: UploadResult): string {
    UploadFailedText + file.name + ": " + OrElse(result.error, UnknownUploadError)
  }

  /** A failed upload's toast names the file and shows the message
      `uploadToBlob` reported, or the default when that message is empty. */
  lemma FailureShowsMessage(file: File, reply: Settled<UploadResponse>)
    requires !UploadToBlob(file, reply).success
    ensures var message := UploadToBlob(file, reply).error.value;
      FailedDescription(file, UploadToBlob(file, reply))
        == UploadFailedText + file.name + ": " + (if message == "" then UnknownUploadError else message)
  {
  }

  /** The one toast a file's upload produces. */
  function UploadNote(file: File, result: UploadResult, database: string, table: string): (n: Note)
    ensures n.variant == (if result.success then None else Some(Destructive))
  {
    if result.success then Note(SentTitle, SentDescription(file, database, table), None)
    else Note(UploadFailedTitle, FailedDescription(file, result), Some(Destructive))
  }

  /** The batch's upload toasts, one per file in selection order. */
  function UploadNotes(files: seq<File>, rs: seq<UploadResult>, database: string, table: string): (notes: seq<Note>)
    requires |rs| == |files|
    ensures |notes| == |files|
  {
    seq(|files|, i requires 0 <= i < |files| => UploadNote(files[i], rs[i], database, table))
  }

  /** The upload calls of a batch, one per file in selection order. */
  function UploadRequests(files: seq<File>, database: string, table: string): (reqs: seq<Request>)
    ensures |reqs| == |files|
  {
    seq(|files|, i requires 0 <= i < |files| => UploadFileRequest(files[i].name, database, table))
  }

  function DestructiveCount(notes: seq<Note>): nat {
    if notes == [] then 0
    else DestructiveCount(notes[..|notes| - 1]) + (if notes[|notes| - 1].variant == Some(Destructive) then 1 else 0)
  }

  /** One more file of the batch: each running quantity of the loop grows by
      that file's share. */
  lemma BatchStep(files: seq<File>, rs: seq<UploadResult>, i: nat, database: string, table: string)
    requires |rs| == |files| && i < |files|
    ensures SuccessBytes(rs[..i + 1]) == SuccessBytes(rs[..i]) + (if rs[i].success then rs[i].size else 0)
    ensures SuccessCount(rs[..i + 1]) == SuccessCount(rs[..i]) + (if rs[i].success then 1 else 0)
    ensures UploadRequests(files[..i + 1], database, table)
         == UploadRequests(files[..i], database, table) + [UploadFileRequest(files[i].name, database, table)]
    ensures UploadNotes(files[..i + 1], rs[..i + 1], database, table)
         == UploadNotes(files[..i], rs[..i], database, table) + [UploadNote(files[i], rs[i], database, table)]
  {
    assert rs[..i + 1][..i] == rs[..i];
  }

  /** Each file gets exactly one upload toast, and the destructive ones are
      exactly the failures: successes plus failures is the number of files. */
  lemma {:induction false} UploadToastsSplit(files: seq<File>, rs: seq<UploadResult>, database: string, table: string)
    requires |rs| == |files|
    ensures |UploadNotes(files, rs, database, table)| == |files|
    ensures SuccessCount(rs) + DestructiveCount(UploadNotes(files, rs, database, table)) == |files|
    decreases |files|
  {
    if files != [] {
      var n := |files|;
      var notes := UploadNotes(files, rs, database, table);
      assert notes[..n - 1] == UploadNotes(files[..n - 1], rs[..n - 1], database, table);
      UploadToastsSplit(files[..n - 1], rs[..n - 1], database, table);
    }
  }

  /** A failed upload reports 0 bytes, so summing only the successes is the
      same as summing every result, and the sum is never negative. */
  lemma {:induction false} FailuresAddNoBytes(files: seq<File>, replies: seq<Settled<UploadResponse>>)
    requires |replies| == |files|
    ensures SuccessBytes(UploadResults(files, replies)) == AllBytes(UploadResults(files, replies))
    ensures SuccessBytes(UploadResults(files, replies)) >= 0
    decreases |files|
  {
    if files != [] {
      var n := |files|;
      var rs := UploadResults(files, replies);
      assert rs[..n - 1] == UploadResults(files[..n - 1], replies[..n - 1]);
      FailuresAddNoBytes(files[..n - 1], replies[..n - 1]);
    }
  }

  /** Two files of 100 and 200 bytes that both upload: 300 bytes, two steps
      of progress and two success toasts. */
  lemma TwoFileBatch(f1: File, f2: File, r1: Settled<UploadResponse>, r2: Settled<UploadResponse>, database: string, table: string)
    requires f1.size == 100 && f2.size == 200
    requires UploadToBlob(f1, r1).success && UploadToBlob(f2, r2).success
    ensures SuccessBytes(UploadResults([f1, f2], [r1, r2])) == 300
    ensures SuccessCount(UploadResults([f1, f2], [r1, r2])) == 2
    ensures DestructiveCount(UploadNotes([f1, f2], UploadResults([f1, f2], [r1, r2]), database, table)) == 0
  {
    var rs := UploadResults([f1, f2], [r1, r2]);
    assert rs[0] == UploadToBlob(f1, r1) && rs[1] == UploadToBlob(f2, r2);
    assert rs[..1][..0] == [] && rs[..|rs| - 1] == rs[..1];
    assert SuccessBytes(rs[..1]) == 100 && SuccessCount(rs[..1]) == 1;
    var notes := UploadNotes([f1, f2], rs, database, table);
    assert notes[..1][..0] == [] && notes[..|notes| - 1] == notes[..1];
    assert DestructiveCount(notes[..1]) == 0;
  }

  // ---- the refresh steps ----

  /** The toasts of `updateFileCount`: none on success. */
  function FileCountNotes(outcome: Result<int>): (notes: seq<Note>)
    ensures |notes| == if outcome.Success? then 0 else 1
    ensures outcome.Failure? ==> notes[0].variant == Some(Destructive)
  {
    match outcome
    case Success(_) => []
    case Failure(m) => [Note(CountFailedTitle, CountFailedText + m, Some(Destructive))]
  }

  /** The toast of `updateTotalDataIngested`. `megabytes(n)` stands for
      `(n / (1024 * 1024)).toFixed(2)`. */
  function TotalDataNote(outcome: Result<int>, megabytes: int -> string): (n: Note)
    ensures n.variant == if outcome.Success? then None else Some(Destructive)
  {
    match outcome
    case Success(total) => Note(TotalDataTitle, TotalDataText + megabytes(total) + " MB", None)
    case Failure(m) => Note(TotalDataFailedTitle, TotalDataFailedText + m, Some(Destructive))
  }

  /** The message of the error the job submission's `try` block catches, or
      `None` when it completes. */
  function JobError(reply: Settled<JobResponse>): (e: Option<string>)
    ensures e.None? <==> reply.Resolved? && reply.value.Ok() && reply.value.json.Resolved?
    ensures reply.Resolved? && !reply.value.Ok() ==> e == Some(JobStatusText + reply.value.statusText)
    ensures reply.Rejected? ==> e == Some(MessageOr(reply.reason, UnknownError))
    ensures reply.Resolved? && reply.value.Ok() && reply.value.json.Rejected? ==>
      e == Some(MessageOr(reply.value.json.reason, UnknownError))
  {
    match reply
    case Rejected(t) => Some(MessageOr(t, UnknownError))
    case Resolved(response) =>
      if !response.Ok() then Some(JobStatusText + response.statusText)
      else match response.json
        case Rejected(t) => Some(MessageOr(t, UnknownError))
        case Resolved(_) => None
  }

  /** The toast of the job submission step. */
  function JobNote(reply: Settled<JobResponse>): (n: Note)
    ensures n.variant == if JobError(reply).None? then None else Some(Destructive)
  {
    match JobError(reply)
    case None => Note(JobSubmittedTitle, JobSubmittedText, None)
    case Some(m) => Note(JobFailedTitle, JobFailedText + m, Some(Destructive))
  }

  /** The toast of the cost step. */
  function CostNote(reply: Settled<CostDetails>): (n: Note)
    ensures n.variant == if reply.Resolved? then None else Some(Destructive)
  {
    match reply
    case Resolved(c) => Note(CostTitle, CostText + c.timeframe + ": " + c.totalCostText + " " + c.currency, None)
    case Rejected(t) => Note(CostFailedTitle, CostFailedText + MessageOr(t, UnknownError), Some(Destructive))
  }

  /** Every toast of one `handleUpload` that passed the guard, in order:
      the batch's, then the two metric steps', then the job's and the cost's. */
  function BatchNotes(files: seq<File>, rs: seq<UploadResult>, database: string, table: string,
                      count: Result<int>, total: Result<int>, job: Settled<JobResponse>,
                      costReply: Settled<CostDetails>, megabytes: int -> string): seq<Note>
    requires |rs| == |files|
  {
    UploadNotes(files, rs, database, table)
      + (FileCountNotes(count) + [TotalDataNote(total, megabytes)] + [JobNote(job), CostNote(costReply)])
  }

  /** Toasts shown in two consecutive runs read consecutive clock values. */
  lemma StampExtend(start: seq<Toast>, a: seq<Note>, b: seq<Note>, clock: nat -> int, tick: nat, next: nat,
                    middle: seq<Toast>, final: seq<Toast>)
    requires next == tick + |a|
    requires middle == start + Stamp(a, clock, tick)
    requires final == middle + Stamp(b, clock, next)
    ensures final == start + Stamp(a + b, clock, tick)
  {
    StampAppend(a, b, clock, tick);
  }

  /** Two appends in a row are one append of both parts. */
  lemma Appended<T>(start: seq<T>, a: seq<T>, b: seq<T>, middle: seq<T>, final: seq<T>)
    requires middle == start + a
    requires final == middle + b
    ensures final == start + (a + b)
  {
  }

  /** Destructive toasts of two runs add up. */
  lemma {:induction false} DestructiveAppend(a: seq<Note>, b: seq<Note>)
    ensures DestructiveCount(a + b) == DestructiveCount(a) + DestructiveCount(b)
    decreases |b|
  {
    if b == [] {
      assert a + b == a;
    } else {
      assert (a + b)[..|a + b| - 1] == a + b[..|b| - 1];
      DestructiveAppend(a, b[..|b| - 1]);
    }
  }

  /** A failing step never hides a later one: after the upload toasts come
      one toast per refresh step, plus one for a failed count; and the
      destructive toasts are exactly one per failed upload and one per
      failed step. */
  lemma RefreshToastCount(files: seq<File>, rs: seq<UploadResult>, database: string, table: string,
                          count: Result<int>, total: Result<int>, job: Settled<JobResponse>,
                          costReply: Settled<CostDetails>, megabytes: int -> string)
    requires |rs| == |files|
    ensures |BatchNotes(files, rs, database, table, count, total, job, costReply, megabytes)|
         == |files| + 3 + (if count.Failure? then 1 else 0)
    ensures DestructiveCount(BatchNotes(files, rs, database, table, count, total, job, costReply, megabytes))
         == (|files| - SuccessCount(rs)) + (if count.Failure? then 1 else 0) + (if total.Failure? then 1 else 0)
            + (if JobError(job).Some? then 1 else 0) + (if costReply.Rejected? then 1 else 0)
  {
    var uploads := UploadNotes(files, rs, database, table);
    var counted := FileCountNotes(count);
    var last := [TotalDataNote(total, megabytes)] + [JobNote(job), CostNote(costReply)];
    UploadToastsSplit(files, rs, database, table);
    assert counted + [TotalDataNote(total, megabytes)] + [JobNote(job), CostNote(costReply)] == counted + last;
    DestructiveAppend(uploads, counted + last);
    DestructiveAppend(counted, last);
    assert DestructiveCount(counted) == if count.Failure? then 1 else 0 by {
      if count.Failure? {
        assert counted[..0] == [];
      }
    }
    var three := [TotalDataNote(total, megabytes), JobNote(job), CostNote(costReply)];
    assert last == three;
    assert three[..2][..1][..0] == [] && three[..2][..1] == [three[0]] && three[..2] == [three[0], three[1]];
    assert DestructiveCount([three[0]]) == if total.Failure? then 1 else 0;
    assert DestructiveCount([three[0], three[1]])
        == DestructiveCount([three[0]]) + (if JobError(job).Some? then 1 else 0);
    assert DestructiveCount(three)
        == DestructiveCount([three[0], three[1]]) + (if costReply.Rejected? then 1 else 0);
  }

  const MissingTargetTitle := "Informações Ausentes"
  const MissingTargetText := "Por favor, forneça os nomes do Banco de Dados e da Tabela."
  /** The toast `handleUpload` shows when the database or table is empty. */
  const MissingTarget := Note(MissingTargetTitle, MissingTargetText, Some(Destructive))

  /** The page component's state. */
  class DataIngestionPortal {
    var files: seq<File>
    var uploading: bool
    /** `uploadProgress`, counted in steps of `100 / files.length` percent. */
    var progressSteps: nat
    var totalFiles: int
    var totalSize: int
    var cost: real
    var currency: string
    var costTimeframe: string
    var database: string
    var table: string
    /** The outbound calls made so far, in order. */
    var requests: seq<Request>
    /** The `useToast` hook's state. */
    const toaster: ToastQueue

    /** The initial `useState` values. */
    constructor ()
      ensures files == [] && !uploading && progressSteps == 0
      ensures totalFiles == 0 && totalSize == 0 && cost == 0.0 && currency == "USD" && costTimeframe == ""
      ensures database == "" && table == "" && requests == []
      ensures fresh(toaster) && toaster.toasts == []
    {
      files, uploading, progressSteps := [], false, 0;
      totalFiles, totalSize := 0, 0;
      cost, currency, costTimeframe := 0.0, "USD", "";
      database, table := "", "";
      requests := [];
      toaster := new ToastQueue();
    }

    /** `database && table` */
    predicate HasTarget()
      reads this
    {
      database != "" && table != ""
    }

    /** `handleFileChange`: a non-null file list replaces the selection. */
    method HandleFileChange(selected: Option<seq<File>>)
      modifies this`files
      ensures files == if selected.Some? then selected.value else old(files)
    {
      if selected.Some? {
        files := selected.value;
      }
    }

    /** The database input's `setDatabase(e.target.value)`. */
    method SetDatabase(value: string)
      modifies this`database
      ensures database == value
    {
      database := value;
    }

    /** The table input's `setTable(e.target.value)`. */
    method SetTable(value: string)
      modifies this`table
      ensures table == value
    {
      table := value;
    }

    /** `updateFileCount`, with the `database` and `table` its closure
        captured: on success the count replaces `totalFiles` and no toast is
        shown; on failure the count stays and one destructive toast is shown.
        Nothing happens without a target. */
    method UpdateFileCount(database: string, table: string, reply: Settled<MetricResponse>, clock: nat -> int, tick: nat)
      returns (next: nat)
      modifies this`totalFiles, this`requests, toaster
      ensures requests == old(requests) + (if database != "" && table != "" then [FileCountRequest(database, table)] else [])
      ensures totalFiles ==
        if database != "" && table != "" && GetFileCount(reply).Success? then GetFileCount(reply).value else old(totalFiles)
      ensures toaster.toasts == old(toaster.toasts)
        + Stamp(if database != "" && table != "" then FileCountNotes(GetFileCount(reply)) else [], clock, tick)
      ensures next == tick + |if database != "" && table != "" then FileCountNotes(GetFileCount(reply)) else []|
    {
      next := tick;
      if database != "" && table != "" {
        requests := requests + [FileCountRequest(database, table)];
        ghost var notes := FileCountNotes(GetFileCount(reply));
        match GetFileCount(reply) {
          case Success(count) =>
            totalFiles := count;
            assert Stamp(notes, clock, tick) == [];
          case Failure(m) =>
            toaster.ShowToast(CountFailedTitle, CountFailedText + m, Some(Destructive), clock(tick));
            next := tick + 1;
            assert toaster.toasts == old(toaster.toasts) + [Entry(clock(tick), notes[0].title, notes[0].description, notes[0].variant)];
            assert Stamp(notes, clock, tick) == [Entry(clock(tick), notes[0].title, notes[0].description, notes[0].variant)];
        }
      }
    }

    /** `updateTotalDataIngested`, with the captured `database` and `table`:
        on success the fetched total replaces `totalSize`, with a toast; on
        failure `totalSize` stays, with a destructive toast. Nothing happens
        without a target. */
    method UpdateTotalDataIngested(database: string, table: string, reply: Settled<MetricResponse>,
                                   megabytes: int -> string, clock: nat -> int, tick: nat)
      returns (next: nat)
      modifies this`totalSize, this`requests, toaster
      ensures requests == old(requests) + (if database != "" && table != "" then [TotalDataRequest(database, table)] else [])
      ensures totalSize ==
        if database != "" && table != "" && GetTotalDataIngested(reply).Success? then GetTotalDataIngested(reply).value
        else old(totalSize)
      ensures toaster.toasts == old(toaster.toasts)
        + Stamp(if database != "" && table != "" then [TotalDataNote(GetTotalDataIngested(reply), megabytes)] else [], clock, tick)
      ensures next == tick + (if database != "" && table != "" then 1 else 0)
    {
      next := tick;
      if database != "" && table != "" {
        requests := requests + [TotalDataRequest(database, table)];
        ghost var note := TotalDataNote(GetTotalDataIngested(reply), megabytes);
        match GetTotalDataIngested(reply) {
          case Success(totalData) =>
            totalSize := totalData;
            toaster.ShowToast(TotalDataTitle, TotalDataText + megabytes(totalData) + " MB", None, clock(tick));
          case Failure(m) =>
            toaster.ShowToast(TotalDataFailedTitle, TotalDataFailedText + m, Some(Destructive), clock(tick));
        }
        assert toaster.toasts == old(toaster.toasts) + [Entry(clock(tick), note.title, note.description, note.variant)];
        assert Stamp([note], clock, tick) == [Entry(clock(tick), note.title, note.description, note.variant)];
        next := tick + 1;
      }
    }

    /** The job submission step of `handleUpload`: one POST to
        /api/submitJob and one toast. */
    method SubmitJob(database: string, table: string, reply: Settled<JobResponse>, clock: nat -> int, tick: nat)
      modifies this`requests, toaster
      ensures requests == old(requests) + [SubmitJobRequest(JobFor(database, table))]
      ensures toaster.toasts == old(toaster.toasts) + Stamp([JobNote(reply)], clock, tick)
    {
      requests := requests + [SubmitJobRequest(JobFor(database, table))];
      match JobError(reply) {
        case None =>
          toaster.ShowToast(JobSubmittedTitle, JobSubmittedText, None, clock(tick));
        case Some(m) =>
          toaster.ShowToast(JobFailedTitle, JobFailedText + m, Some(Destructive), clock(tick));
      }
    }

    /** The cost step of `handleUpload`: the fetched details replace the
        cost fields, with a toast; a failed fetch keeps them, with a
        destructive toast. */
    method UpdateCost(reply: Settled<CostDetails>, clock: nat -> int, tick: nat)
      modifies this`cost, this`currency, this`costTimeframe, this`requests, toaster
      ensures requests == old(requests) + [CostRequest]
      ensures reply.Resolved? ==>
        cost == reply.value.totalCost && currency == reply.value.currency && costTimeframe == reply.value.timeframe
      ensures reply.Rejected? ==>
        cost == old(cost) && currency == old(currency) && costTimeframe == old(costTimeframe)
      ensures toaster.toasts == old(toaster.toasts) + Stamp([CostNote(reply)], clock, tick)
    {
      requests := requests + [CostRequest];
      match reply {
        case Resolved(details) =>
          cost, currency, costTimeframe := details.totalCost, details.currency, details.timeframe;
          toaster.ShowToast(CostTitle, CostText + details.timeframe + ": " + details.totalCostText + " " + details.currency,
            None, clock(tick));
        case Rejected(t) =>
          toaster.ShowToast(CostFailedTitle, CostFailedText + MessageOr(t, UnknownError), Some(Destructive), clock(tick));
      }
    }

    /** One pass of the batch loop: upload `file`, advance the progress on
        success, and show the file's one toast. */
    method UploadOne(database: string, table: string, file: File, reply: Settled<UploadResponse>, clock: nat -> int, tick: nat)
      returns (result: UploadResult)
      modifies this`progressSteps, this`requests, toaster
      ensures result == UploadToBlob(file, reply)
      ensures progressSteps == old(progressSteps) + (if result.success then 1 else 0)
      ensures requests == old(requests) + [UploadFileRequest(file.name, database, table)]
      ensures toaster.toasts == old(toaster.toasts) + Stamp([UploadNote(file, result, database, table)], clock, tick)
    {
      requests := requests + [UploadFileRequest(file.name, database, table)];
      result := UploadToBlob(file, reply);
      if result.success {
        progressSteps := progressSteps + 1;
        toaster.ShowToast(SentTitle, SentDescription(file, database, table), None, clock(tick));
      } else {
        toaster.ShowToast(UploadFailedTitle, FailedDescription(file, result), Some(Destructive), clock(tick));
      }
    }

    /** The `for (const file of files)` loop of `handleUpload`, over the
        selection its closure captured: one upload and one toast per file,
        strictly in selection order. */
    method UploadBatch(database: string, table: string, selected: seq<File>, replies: seq<Settled<UploadResponse>>,
                       clock: nat -> int, tick: nat)
      returns (uploadedSize: int, next: nat)
      requires |replies| == |selected|
      modifies this`progressSteps, this`requests, toaster
      ensures uploadedSize == SuccessBytes(UploadResults(selected, replies))
      ensures progressSteps == old(progressSteps) + SuccessCount(UploadResults(selected, replies))
      ensures requests == old(requests) + UploadRequests(selected, database, table)
      ensures toaster.toasts == old(toaster.toasts)
        + Stamp(UploadNotes(selected, UploadResults(selected, replies), database, table), clock, tick)
      ensures next == tick + |selected|
    {
      ghost var rs := UploadResults(selected, replies);
      uploadedSize, next := 0, tick;
      for i := 0 to |selected|
        invariant uploadedSize == SuccessBytes(rs[..i])
        invariant progressSteps == old(progressSteps) + SuccessCount(rs[..i])
        invariant requests == old(requests) + UploadRequests(selected[..i], database, table)
        invariant toaster.toasts == old(toaster.toasts) + Stamp(UploadNotes(selected[..i], rs[..i], database, table), clock, tick)
        invariant next == tick + i
      {
        ghost var before, sent := toaster.toasts, requests;
        var result := UploadOne(database, table, selected[i], replies[i], clock, next);
        if result.success {
          uploadedSize := uploadedSize + result.size;
        }
        BatchStep(selected, rs, i, database, table);
        StampExtend(old(toaster.toasts), UploadNotes(selected[..i], rs[..i], database, table),
                    [UploadNote(selected[i], rs[i], database, table)], clock, tick, next, before, toaster.toasts);
        next := next + 1;
        Appended(old(requests), UploadRequests(selected[..i], database, table),
                 [UploadFileRequest(selected[i].name, database, table)], sent, requests);
      }
      assert selected[..|selected|] == selected && rs[..|selected|] == rs;
    }

    /** The upload part of `handleUpload`, once the target is known: the
        batch runs with the progress reset, then its successful bytes are
        added to `totalSize` and the selection is cleared. */
    method UploadSelection(database: string, table: string, replies: seq<Settled<UploadResponse>>, clock: nat -> int)
      returns (next: nat)
      requires |replies| == |files|
      modifies this`files, this`uploading, this`progressSteps, this`totalSize, this`requests, toaster
      ensures files == [] && !uploading
      ensures progressSteps == SuccessCount(UploadResults(old(files), replies))
      ensures totalSize == old(totalSize) + SuccessBytes(UploadResults(old(files), replies))
      ensures requests == old(requests) + UploadRequests(old(files), database, table)
      ensures toaster.toasts == old(toaster.toasts)
        + Stamp(UploadNotes(old(files), UploadResults(old(files), replies), database, table), clock, 0)
      ensures next == |old(files)|
    {
      uploading, progressSteps := true, 0;
      var uploadedSize;
      uploadedSize, next := UploadBatch(database, table, files, replies, clock, 0);
      totalSize, uploading, files := totalSize + uploadedSize, false, [];
    }

    /** The first two refresh steps: file count, then total data. */
    method RefreshMetrics(database: string, table: string, countReply: Settled<MetricResponse>,
                          totalReply: Settled<MetricResponse>, megabytes: int -> string, clock: nat -> int, tick: nat)
      returns (next: nat)
      requires database != "" && table != ""
      modifies this`totalFiles, this`totalSize, this`requests, toaster
      ensures requests == old(requests) + [FileCountRequest(database, table), TotalDataRequest(database, table)]
      ensures totalFiles == if GetFileCount(countReply).Success? then GetFileCount(countReply).value else old(totalFiles)
      ensures totalSize ==
        if GetTotalDataIngested(totalReply).Success? then GetTotalDataIngested(totalReply).value else old(totalSize)
      ensures toaster.toasts == old(toaster.toasts)
        + Stamp(FileCountNotes(GetFileCount(countReply)) + [TotalDataNote(GetTotalDataIngested(totalReply), megabytes)], clock, tick)
      ensures next == tick + |FileCountNotes(GetFileCount(countReply))| + 1
    {
      var counted := UpdateFileCount(database, table, countReply, clock, tick);
      ghost var middle, sent := toaster.toasts, requests;
      next := UpdateTotalDataIngested(database, table, totalReply, megabytes, clock, counted);
      Appended(old(requests), [FileCountRequest(database, table)], [TotalDataRequest(database, table)], sent, requests);
      StampExtend(old(toaster.toasts), FileCountNotes(GetFileCount(countReply)),
                  [TotalDataNote(GetTotalDataIngested(totalReply), megabytes)], clock, tick, counted, middle, toaster.toasts);
    }

    /** The last two refresh steps: job submission, then cost. */
    method RefreshJobAndCost(database: string, table: string, jobReply: Settled<JobResponse>,
                             costReply: Settled<CostDetails>, clock: nat -> int, tick: nat)
      modifies this`cost, this`currency, this`costTimeframe, this`requests, toaster
      ensures requests == old(requests) + [SubmitJobRequest(JobFor(database, table)), CostRequest]
      ensures costReply.Resolved? ==>
        cost == costReply.value.totalCost && currency == costReply.value.currency && costTimeframe == costReply.value.timeframe
      ensures costReply.Rejected? ==>
        cost == old(cost) && currency == old(currency) && costTimeframe == old(costTimeframe)
      ensures toaster.toasts == old(toaster.toasts) + Stamp([JobNote(jobReply), CostNote(costReply)], clock, tick)
    {
      SubmitJob(database, table, jobReply, clock, tick);
      ghost var middle, sent := toaster.toasts, requests;
      UpdateCost(costReply, clock, tick + 1);
      Appended(old(requests), [SubmitJobRequest(JobFor(database, table))], [CostRequest], sent, requests);
      StampExtend(old(toaster.toasts), [JobNote(jobReply)], [CostNote(costReply)], clock, tick, tick + 1, middle, toaster.toasts);
    }

    /** The four refresh steps of `handleUpload`, in order, each one run
        whatever the earlier ones did. */
    method Refresh(database: string, table: string, countReply: Settled<MetricResponse>,
                   totalReply: Settled<MetricResponse>, jobReply: Settled<JobResponse>,
                   costReply: Settled<CostDetails>, megabytes: int -> string, clock: nat -> int, tick: nat)
      requires database != "" && table != ""
      modifies this`totalFiles, this`totalSize, this`cost, this`currency, this`costTimeframe, this`requests, toaster
      ensures requests == old(requests) + [FileCountRequest(database, table), TotalDataRequest(database, table)]
        + [SubmitJobRequest(JobFor(database, table)), CostRequest]
      ensures totalFiles == if GetFileCount(countReply).Success? then GetFileCount(countReply).value else old(totalFiles)
      ensures totalSize ==
        if GetTotalDataIngested(totalReply).Success? then GetTotalDataIngested(totalReply).value else old(totalSize)
      ensures costReply.Resolved? ==>
        cost == costReply.value.totalCost && currency == costReply.value.currency && costTimeframe == costReply.value.timeframe
      ensures costReply.Rejected? ==>
        cost == old(cost) && currency == old(currency) && costTimeframe == old(costTimeframe)
      ensures toaster.toasts == old(toaster.toasts)
        + Stamp(FileCountNotes(GetFileCount(countReply)) + [TotalDataNote(GetTotalDataIngested(totalReply), megabytes)]
                + [JobNote(jobReply), CostNote(costReply)], clock, tick)
    {
      var next := RefreshMetrics(database, table, countReply, totalReply, megabytes, clock, tick);
      ghost var middle := toaster.toasts;
      RefreshJobAndCost(database, table, jobReply, costReply, clock, next);
      StampExtend(old(toaster.toasts), FileCountNotes(GetFileCount(countReply)) + [TotalDataNote(GetTotalDataIngested(totalReply), megabytes)],
                  [JobNote(jobReply), CostNote(costReply)], clock, tick, next, middle, toaster.toasts);
    }

    /** `handleUpload` once its target guard has passed: the upload batch,
        then the four refresh steps; the toasts of the call are stamped with
        `clock(0)`, `clock(1)`, ... in the order they are shown. */
    method UploadAndRefresh(replies: seq<Settled<UploadResponse>>, countReply: Settled<MetricResponse>,
                        totalReply: Settled<MetricResponse>, jobReply: Settled<JobResponse>,
                        costReply: Settled<CostDetails>, megabytes: int -> string, clock: nat -> int)
      requires |replies| == |files| && HasTarget()
      modifies this`files, this`uploading, this`progressSteps, this`totalFiles, this`totalSize, this`cost, this`currency, this`costTimeframe, this`requests, toaster
      ensures
        && database == old(database) && table == old(table)
        && files == [] && !uploading && progressSteps == SuccessCount(UploadResults(old(files), replies))
      ensures
        requests == old(requests) + UploadRequests(old(files), database, table)
          + [FileCountRequest(database, table), TotalDataRequest(database, table)]
          + [SubmitJobRequest(JobFor(database, table)), CostRequest]
      ensures
        && totalFiles == (if GetFileCount(countReply).Success? then GetFileCount(countReply).value else old(totalFiles))
        && totalSize == (if GetTotalDataIngested(totalReply).Success? then GetTotalDataIngested(totalReply).value
                         else old(totalSize) + SuccessBytes(UploadResults(old(files), replies)))
      ensures costReply.Resolved? ==>
        cost == costReply.value.totalCost && currency == costReply.value.currency && costTimeframe == costReply.value.timeframe
      ensures costReply.Rejected? ==>
        cost == old(cost) && currency == old(currency) && costTimeframe == old(costTimeframe)
      ensures
        toaster.toasts == old(toaster.toasts)
          + Stamp(BatchNotes(old(files), UploadResults(old(files), replies), database, table,
                             GetFileCount(countReply), GetTotalDataIngested(totalReply), jobReply, costReply, megabytes), clock, 0)
    {
      ghost var selected := files;
      var tick := UploadSelection(database, table, replies, clock);
      ghost var afterBatch := toaster.toasts;
      Refresh(database, table, countReply, totalReply, jobReply, costReply, megabytes, clock, tick);
      StampExtend(old(toaster.toasts), UploadNotes(selected, UploadResults(selected, replies), database, table),
                  FileCountNotes(GetFileCount(countReply)) + [TotalDataNote(GetTotalDataIngested(totalReply), megabytes)]
                  + [JobNote(jobReply), CostNote(costReply)], clock, 0, tick, afterBatch, toaster.toasts);
    }

    /** `handleUpload`. Without a target it shows one destructive toast and
        changes nothing else. Otherwise it uploads the selected files in
        order, adds the successful bytes to `totalSize`, clears the selection,
        then runs the file count, total data, job submission and cost steps
        in that order, each one whatever the earlier ones did. `replies` are
        what the uploads settle to, one per selected file; `clock(k)` is the
        `Date.now()` reading for the k-th toast of the call. */
    method HandleUpload(replies: seq<Settled<UploadResponse>>, countReply: Settled<MetricResponse>,
                        totalReply: Settled<MetricResponse>, jobReply: Settled<JobResponse>,
                        costReply: Settled<CostDetails>, megabytes: int -> string, clock: nat -> int)
      requires |replies| == |files|
      modifies this, toaster
      ensures !old(HasTarget()) ==> unchanged(this)
      ensures !old(HasTarget()) ==> toaster.toasts == old(toaster.toasts) + Stamp([MissingTarget], clock, 0)
      ensures old(HasTarget()) ==>
        && database == old(database) && table == old(table)
        && files == [] && !uploading && progressSteps == SuccessCount(UploadResults(old(files), replies))
      ensures old(HasTarget()) ==>
        requests == old(requests) + UploadRequests(old(files), database, table)
          + [FileCountRequest(database, table), TotalDataRequest(database, table)]
          + [SubmitJobRequest(JobFor(database, table)), CostRequest]
      ensures old(HasTarget()) ==>
        && totalFiles == (if GetFileCount(countReply).Success? then GetFileCount(countReply).value else old(totalFiles))
        && totalSize == (if GetTotalDataIngested(totalReply).Success? then GetTotalDataIngested(totalReply).value
                         else old(totalSize) + SuccessBytes(UploadResults(old(files), replies)))
      ensures old(HasTarget()) && costReply.Resolved? ==>
        cost == costReply.value.totalCost && currency == costReply.value.currency && costTimeframe == costReply.value.timeframe
      ensures old(HasTarget()) && costReply.Rejected? ==>
        cost == old(cost) && currency == old(currency) && costTimeframe == old(costTimeframe)
      ensures old(HasTarget()) ==>
        toaster.toasts == old(toaster.toasts)
          + Stamp(BatchNotes(old(files), UploadResults(old(files), replies), database, table,
                             GetFileCount(countReply), GetTotalDataIngested(totalReply), jobReply, costReply, megabytes), clock, 0)
    {
      if database == "" || table == "" {
        toaster.ShowToast(MissingTarget.title, MissingTarget.description, MissingTarget.variant, clock(0));
        return;
      }
      UploadAndRefresh(replies, countReply, totalReply, jobReply, costReply, megabytes, clock);
    }
  }
}
