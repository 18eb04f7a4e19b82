/** POST /api/upload: validates the multipart form, then writes the file to
    `database/table/<original file name>` in the configured container. */
module UploadApi {
  import opened JsCore
  import opened ApiCommon

  /** A file part as formidable reports it. */
  datatype FormFile = FormFile(originalFilename: Option<string>, filepath: string)

  /** formidable's parse result: each field holds an array of values, and a
      field the client did not send is `undefined` (`None`). */
  datatype Form = Form(file: Option<seq<FormFile>>, database: Option<seq<string>>, table: Option<seq<string>>)

  datatype UploadRequest = UploadRequest(verb: string, form: Settled<Form>)

  /** The blob write the handler issues: container, blob path and byte count. */
  datatype BlobWrite = BlobWrite(container: string, path: string, length: nat)

  /** The response sent, and the blob write if one was issued. */
  datatype UploadReply = UploadReply(response: Response, write: Option<BlobWrite>)

  /** The `TypeError` Node.js raises for `undefined[0]`. */
  const UndefinedIndexMessage := "Cannot read properties of undefined (reading '0')"

  /** `field[0]`: throws when the field is `undefined`, is `undefined` itself
      when the array is empty. */
  function FirstOf<T>(field: Option<seq<T>>): (r: Settled<Option<T>>)
    ensures field.None? ==> r == Rejected(ErrorObject(UndefinedIndexMessage))
    ensures field.Some? && field.value == [] ==> r == Resolved(None)
    ensures field.Some? && field.value != [] ==> r == Resolved(Some(field.value[0]))
  {
    match field
    case None => Rejected(ErrorObject(UndefinedIndexMessage))
    case Some(values) => if values == [] then Resolved(None) else Resolved(Some(values[0]))
  }

  /** The 500 sent by the `catch` block: `error.message` is left out of the
      JSON when the caught value is not an `Error`. */
  function Crashed(t: Thrown): (r: Response)
    ensures r.status == StatusInternalServerError && r.body.ErrorBody? && r.body.message == "Error uploading file"
    ensures r.body.error.Some? <==> t.ErrorObject?
    ensures t.ErrorObject? ==> r.body.error == Some(t.message)
  {
    Response(StatusInternalServerError, ErrorBody("Error uploading file", match t
      case ErrorObject(m) => Some(m)
      case OtherValue => None))
  }

  const MissingFields := Response(StatusBadRequest, MessageBody("Missing required fields"))
  const NotTxt := Response(StatusBadRequest, MessageBody("File must be a TXT"))
  const NotConfigured := Response(StatusInternalServerError, MessageBody(NotConfiguredMessage))
  const Uploaded := Response(StatusOk, MessageBody("File uploaded successfully"))

  /** The outcome of the field checks: the accepted file and target, or the
      response that ends the request. */
  datatype Checked = Accepted(file: FormFile, database: string, table: string) | Refused(response: Response)

  /** `${file.originalFilename}`: an absent name renders as "null". */
  function FilenameText(name: Option<string>): string {
    match name
    case Some(n) => n
    case None => "null"
  }

  /** Every field was sent, a file arrived, and the database and table are
      non-empty: the presence check of `upload.ts` passes. */
  predicate FieldsPresent(form: Form) {
    && form.file.Some? && form.database.Some? && form.table.Some?
    && form.file.value != []
    && Present(FirstOf(form.database).value) && Present(FirstOf(form.table).value)
  }

  /** The field checks of `upload.ts`, in their order: reading the three fields
      (a field that was not sent throws), presence, then the `.txt` suffix. */
  function CheckFields(form: Form): (c: Checked)
    ensures form.file.None? ==> c == Refused(Crashed(ErrorObject(UndefinedIndexMessage)))
    ensures form.file.Some? && form.database.None? ==> c == Refused(Crashed(ErrorObject(UndefinedIndexMessage)))
    ensures form.file.Some? && form.database.Some? && form.table.None? ==> c == Refused(Crashed(ErrorObject(UndefinedIndexMessage)))
    ensures form.file.Some? && form.database.Some? && form.table.Some?
      && (form.file.value == [] || !Present(FirstOf(form.database).value) || !Present(FirstOf(form.table).value))
      ==> c == Refused(MissingFields)
    ensures c.Accepted? ==>
      && form.file.Some? && form.file.value != [] && c.file == form.file.value[0]
      && FirstOf(form.database) == Resolved(Some(c.database)) && c.database != ""
      && FirstOf(form.table) == Resolved(Some(c.table)) && c.table != ""
    ensures c.Accepted? ==> !Present(c.file.originalFilename) || EndsWith(c.file.originalFilename.value, ".txt")
    ensures c.Accepted? <==>
      (FieldsPresent(form)
       && (!Present(form.file.value[0].originalFilename) || EndsWith(form.file.value[0].originalFilename.value, ".txt")))
    ensures c == Refused(NotTxt) <==>
      (FieldsPresent(form)
       && Present(form.file.value[0].originalFilename) && !EndsWith(form.file.value[0].originalFilename.value, ".txt"))
    ensures c.Refused? && c.response.status == StatusBadRequest && c.response != MissingFields ==>
      c.response == NotTxt && form.file.Some? && form.file.value != []
      && Present(form.file.value[0].originalFilename) && !EndsWith(form.file.value[0].originalFilename.value, ".txt")
  {
    match FirstOf(form.file)
    case Rejected(t) => Refused(Crashed(t))
    case Resolved(file) =>
      match FirstOf(form.database)
      case Rejected(t) => Refused(Crashed(t))
      case Resolved(database) =>
        match FirstOf(form.table)
        case Rejected(t) => Refused(Crashed(t))
        case Resolved(table) =>
          if file.None? || !Present(database) || !Present(table) then Refused(MissingFields)
          else if Present(file.value.originalFilename) && !EndsWith(file.value.originalFilename.value, ".txt") then Refused(NotTxt)
          else Accepted(file.value, database.value, table.value)
  }

  /** A present file name without the `.txt` suffix is refused; the
      comparison is case-sensitive, so ".TXT" is refused too. */
  lemma UpperCaseSuffixRefused(form: Form, f: FormFile, database: string, table: string)
    requires form == Form(Some([f]), Some([database]), Some([table])) && database != "" && table != ""
    requires f.originalFilename == Some("notes.TXT")
    ensures CheckFields(form) == Refused(NotTxt)
  {
    assert !EndsWith("notes.TXT", ".txt") by {
      assert "notes.TXT"[5..] != ".txt" by { assert "notes.TXT"[5..][1] == 'T'; }
    }
  }

  /** `${database}/${table}/${file.originalFilename}` */
  function BlobPath(database: string, table: string, file: FormFile): (path: string)
    ensures StartsWith(path, BlobPrefix(database, table))
    ensures path[|BlobPrefix(database, table)|..] == FilenameText(file.originalFilename)
  {
    BlobPrefix(database, table) + FilenameText(file.originalFilename)
  }

  /** The handler. `fileRead` is what `fs.readFileSync(file.filepath)` yields
      (the buffer's length), `upload` what the blob upload settles to. */
  function Handler(req: UploadRequest, env: StorageEnv, fileRead: Settled<nat>, upload: Settled<()>): (r: UploadReply)
    ensures req.verb != "POST" ==> r == UploadReply(MethodNotAllowed, None)
    ensures req.verb == "POST" && req.form.Rejected? ==> r == UploadReply(Crashed(req.form.reason), None)
    // The field checks come first: a bad form is refused whatever the configuration.
    ensures req.verb == "POST" && req.form.Resolved? && CheckFields(req.form.value).Refused? ==>
      r == UploadReply(CheckFields(req.form.value).response, None)
    ensures req.verb == "POST" && req.form.Resolved? && CheckFields(req.form.value).Accepted? && !Configured(env) ==>
      r == UploadReply(NotConfigured, None)
    ensures r.write.Some? ==>
      && req.verb == "POST" && req.form.Resolved? && Configured(env) && fileRead.Resolved?
      && var c := CheckFields(req.form.value);
      && c.Accepted?
      && r.write.value == BlobWrite(env.containerName.value, BlobPath(c.database, c.table, c.file), fileRead.value)
      && StartsWith(r.write.value.path, BlobPrefix(c.database, c.table))
    // Once the form is accepted and storage configured, a write is issued
    // exactly when the file could be read.
    ensures req.verb == "POST" && req.form.Resolved? && CheckFields(req.form.value).Accepted? && Configured(env) ==>
      (r.write.Some? <==> fileRead.Resolved?)
    ensures (req.verb == "POST" && req.form.Resolved? && CheckFields(req.form.value).Accepted? && Configured(env)
             && fileRead.Rejected?) ==> r == UploadReply(Crashed(fileRead.reason), None)
    ensures r.response.status == StatusOk <==> r.write.Some? && upload.Resolved?
    ensures r.write.Some? && upload.Rejected? ==> r.response == Crashed(upload.reason)
    ensures r.response.status == StatusOk ==> r.response == Uploaded
  {
    if req.verb != "POST" then UploadReply(MethodNotAllowed, None)
    else match req.form
      case Rejected(t) => UploadReply(Crashed(t), None)
      case Resolved(form) =>
        match CheckFields(form)
        case Refused(response) => UploadReply(response, None)
        case Accepted(file, database, table) =>
          if !Configured(env) then UploadReply(NotConfigured, None)
          else match fileRead
            case Rejected(t) => UploadReply(Crashed(t), None)
            case Resolved(length) =>
              var write := BlobWrite(env.containerName.value, BlobPath(database, table, file), length);
              match upload
              case Rejected(t) => UploadReply(Crashed(t), Some(write))
              case Resolved(_) => UploadReply(Uploaded, Some(write))
  }
}
