/** What the three server-side handlers share: the JSON responses they send,
    the status codes of RFC 9110 they use, the storage settings read from the
    process environment, the query values Next.js hands them, and the
    `database/table/` prefix under which blobs are grouped. */
module ApiCommon {
  import opened JsCore

  /** The JSON objects the handlers send. `error` is absent when the caught
      value had no `message`. */
  datatype Body =
    | MessageBody(message: string)
    | ErrorBody(message: string, error: Option<string>)
    | FileCountBody(fileCount: int)
    | TotalSizeBody(totalSize: int)

  datatype Response = Response(status: nat, body: Body)

  /** RFC 9110 section 15.3.1 */
  const StatusOk: nat := 200
  /** RFC 9110 section 15.5.1 */
  const StatusBadRequest: nat := 400
  /** RFC 9110 section 15.5.6 */
  const StatusMethodNotAllowed: nat := 405
  /** RFC 9110 section 15.6.1 */
  const StatusInternalServerError: nat := 500

  const MethodNotAllowed := Response(StatusMethodNotAllowed, MessageBody("Method Not Allowed"))

  /** AZURE_STORAGE_ACCOUNT_NAME, AZURE_STORAGE_ACCOUNT_KEY and
      AZURE_STORAGE_CONTAINER_NAME; `None` is an unset variable. */
  datatype StorageEnv = StorageEnv(accountName: Option<string>, accountKey: Option<string>, containerName: Option<string>)

  /** `accountName && accountKey && containerName` */
  predicate Configured(env: StorageEnv) {
    Present(env.accountName) && Present(env.accountKey) && Present(env.containerName)
  }

  const NotConfiguredMessage := "Azure storage account details are not properly configured"

  /** One entry of `req.query`: missing, a single string, or an array of
      strings when the parameter is repeated. */
  datatype QueryValue = Absent | Single(text: string) | Repeated(values: seq<string>)

  /** `!!value`: an array is truthy even when empty. */
  predicate QueryTruthy(q: QueryValue) {
    match q
    case Absent => false
    case Single(s) => s != ""
    case Repeated(_) => true
  }

  /** `${value}` inside a template literal. */
  function Render(q: QueryValue): string {
    match q
    case Absent => "undefined"
    case Single(s) => s
    case Repeated(vs) => Join(vs, ",")
  }

  /** The request seen by the two metric handlers. */
  datatype QueryRequest = QueryRequest(verb: string, database: QueryValue, table: QueryValue)

  /** The method and parameter guards both metric handlers run before the
      `try` block: a GET with truthy database and table. */
  predicate Admitted(req: QueryRequest) {
    req.verb == "GET" && QueryTruthy(req.database) && QueryTruthy(req.table)
  }

  const MissingParametersResponse := Response(StatusBadRequest, MessageBody("Database and table parameters are required"))

  /** `${database}/${table}/`: the prefix grouping one table's blobs. */
  function BlobPrefix(database: string, table: string): (p: string)
    ensures |p| == |database| + |table| + 2
    ensures p[..|database|] == database && p[|database|] == '/'
    ensures p[|database| + 1..|p| - 1] == table && p[|p| - 1] == '/'
  {
    database + "/" + table + "/"
  }

  predicate NoSlash(name: string) {
    '/' !in name
  }

  /** A slash-free name followed by "/" is found at the start of another
      slash-free name followed by "/" only when the two names are equal. */
  lemma SegmentPrefix(a: string, b: string, rest: string)
    requires NoSlash(a) && NoSlash(b)
    requires StartsWith(b + "/" + rest, a + "/")
    ensures a == b
  {
    var s := b + "/" + rest;
    var m := if |a| < |b| then |a| else |b|;
    assert s[m] == (a + "/")[m];
    assert |a| == |b|;
    assert a == (a + "/")[..|a|] == s[..|a|] == b;
  }

  /** With slash-free database and table names, the blobs listed under a
      target's prefix are exactly the ones written for that target, whatever
      the file name. */
  lemma ListedUnderOwnPrefix(database: string, table: string, otherDatabase: string, otherTable: string, name: string)
    requires NoSlash(database) && NoSlash(table) && NoSlash(otherDatabase) && NoSlash(otherTable)
    ensures StartsWith(BlobPrefix(otherDatabase, otherTable) + name, BlobPrefix(database, table))
        <==> database == otherDatabase && table == otherTable
  {
    var path := BlobPrefix(otherDatabase, otherTable) + name;
    if StartsWith(path, BlobPrefix(database, table)) {
      var p := BlobPrefix(database, table);
      assert path == otherDatabase + "/" + (otherTable + "/" + name);
      assert p[..|database| + 1] == database + "/";
      SegmentPrefix(database, otherDatabase, otherTable + "/" + name);
      var k := |database| + 1;
      assert path[k..] == otherTable + "/" + name;
      assert p[k..] == table + "/";
      assert path[k..][..|table| + 1] == path[..|p|][k..] == p[k..];
      SegmentPrefix(table, otherTable, name);
    }
  }

  /** A name containing "/" breaks that: two different targets share a prefix. */
  lemma SlashedNamesSharePrefix()
    ensures BlobPrefix("a/b", "c") == BlobPrefix("a", "b/c")
  {
  }

  /** One item yielded by `listBlobsFlat`: its name and `properties.contentLength`. */
  datatype BlobItem = BlobItem(name: string, contentLength: Option<int>)

  /** The 500 answer of a metric handler whose `try` block threw `t`. */
  function MetricFailure(message: string, t: Thrown): (r: Response)
    ensures r.status == StatusInternalServerError && r.body.ErrorBody? && r.body.message == message
    ensures t.ErrorObject? ==> r.body.error == Some(t.message)
    ensures t.OtherValue? ==> r.body.error == Some("Unknown error")
  {
    Response(StatusInternalServerError, ErrorBody(message, Some(MessageOr(t, "Unknown error"))))
  }
}
