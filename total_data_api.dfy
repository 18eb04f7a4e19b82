/** GET /api/total-data: sums the lengths of the blobs stored under
    `database/table/`. */
module TotalDataApi {
  import opened JsCore
  import opened ApiCommon

  const FailureMessage := "Error fetching total data ingested"

  /** `blob.properties.contentLength || 0` */
  function LengthOrZero(b: BlobItem): int {
    match b.contentLength
    case Some(n) => n
    case None => 0
  }

  /** The running total after the listed blobs, in listing order. */
  function TotalLength(blobs: seq<BlobItem>): int {
    if blobs == [] then 0
    else TotalLength(blobs[..|blobs| - 1]) + LengthOrZero(blobs[|blobs| - 1])
  }

  /** One more listed blob adds its length, or nothing when it has none. */
  lemma TotalLengthSnoc(blobs: seq<BlobItem>, b: BlobItem)
    ensures TotalLength(blobs + [b]) == TotalLength(blobs) + LengthOrZero(b)
  {
    assert (blobs + [b])[..|blobs|] == blobs;
  }

  /** The total splits over any cut of the listing. */
  lemma {:induction false} TotalLengthAppend(a: seq<BlobItem>, b: seq<BlobItem>)
    ensures TotalLength(a + b) == TotalLength(a) + TotalLength(b)
    decreases |b|
  {
    if b == [] {
      assert a + b == a;
    } else {
      var init, last := b[..|b| - 1], b[|b| - 1];
      assert a + b == (a + init) + [last];
      TotalLengthSnoc(a + init, last);
      TotalLengthAppend(a, init);
      assert b == init + [last];
      TotalLengthSnoc(init, last);
    }
  }

  /** With no negative lengths listed, the total is never negative. */
  lemma {:induction false} TotalLengthNonNegative(blobs: seq<BlobItem>)
    requires forall i :: 0 <= i < |blobs| ==> LengthOrZero(blobs[i]) >= 0
    ensures TotalLength(blobs) >= 0
  {
    if blobs != [] {
      TotalLengthNonNegative(blobs[..|blobs| - 1]);
      assert LengthOrZero(blobs[|blobs| - 1]) >= 0;
    }
  }

  /** Blobs without a length contribute nothing: only the known lengths add up. */
  lemma {:induction false} TotalLengthIgnoresMissing(blobs: seq<BlobItem>, name: string)
    ensures TotalLength(blobs + [BlobItem(name, None)]) == TotalLength(blobs)
  {
    TotalLengthSnoc(blobs, BlobItem(name, None));
  }

  /** The handler; `listing` and `listedPrefix` as in the file-count handler. */
  method Handler(req: QueryRequest, env: StorageEnv, listing: Settled<seq<BlobItem>>)
    returns (res: Response, listedPrefix: Option<string>)
    ensures req.verb != "GET" ==> res == MethodNotAllowed && listedPrefix == None
    ensures req.verb == "GET" && !Admitted(req) ==> res == MissingParametersResponse && listedPrefix == None
    ensures Admitted(req) && !Configured(env) ==>
      res == MetricFailure(FailureMessage, ErrorObject(NotConfiguredMessage)) && listedPrefix == None
    ensures Admitted(req) && Configured(env) ==>
      listedPrefix == Some(BlobPrefix(Render(req.database), Render(req.table)))
    ensures Admitted(req) && Configured(env) && listing.Rejected? ==>
      res == MetricFailure(FailureMessage, listing.reason)
    ensures Admitted(req) && Configured(env) && listing.Resolved? ==>
      res == Response(StatusOk, TotalSizeBody(TotalLength(listing.value)))
  {
    if req.verb != "GET" {
      return MethodNotAllowed, None;
    }
    if !QueryTruthy(req.database) || !QueryTruthy(req.table) {
      return MissingParametersResponse, None;
    }
    if !Configured(env) {
      return MetricFailure(FailureMessage, ErrorObject(NotConfiguredMessage)), None;
    }
    listedPrefix := Some(BlobPrefix(Render(req.database), Render(req.table)));
    match listing {
      case Rejected(t) =>
        res := MetricFailure(FailureMessage, t);
      case Resolved(blobs) =>
        var totalSize := 0;
        for i := 0 to |blobs|
          invariant totalSize == TotalLength(blobs[..i])
        {
          assert blobs[..i + 1] == blobs[..i] + [blobs[i]];
          TotalLengthSnoc(blobs[..i], blobs[i]);
          totalSize := totalSize + LengthOrZero(blobs[i]);
        }
        assert blobs[..|blobs|] == blobs;
        res := Response(StatusOk, TotalSizeBody(totalSize));
    }
  }
}
