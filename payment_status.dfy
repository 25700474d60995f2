/**
 * The request statuses the payment handlers write, and what a write does to the row-store `requests`
 * table: `patchRow('requests', requestId, { status })`.
 */
module PaymentStatus {
  import opened Basics
  import opened Json
  import opened RowStore

  const AwaitingPayment := "Awaiting Payment"
  const Paid := "Paid"
  const PaymentExpired := "Payment Expired"

  /** A status write the handler decided on. */
  datatype StatusWrite = StatusWrite(requestId: Value, status: string)

  /** The fields of a checkout session the handlers read: `payment_status` and `metadata?.requestId`. */
  datatype Session = Session(paymentStatus: Value, metadataRequestId: Value)

  /** The stored-row update built from the patch `{ status }`. */
  function StatusUpdate(status: string): Record {
    FromApi("requests", map["status" := Str(status)])
  }

  /** The `requests` rows after an optional status write. */
  function Written(rows: seq<Record>, w: Option<StatusWrite>): (r: seq<Record>)
    ensures |r| == |rows|
    ensures w.None? ==> r == rows
    ensures w.Some? ==> forall i :: 0 <= i < |rows| ==>
      r[i] == if HasId(rows[i], w.value.requestId) then rows[i]["status" := Str(w.value.status)] else rows[i]
  {
    if w.None? then rows
    else
      StatusWriteEffect(rows, w.value.requestId, w.value.status);
      PatchRows(rows, w.value.requestId, StatusUpdate(w.value.status))
  }

  lemma StatusWriteEffect(rows: seq<Record>, id: Value, status: string)
    ensures forall i :: 0 <= i < |rows| && HasId(rows[i], id) ==>
      Merge(rows[i], StatusUpdate(status)) == rows[i]["status" := Str(status)]
  {
    forall i | 0 <= i < |rows| && HasId(rows[i], id)
      ensures Merge(rows[i], StatusUpdate(status)) == rows[i]["status" := Str(status)]
    {
      StatusOnlyPatch(rows[i], status);
    }
  }

  /** Performs the write, if any, through the row-store adapter. */
  method ApplyWrite(requests: Table, w: Option<StatusWrite>)
    requires requests.name == "requests"
    modifies requests
    ensures requests.rows == Written(old(requests.rows), w)
  {
    if w.Some? {
      var updated := requests.PatchRow(w.value.requestId, map["status" := Str(w.value.status)]);
    }
  }

  /** A status write leaves a row's id alone, so it matches the same requests afterwards. */
  lemma StatusKeepsId(row: Record, id: Value, status: string)
    ensures HasId(row["status" := Str(status)], id) <==> HasId(row, id)
  {
    assert Get(row["status" := Str(status)], "id") == Get(row, "id");
  }

  /** Writing the same status again changes nothing: re-delivered writes are harmless. */
  lemma {:induction false} WriteIdempotent(rows: seq<Record>, w: Option<StatusWrite>)
    ensures Written(Written(rows, w), w) == Written(rows, w)
  {
    if w.Some? {
      PatchIdempotent(rows, w.value.requestId, StatusUpdate(w.value.status));
    }
  }

  lemma RowLaterWins(row: Record, first: string, second: string)
    ensures row["status" := Str(first)]["status" := Str(second)] == row["status" := Str(second)]
  {
  }

  /** Writes are unconditional: of two writes to one request, the later status is the one that stays. */
  lemma {:induction false} LaterWriteWins(rows: seq<Record>, id: Value, first: string, second: string)
    ensures Written(Written(rows, Some(StatusWrite(id, first))), Some(StatusWrite(id, second))) ==
            Written(rows, Some(StatusWrite(id, second)))
  {
    var once := Written(rows, Some(StatusWrite(id, first)));
    var twice := Written(once, Some(StatusWrite(id, second)));
    var direct := Written(rows, Some(StatusWrite(id, second)));
    forall i | 0 <= i < |rows|
      ensures twice[i] == direct[i]
    {
      StatusKeepsId(rows[i], id, first);
      RowLaterWins(rows[i], first, second);
    }
    assert |twice| == |direct|;
  }
}
