/**
 * `emitirNotaFiscal`: look up one approved transaction by a provider's
 * transaction id, build its payload, post it, log the outcome, and return the
 * transaction. The store, the HTTP exchange and the log sink are abstracted:
 * the store's answer to the query and the HTTP status and body are inputs,
 * and the log line becomes the event it reports.
 */
module Emission {
  import opened Wrappers
  import opened InvoicePayload

  /** A row of the `transacoes` table: the selected columns plus the filter columns. */
  datatype StoredRow = StoredRow(
    record: Transaction,
    wooviTxId: Option<string>,
    efibankTxId: Option<string>,
    lunoxpayTxId: Option<string>,
    status: string)

  /** What running the lookup query yields: the table, or a `PDOException`. */
  datatype QueryOutcome = Rows(rows: seq<StoredRow>) | Failed(message: string)

  /** The kind of line written to the error log, with the values it reports. */
  datatype LogEvent =
    | NotFound(txId: string)
    | Emitted(txId: string)
    | ApiError(httpCode: int, response: string)
    | DatabaseError(message: string)

  /**
   * The query's WHERE clause: one of the three provider columns equals the
   * reference (a NULL column equals nothing) and the transaction is approved.
   */
  predicate Matches(row: StoredRow, txId: string) {
    (row.wooviTxId == Some(txId) || row.efibankTxId == Some(txId) || row.lunoxpayTxId == Some(txId))
    && row.status == "Aprovado"
  }

  /** The invoicing API accepted the invoice. */
  predicate Accepted(httpCode: int) {
    httpCode == 201 || httpCode == 200
  }

  /**
   * `LIMIT 1` over the rows satisfying `Matches`: `None` exactly when no row
   * matches; otherwise the selected columns of a matching row, the first one
   * in table order.
   */
  function Select(rows: seq<StoredRow>, txId: string): (r: Option<Transaction>)
    ensures r.None? <==> forall i :: 0 <= i < |rows| ==> !Matches(rows[i], txId)
    ensures r.Some? ==>
              exists i :: 0 <= i < |rows| && Matches(rows[i], txId) && rows[i].record == r.value
                           && (forall j :: 0 <= j < i ==> !Matches(rows[j], txId))
  {
    if rows == [] then None
    else if Matches(rows[0], txId) then Some(rows[0].record)
    else
      var r := Select(rows[1..], txId);
      assert forall i :: 1 <= i < |rows| ==> rows[i] == rows[1..][i - 1];
      if r.Some? then
        var i :| 0 <= i < |rows| - 1 && Matches(rows[1..][i], txId) && rows[1..][i].record == r.value
                 && (forall j :: 0 <= j < i ==> !Matches(rows[1..][j], txId));
        assert Matches(rows[i + 1], txId) && rows[i + 1].record == r.value;
        r
      else
        r
  }

  /**
   * One call of `emitirNotaFiscal`. `issuedOn` and `effectiveDate` are the two
   * clock readings; `httpCode` and `response` are what the API answered (code
   * 0 and "" when the request never got an answer). `sent` is the payload
   * posted, `None` when no request was made.
   */
  method EmitInvoice(txId: string, store: QueryOutcome, issuedOn: string, effectiveDate: string,
                     httpCode: int, response: string)
    returns (result: Option<Transaction>, sent: Option<Invoice>, event: LogEvent)
    // A store failure: nothing returned, nothing posted, the failure logged.
    ensures store.Failed? ==> result == None && sent == None && event == DatabaseError(store.message)
    // No approved row for the reference: nothing returned, nothing posted.
    ensures store.Rows? && (forall i :: 0 <= i < |store.rows| ==> !Matches(store.rows[i], txId))
      ==> result == None && sent == None && event == NotFound(txId)
    // An approved row for the reference is always returned, whatever the API answered.
    ensures store.Rows? && (exists i :: 0 <= i < |store.rows| && Matches(store.rows[i], txId))
      ==> result.Some?
    // What is returned is the selected columns of a matching row.
    ensures result.Some? ==>
              store.Rows? && exists i :: 0 <= i < |store.rows| && Matches(store.rows[i], txId)
                                         && store.rows[i].record == result.value
    // Its payload was posted, and the outcome logged as success iff the code is 200 or 201.
    ensures result.Some? ==> sent == Some(BuildInvoice(result.value, issuedOn, effectiveDate))
    ensures result.Some? ==> (event == Emitted(txId) <==> Accepted(httpCode))
    ensures result.Some? && !Accepted(httpCode) ==> event == ApiError(httpCode, response)
  {
    match store
    case Failed(message) =>
      return None, None, DatabaseError(message);
    case Rows(rows) =>
      var found := Select(rows, txId);
      if found.None? {
        return None, None, NotFound(txId);
      }
      var payload := BuildInvoice(found.value, issuedOn, effectiveDate);
      sent := Some(payload);
      if Accepted(httpCode) {
        event := Emitted(txId);
      } else {
        event := ApiError(httpCode, response);
      }
      result := found;
  }
}
