/** The gateway's asynchronous notification: the signature check, recovery of
    the internal order id from the external one, the status mapping and the
    write to `orders`. */
module MidtransNotification {
  import opened Shared
  import opened Decimal
  import opened OrderStore

  /** The fields of the gateway's status response the handler reads. */
  datatype StatusResponse = StatusResponse(
    orderId: string,
    transactionStatus: string,
    statusCode: string,
    grossAmount: string,
    signatureKey: string,
    customField1: Option<string>)

  /** The handler's answer together with the table it leaves behind. */
  datatype Handled = Handled(response: Response, rows: map<RowId, Order>)

  /** The status vocabulary the order pages are typed with. */
  const ReaderStatuses: set<string> := {"pending", "success", "failure"}

  const FailedStatuses: set<string> := {"deny", "expire", "cancel", "failure"}

  /** Strings of the form `belibeli-trx-` followed by one or more decimal digits and nothing else. */
  ghost predicate IsTrxId(s: string)
  {
    exists d :: s == TrxPrefix + d && d != [] && AllDigits(d)
  }

  /** `extractInternalOrderId`: match `^belibeli-trx-(\d+)$`, then `parseInt` the group. */
  function ExtractInternalOrderId(midtransOrderId: string): (r: Option<nat>)
    ensures r.Some? <==> IsTrxId(midtransOrderId)
    ensures forall d :: midtransOrderId == TrxPrefix + d && AllDigits(d) ==>
      (r.Some? ==> r.value == ParseDigits(d))
  {
    var n := |TrxPrefix|;
    if |midtransOrderId| > n && midtransOrderId[..n] == TrxPrefix && AllDigits(midtransOrderId[n..]) then
      assert midtransOrderId == TrxPrefix + midtransOrderId[n..];
      Some(ParseDigits(midtransOrderId[n..]))
    else
      assert forall d :: midtransOrderId == TrxPrefix + d ==> d == midtransOrderId[n..];
      None
  }

  /** Every id the checkout route mints parses back to the row's serial. */
  lemma ExtractAfterCheckoutFormat(n: nat)
    ensures ExtractInternalOrderId(TrxPrefix + NatToString(n)) == Some(n)
  {
    var s := TrxPrefix + NatToString(n);
    assert s == TrxPrefix + NatToString(n);
  }

  /** Conversely, an id that parses and has no leading zero is exactly the
      checkout format of the number it parses to. */
  lemma ExtractCanonical(s: string)
    requires ExtractInternalOrderId(s).Some?
    requires |s| > |TrxPrefix| && (s[|TrxPrefix|] == '0' ==> |s| == |TrxPrefix| + 1)
    ensures s == TrxPrefix + NatToString(ExtractInternalOrderId(s).value)
  {
    var d :| s == TrxPrefix + d && d != [] && AllDigits(d);
    assert d == s[|TrxPrefix|..];
    PrintParsed(d);
  }

  /** The row selector: `custom_field1 || order_id`. */
  function SelectedOrderId(n: StatusResponse): (s: string)
    ensures Present(n.customField1) ==> s == n.customField1.value
    ensures !Present(n.customField1) ==> s == n.orderId
  {
    if Present(n.customField1) then n.customField1.value else n.orderId
  }

  /** The text signed: `order_id + status_code + gross_amount + serverKey`, no delimiters. */
  function SignatureInput(n: StatusResponse, serverKey: string): (s: string)
    ensures |s| == |n.orderId| + |n.statusCode| + |n.grossAmount| + |serverKey|
    ensures s[..|n.orderId|] == n.orderId
    ensures s[|n.orderId|..|n.orderId| + |n.statusCode|] == n.statusCode
    ensures s[|n.orderId| + |n.statusCode|..|s| - |serverKey|] == n.grossAmount
    ensures s[|s| - |serverKey|..] == serverKey
  {
    n.orderId + n.statusCode + n.grossAmount + serverKey
  }

  /** The signature covers `order_id`, `status_code` and `gross_amount` only:
      `transaction_status` and `custom_field1` are not signed. */
  predicate SignatureValid(n: StatusResponse, serverKey: string, sha512Hex: string -> string): (v: bool)
    ensures v <==>
      sha512Hex(SignatureInput(n.(transactionStatus := "", customField1 := None), serverKey)) == n.signatureKey
  {
    sha512Hex(SignatureInput(n, serverKey)) == n.signatureKey
  }

  /** The status written for a notification. It reads nothing but the
      notification: not the stored status. Failure is spelt "failed". */
  function NewStatus(transactionStatus: string, statusCode: string): (r: string)
    ensures r in {"success", "pending", "failed"}
    ensures r == "success" <==>
      transactionStatus == "settlement" || (transactionStatus == "capture" && statusCode == "200")
    ensures r == "failed" <==> transactionStatus in FailedStatuses
  {
    if (transactionStatus == "capture" && statusCode == "200") || transactionStatus == "settlement" then "success"
    else if transactionStatus == "pending" then "pending"
    else if transactionStatus in FailedStatuses then "failed"
    else "pending"
  }

  /** The written status is a reader status exactly when it is not a failure:
      every failure is written as "failed", which no reader expects. */
  lemma WrittenFailureUnreadable(transactionStatus: string, statusCode: string)
    ensures NewStatus(transactionStatus, statusCode) in ReaderStatuses <==> transactionStatus !in FailedStatuses
    ensures NewStatus(transactionStatus, statusCode) != "failure"
  {
  }

  /** The whole handler as a function of the table before it. `resp` is None
      when reading the request or the gateway's status call threw. */
  function Reconcile(rows: map<RowId, Order>, resp: Option<StatusResponse>, serverKey: string,
                     sha512Hex: string -> string, updateOk: bool): (h: Handled)
    ensures h.response.status in {200, 400, 403, 500}
    ensures h.response.status != 200 ==> h.rows == rows
    ensures h.rows.Keys == rows.Keys
    ensures forall k :: k in rows && h.rows[k] != rows[k] ==>
      k.Serial? && h.rows[k] == rows[k].(status := h.rows[k].status)
    ensures resp.Some? && !SignatureValid(resp.value, serverKey, sha512Hex) ==> h.response.status == 403
    ensures (resp.Some? && SignatureValid(resp.value, serverKey, sha512Hex) &&
             ExtractInternalOrderId(SelectedOrderId(resp.value)) in {None, Some(0)}) ==> h.response.status == 400
    // a thrown request or status call answers 500 and writes nothing
    ensures resp.None? ==> h.response.status == 500
    // a verified notification with a usable id: 200 and the status write when the store
    // accepts the update, 500 when it reports an error
    ensures (resp.Some? && SignatureValid(resp.value, serverKey, sha512Hex) &&
             ExtractInternalOrderId(SelectedOrderId(resp.value)) !in {None, Some(0)}) ==>
      h.response.status == (if updateOk then 200 else 500) &&
      (updateOk ==> h.rows == WithStatus(rows, Serial(ExtractInternalOrderId(SelectedOrderId(resp.value)).value),
                                         NewStatus(resp.value.transactionStatus, resp.value.statusCode)))
  {
    match resp
    case None => Handled(Response(500, TextBody("Internal Server Error")), rows)
    case Some(n) =>
      if !SignatureValid(n, serverKey, sha512Hex) then
        Handled(Response(403, TextBody("Invalid signature")), rows)
      else
        var internalOrderId := ExtractInternalOrderId(SelectedOrderId(n));
        if internalOrderId.None? || internalOrderId.value == 0 then
          Handled(Response(400, TextBody("Invalid Order ID Format")), rows)
        else if !updateOk then
          Handled(Response(500, TextBody("Supabase Update Failed")), rows)
        else
          Handled(Response(200, TextBody("Notification received successfully")),
                  WithStatus(rows, Serial(internalOrderId.value), NewStatus(n.transactionStatus, n.statusCode)))
  }

  /** `POST`: verify, extract, map the status through an if-chain, update the row. */
  method Post(table: OrdersTable, resp: Option<StatusResponse>, serverKey: string,
              sha512Hex: string -> string, updateOk: bool) returns (response: Response)
    requires table.Valid()
    modifies table`rows
    ensures table.Valid()
    ensures Handled(response, table.rows) == Reconcile(old(table.rows), resp, serverKey, sha512Hex, updateOk)
  {
    if resp.None? {
      return Response(500, TextBody("Internal Server Error"));
    }
    var n := resp.value;
    var calculatedSignature := sha512Hex(n.orderId + n.statusCode + n.grossAmount + serverKey);
    if calculatedSignature != n.signatureKey {
      return Response(403, TextBody("Invalid signature"));
    }
    var midtransOrderId := if Present(n.customField1) then n.customField1.value else n.orderId;
    var internalOrderId := ExtractInternalOrderId(midtransOrderId);
    if internalOrderId.None? || internalOrderId.value == 0 {
      return Response(400, TextBody("Invalid Order ID Format"));
    }
    var newStatus := "pending";
    if (n.transactionStatus == "capture" && n.statusCode == "200") || n.transactionStatus == "settlement" {
      newStatus := "success";
    } else if n.transactionStatus == "pending" {
      newStatus := "pending";
    } else if n.transactionStatus == "deny" || n.transactionStatus == "expire" ||
              n.transactionStatus == "cancel" || n.transactionStatus == "failure" {
      newStatus := "failed";
    }
    var ok := table.UpdateStatus(Serial(internalOrderId.value), newStatus, updateOk);
    if !ok {
      return Response(500, TextBody("Supabase Update Failed"));
    }
    response := Response(200, TextBody("Notification received successfully"));
  }

  /** Replaying a notification changes nothing further: same answer, same table. */
  lemma ReplayIdempotent(rows: map<RowId, Order>, resp: Option<StatusResponse>, serverKey: string,
                         sha512Hex: string -> string, updateOk: bool)
    ensures var h := Reconcile(rows, resp, serverKey, sha512Hex, updateOk);
      Reconcile(h.rows, resp, serverKey, sha512Hex, updateOk) == h
  {
    var h := Reconcile(rows, resp, serverKey, sha512Hex, updateOk);
    if resp.Some? && h.response.status == 200 {
      var n := resp.value;
      var id := Serial(ExtractInternalOrderId(SelectedOrderId(n)).value);
      WithStatusIdempotent(rows, id, NewStatus(n.transactionStatus, n.statusCode));
    }
  }

  /** No non-regression guard: a verified notification for an existing row
      overwrites its status with the mapped one whatever the row held before,
      "success" included. */
  lemma OverwritesStoredStatus(rows: map<RowId, Order>, n: StatusResponse, serverKey: string,
                               sha512Hex: string -> string, id: nat)
    requires SignatureValid(n, serverKey, sha512Hex)
    requires ExtractInternalOrderId(SelectedOrderId(n)) == Some(id) && id != 0
    requires Serial(id) in rows
    ensures Reconcile(rows, Some(n), serverKey, sha512Hex, true).rows ==
      rows[Serial(id) := rows[Serial(id)].(status := NewStatus(n.transactionStatus, n.statusCode))]
  {
  }

  /** A row that was paid goes back to "pending" when a verified `pending`
      notification arrives after the `settlement` one. */
  lemma LatePendingDowngradesSuccess(rows: map<RowId, Order>, id: nat, serverKey: string,
                                     sha512Hex: string -> string, grossAmount: string)
    requires id != 0 && Serial(id) in rows
    ensures
      var ext := TrxPrefix + NatToString(id);
      var settle := StatusResponse(ext, "settlement", "200", grossAmount,
                                   sha512Hex(ext + "200" + grossAmount + serverKey), None);
      var pend := StatusResponse(ext, "pending", "201", grossAmount,
                                 sha512Hex(ext + "201" + grossAmount + serverKey), None);
      var paid := Reconcile(rows, Some(settle), serverKey, sha512Hex, true).rows;
      paid[Serial(id)].status == "success" &&
      Reconcile(paid, Some(pend), serverKey, sha512Hex, true).rows[Serial(id)].status == "pending"
  {
    ExtractAfterCheckoutFormat(id);
  }

  /** When `custom_field1` is present, it and not `order_id` selects the row. */
  lemma CustomFieldSelectsRow(rows: map<RowId, Order>, n: StatusResponse, serverKey: string,
                              sha512Hex: string -> string, id: nat)
    requires SignatureValid(n, serverKey, sha512Hex)
    requires Present(n.customField1)
    requires ExtractInternalOrderId(n.customField1.value) == Some(id) && id != 0
    ensures Reconcile(rows, Some(n), serverKey, sha512Hex, true).rows ==
      WithStatus(rows, Serial(id), NewStatus(n.transactionStatus, n.statusCode))
  {
  }

  /** Rows keyed by a UUID are never written by a notification. */
  lemma UuidRowsUntouched(rows: map<RowId, Order>, resp: Option<StatusResponse>, serverKey: string,
                          sha512Hex: string -> string, updateOk: bool, u: string)
    requires Uuid(u) in rows
    ensures Reconcile(rows, resp, serverKey, sha512Hex, updateOk).rows[Uuid(u)] == rows[Uuid(u)]
  {
  }
}
