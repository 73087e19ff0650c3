/** The repay route: a new payment attempt for an order the client sends back.
    It mints a UUID-based external id, asks the gateway for a token first and
    only then inserts a new pending row copied from the old order. */
module RepayRoute {
  import opened Shared
  import opened Decimal
  import opened OrderStore
  import opened Snap

  const RepayInsertFailedText: string := "Gagal membuat catatan pesanan baru untuk repay."

  /** The old order as the client posts it back in `{ order }`. */
  datatype OldOrder = OldOrder(totalPrice: Json, items: Json, customer: Customer)

  /** The textual shape of a version 4 UUID: 36 characters with hyphens at 8, 13, 18 and 23. */
  predicate UuidShaped(u: string)
  {
    |u| == 36 && u[8] == '-' && u[13] == '-' && u[18] == '-' && u[23] == '-'
  }

  /** The new row: the old order's price, items and customer, pending, owned by the caller. */
  function RepayOrder(user: User, oldOrder: OldOrder, uuid: string): (o: Order)
    ensures o.status == "pending" && o.userId == user.id
    ensures o.totalPrice == oldOrder.totalPrice && o.items == oldOrder.items && o.customer == oldOrder.customer
    ensures o.midtransOrderId == Some(TrxPrefix + uuid)
  {
    Order(user.id, oldOrder.totalPrice, "pending", oldOrder.items, oldOrder.customer, Some(TrxPrefix + uuid))
  }

  /** A repay external id never equals one minted by checkout: UUID text is not a digit run. */
  lemma RepayIdDiffersFromCheckoutId(uuid: string, serial: nat)
    requires UuidShaped(uuid)
    ensures TrxPrefix + uuid != TrxPrefix + NatToString(serial)
  {
    var digits := NatToString(serial);
    assert (TrxPrefix + uuid)[|TrxPrefix|..] == uuid;
    assert (TrxPrefix + digits)[|TrxPrefix|..] == digits;
    assert !IsDigit(uuid[8]);
    assert uuid != digits;
  }

  /** Two repays give distinct external ids exactly when their UUIDs differ. */
  lemma RepayIdsFollowUuids(u1: string, u2: string)
    ensures TrxPrefix + u1 == TrxPrefix + u2 <==> u1 == u2
  {
    if TrxPrefix + u1 == TrxPrefix + u2 {
      assert u1 == (TrxPrefix + u1)[|TrxPrefix|..];
      assert u2 == (TrxPrefix + u2)[|TrxPrefix|..];
    }
  }

  /** `POST /api/repay`. `uuid` is the fresh UUID; `insertOk` is the store's
      answer to the insert. */
  method Post(table: OrdersTable, snap: SnapClient, oldOrder: OldOrder, user: Option<User>,
              uuid: string, insertOk: bool) returns (response: Response)
    requires table.Valid()
    modifies table`rows, snap`requests
    ensures table.Valid()
    // the old order, like every existing row, is never updated or deleted
    ensures forall k :: k in old(table.rows) ==> k in table.rows && table.rows[k] == old(table.rows)[k]
    ensures user.None? ==>
      response == Response(401, TextBody("Unauthorized")) &&
      table.rows == old(table.rows) && snap.requests == old(snap.requests)
    ensures user.Some? && !oldOrder.items.JItems? ==>
      response.status == 500 && table.rows == old(table.rows) && snap.requests == old(snap.requests)
    ensures user.Some? && oldOrder.items.JItems? ==>
      var request := TokenRequest(TrxPrefix + uuid, oldOrder.totalPrice,
                                  ItemDetails(oldOrder.items.items), oldOrder.customer);
      // the token is requested before any store write
      snap.requests == old(snap.requests) + [request] &&
      match snap.answer(request)
      case GatewayError(message) =>
        response == Response(500, TextBody(message)) && table.rows == old(table.rows)
      case Token(token) =>
        if insertOk && Uuid(uuid) !in old(table.rows) then
          response == Response(200, JsonBody(map["token" := JStr(token), "orderId" := JStr(uuid)])) &&
          table.rows == old(table.rows)[Uuid(uuid) := RepayOrder(user.value, oldOrder, uuid)]
        else
          // the issued token is not returned
          response == Response(500, TextBody(RepayInsertFailedText)) && table.rows == old(table.rows)
  {
    if user.None? {
      return Response(401, TextBody("Unauthorized"));
    }
    var newInternalOrderId := uuid;
    var newMidtransOrderId := TrxPrefix + newInternalOrderId;
    if !oldOrder.items.JItems? {
      return Response(500, TextBody(ItemsNotArrayText));
    }
    var parameter := TokenRequest(newMidtransOrderId, oldOrder.totalPrice,
                                  ItemDetails(oldOrder.items.items), oldOrder.customer);
    var token := snap.CreateTransactionToken(parameter);
    if token.GatewayError? {
      return Response(500, TextBody(token.message));
    }
    var inserted := table.InsertWithUuid(newInternalOrderId,
      Order(user.value.id, oldOrder.totalPrice, "pending", oldOrder.items, oldOrder.customer,
            Some(newMidtransOrderId)), insertOk);
    if !inserted {
      return Response(500, TextBody(RepayInsertFailedText));
    }
    response := Response(200, JsonBody(map["token" := JStr(token.token), "orderId" := JStr(newInternalOrderId)]));
  }
}
