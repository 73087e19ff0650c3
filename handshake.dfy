/** How the pieces meet: the page's request against what the checkout route
    reads, the route's reply against what the page expects, repay's ids
    against the notification's parser, and whole payment runs. */
module Handshake {
  import opened Shared
  import opened Decimal
  import opened OrderStore
  import opened Snap
  import opened MidtransNotification
  import opened CheckoutRoute
  import opened RepayRoute
  import opened CartContext
  import opened CheckoutPage

  /** The page sends `totalAmount`; the route reads `totalPrice`, finds it
      undefined, and stores and forwards that instead of the page's total. */
  lemma ClientTotalNeverReachesRoute(user: User, userId: string, totalAmount: int, apiItems: seq<Item>, customer: Customer)
    ensures Field(Payload(userId, totalAmount, apiItems), "totalPrice") == JNull
    ensures PendingOrder(user, Payload(userId, totalAmount, apiItems), customer).totalPrice == JNull
    ensures PendingOrder(user, Payload(userId, totalAmount, apiItems), customer).items == JItems(apiItems)
  {
    assert "totalPrice" !in Payload(userId, totalAmount, apiItems);
  }

  /** The route answers success with `{ token }` and failure with text; the page
      wants `success` and `snapToken`. No answer of the route opens the popup
      (so the page never clears the cart): a success shows the generic failure
      alert and a failure reads as a connection error. */
  lemma RouteReplyNeverOpensPopup(token: string, status: int, text: string)
    ensures OutcomeOf(Some(Response(200, JsonBody(map["token" := JStr(token)])))) ==
      FailureAlert(FailureAlertPrefix + UnknownErrorText)
    ensures OutcomeOf(Some(Response(status, TextBody(text)))) == ConnectionAlert
  {
    var data := map["token" := JStr(token)];
    assert "success" !in data && "message" !in data;
  }

  /** The total the page computes is the amount the gateway adds up from the
      item details the route builds out of the page's API items. */
  lemma {:induction false} PageTotalMatchesItemDetails(cart: seq<CartItem>, apiItems: seq<Item>)
    requires |apiItems| == |cart|
    requires forall i :: 0 <= i < |cart| ==>
      apiItems[i] == Item(cart[i].id, cart[i].name, cart[i].price, cart[i].quantity)
    ensures DetailsTotal(ItemDetails(apiItems)) == CartTotal(cart)
  {
    if cart != [] {
      var n := |cart|;
      PageTotalMatchesItemDetails(cart[..n - 1], apiItems[..n - 1]);
      assert ItemDetails(apiItems)[..n - 1] == ItemDetails(apiItems[..n - 1]);
    }
  }

  /** A repay external id (`belibeli-trx-` + UUID) never parses. */
  lemma RepayIdNeverParses(uuid: string)
    requires UuidShaped(uuid)
    ensures ExtractInternalOrderId(TrxPrefix + uuid).None?
  {
    forall d | TrxPrefix + uuid == TrxPrefix + d && d != []
      ensures !AllDigits(d)
    {
      assert d == (TrxPrefix + d)[|TrxPrefix|..];
      assert uuid == (TrxPrefix + uuid)[|TrxPrefix|..];
      assert !IsDigit(d[8]);
    }
  }

  /** So a notification for a repay attempt (repay sets no `custom_field1`) is
      never applied: it is refused, and the table is left as it was. */
  lemma RepayNotificationNeverApplied(rows: map<RowId, Order>, n: StatusResponse, uuid: string,
                                      serverKey: string, sha512Hex: string -> string, updateOk: bool)
    requires UuidShaped(uuid) && SelectedOrderId(n) == TrxPrefix + uuid
    ensures var h := Reconcile(rows, Some(n), serverKey, sha512Hex, updateOk);
      h.rows == rows && h.response.status in {400, 403}
  {
    RepayIdNeverParses(uuid);
  }

  /** The checkout run end to end: the row checkout leaves pending under
      serial k, a verified `settlement` for its external id marks it "success",
      and a duplicate delivery changes nothing. */
  lemma CheckoutThenSettlement(rows: map<RowId, Order>, k: nat, serverKey: string,
                               sha512Hex: string -> string, grossAmount: string)
    requires k != 0 && Serial(k) in rows && rows[Serial(k)].midtransOrderId == Some(ExternalId(k))
    ensures
      var n := StatusResponse(ExternalId(k), "settlement", "200", grossAmount,
                              sha512Hex(ExternalId(k) + "200" + grossAmount + serverKey), None);
      var h := Reconcile(rows, Some(n), serverKey, sha512Hex, true);
      h.response.status == 200 &&
      h.rows == rows[Serial(k) := rows[Serial(k)].(status := "success")] &&
      Reconcile(h.rows, Some(n), serverKey, sha512Hex, true) == h
  {
    var n := StatusResponse(ExternalId(k), "settlement", "200", grossAmount,
                            sha512Hex(ExternalId(k) + "200" + grossAmount + serverKey), None);
    ExtractAfterCheckoutFormat(k);
    ReplayIdempotent(rows, Some(n), serverKey, sha512Hex, true);
  }

  /** An expired order is marked "failed", and a later verified `settlement`
      for it still turns it into "success": nothing keeps a final status. */
  lemma SettlementAfterExpire(rows: map<RowId, Order>, k: nat, serverKey: string,
                              sha512Hex: string -> string, grossAmount: string)
    requires k != 0 && Serial(k) in rows
    ensures
      var expire := StatusResponse(ExternalId(k), "expire", "407", grossAmount,
                                   sha512Hex(ExternalId(k) + "407" + grossAmount + serverKey), None);
      var settle := StatusResponse(ExternalId(k), "settlement", "200", grossAmount,
                                   sha512Hex(ExternalId(k) + "200" + grossAmount + serverKey), None);
      var expired := Reconcile(rows, Some(expire), serverKey, sha512Hex, true).rows;
      expired[Serial(k)].status == "failed" &&
      Reconcile(expired, Some(settle), serverKey, sha512Hex, true).rows[Serial(k)].status == "success"
  {
    ExtractAfterCheckoutFormat(k);
  }
}
