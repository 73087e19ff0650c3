/** The checkout route: authenticate, insert a pending order, link it to its
    external id, ask the gateway for a token and delete the order again when
    the gateway refuses. */
module CheckoutRoute {
  import opened Shared
  import opened Decimal
  import opened OrderStore
  import opened Snap

  const InsertFailedText: string := "Gagal membuat catatan pesanan di database."
  const TokenFailedText: string := "Failed to create transaction token: "
  /** The placeholder phone number every order carries. */
  const PlaceholderPhone: string := "08123456789"

  /** `email.split("@")[0]`: the text before the first '@'. */
  function BeforeAt(email: string): (r: string)
    ensures |r| <= |email| && r == email[..|r|]
    ensures forall i :: 0 <= i < |r| ==> r[i] != '@'
    ensures |r| < |email| ==> email[|r|] == '@'
  {
    if email == [] || email[0] == '@' then [] else [email[0]] + BeforeAt(email[1..])
  }

  /** `customer_details`: the profile's full name, else the e-mail's local part. */
  function CustomerDetails(user: User, fullName: Option<string>): (c: Customer)
    ensures c.email == user.email && c.phone == PlaceholderPhone
    ensures Present(fullName) ==> c.firstName == fullName
    ensures !Present(fullName) && user.email.Some? ==> c.firstName == Some(BeforeAt(user.email.value))
    ensures !Present(fullName) && user.email.None? ==> c.firstName.None?
  {
    var firstName := if Present(fullName) then fullName
                     else if user.email.Some? then Some(BeforeAt(user.email.value))
                     else None;
    Customer(firstName, user.email, PlaceholderPhone)
  }

  /** The row the route inserts: `total_price` and `items` exactly as read from the body. */
  function PendingOrder(user: User, body: map<string, Json>, customer: Customer): (o: Order)
    ensures o.status == "pending" && o.userId == user.id && o.midtransOrderId.None?
    ensures o.totalPrice == Field(body, "totalPrice") && o.items == Field(body, "items")
  {
    Order(user.id, Field(body, "totalPrice"), "pending", Field(body, "items"), customer, None)
  }

  /** The external id the route derives from the inserted row's serial. */
  function ExternalId(serial: nat): (s: string)
    ensures |s| > |TrxPrefix| && s[..|TrxPrefix|] == TrxPrefix
    ensures Canonical(s[|TrxPrefix|..]) && ParseDigits(s[|TrxPrefix|..]) == serial
  {
    var s := TrxPrefix + NatToString(serial);
    assert s[|TrxPrefix|..] == NatToString(serial);
    s
  }

  /** Distinct serials get distinct external ids, so no two rows are linked to the same one. */
  lemma ExternalIdInjective(m: nat, n: nat)
    ensures ExternalId(m) == ExternalId(n) <==> m == n
  {
    if ExternalId(m) == ExternalId(n) {
      assert NatToString(m) == ExternalId(m)[|TrxPrefix|..];
      assert NatToString(n) == ExternalId(n)[|TrxPrefix|..];
      PrintInjective(m, n);
    }
  }

  /** `POST /api/checkout`. `user` is the auth collaborator's answer, `fullName`
      the profile lookup; `insertOk`, `linkOk` and `deleteOk` are the store's
      answers to the insert, the `midtrans_order_id` update and the cleanup. */
  method Post(table: OrdersTable, snap: SnapClient, body: map<string, Json>, user: Option<User>,
              fullName: Option<string>, insertOk: bool, linkOk: bool, deleteOk: bool)
    returns (response: Response)
    requires table.Valid()
    modifies table, snap`requests
    ensures table.Valid()
    // no authenticated user: 401 before any insert or gateway call
    ensures user.None? ==>
      response == Response(401, TextBody("Unauthorized")) &&
      table.rows == old(table.rows) && snap.requests == old(snap.requests)
    // insert failed: 500, and the gateway is never called
    ensures user.Some? && !insertOk ==>
      response == Response(500, TextBody(InsertFailedText)) &&
      table.rows == old(table.rows) && snap.requests == old(snap.requests)
    ensures user.Some? && insertOk ==>
      var id := Serial(old(table.lastSerial) + 1);
      var ext := ExternalId(id.n);
      var row := PendingOrder(user.value, body, CustomerDetails(user.value, fullName));
      var linked := if linkOk then row.(midtransOrderId := Some(ext)) else row;
      id !in old(table.rows) &&
      if !Field(body, "items").JItems? then
        // `items.map` throws after the insert: 500, the row stays unlinked and nothing cleans it up
        response == Response(500, TextBody(ItemsNotArrayText)) &&
        table.rows == old(table.rows)[id := row] && snap.requests == old(snap.requests)
      else
        var request := TokenRequest(ext, Field(body, "totalPrice"),
                                    ItemDetails(Field(body, "items").items), row.customer);
        snap.requests == old(snap.requests) + [request] &&
        match snap.answer(request)
        case GatewayError(message) =>
          // the just-inserted row is deleted; if that fails too it stays, linked
          response == Response(500, TextBody(TokenFailedText + message)) &&
          table.rows == (if deleteOk then old(table.rows) else old(table.rows)[id := linked])
        case Token(token) =>
          response == Response(200, JsonBody(map["token" := JStr(token)])) &&
          table.rows == old(table.rows)[id := linked]
  {
    if user.None? {
      return Response(401, TextBody("Unauthorized"));
    }
    var u := user.value;
    var items := Field(body, "items");
    var totalPrice := Field(body, "totalPrice");
    var customerDetails := CustomerDetails(u, fullName);

    var inserted := table.Insert(Order(u.id, totalPrice, "pending", items, customerDetails, None), insertOk);
    if inserted.None? {
      return Response(500, TextBody(InsertFailedText));
    }
    var id := inserted.value;
    var orderId := ExternalId(id.n);

    if !items.JItems? {
      return Response(500, TextBody(ItemsNotArrayText));
    }
    var parameter := TokenRequest(orderId, totalPrice, ItemDetails(items.items), customerDetails);

    // the update's own error is not looked at
    var _ := table.UpdateMidtransOrderId(id, orderId, linkOk);

    var token := snap.CreateTransactionToken(parameter);
    if token.GatewayError? {
      var _ := table.Delete(id, deleteOk);
      return Response(500, TextBody(TokenFailedText + token.message));
    }
    response := Response(200, JsonBody(map["token" := JStr(token.token)]));
  }
}
