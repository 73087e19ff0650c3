/** The checkout page: the memoised total and item lists computed from the
    cart, the guards in front of the checkout request and the routing of the
    payment popup's outcomes. */
module CheckoutPage {
  import opened Shared
  import opened Decimal
  import opened CartContext

  /** One line of the order summary shown on the page. */
  datatype SummaryLine = SummaryLine(name: string, quantity: int, price: int)

  /** Σ price × quantity over the cart. */
  function CartTotal(items: seq<CartItem>): (t: int)
    ensures (forall i :: 0 <= i < |items| ==> items[i].price >= 0 && items[i].quantity >= 0) ==> t >= 0
    ensures (forall i :: 0 <= i < |items| ==> items[i].quantity == 0) ==> t == 0
  {
    if items == [] then 0
    else CartTotal(items[..|items| - 1]) + items[|items| - 1].price * items[|items| - 1].quantity
  }

  lemma {:induction false} CartTotalAppend(a: seq<CartItem>, b: seq<CartItem>)
    ensures CartTotal(a + b) == CartTotal(a) + CartTotal(b)
  {
    if b == [] {
      assert a + b == a;
    } else {
      assert (a + b)[..|a + b| - 1] == a + b[..|b| - 1];
      CartTotalAppend(a, b[..|b| - 1]);
    }
  }

  /** A cart whose prices and quantities are not negative has a positive
      total only if some item has both a positive price and a positive quantity. */
  lemma {:induction false} PositiveTotalNeedsPaidItem(items: seq<CartItem>)
    requires forall i :: 0 <= i < |items| ==> items[i].price >= 0 && items[i].quantity >= 0
    ensures CartTotal(items) >= 0
    ensures CartTotal(items) > 0 ==> exists i :: 0 <= i < |items| && items[i].price > 0 && items[i].quantity > 0
  {
    if items != [] {
      var init := items[..|items| - 1];
      PositiveTotalNeedsPaidItem(init);
      var last := items[|items| - 1];
      assert last.price * last.quantity >= 0;
      if CartTotal(init) > 0 {
        var i :| 0 <= i < |init| && init[i].price > 0 && init[i].quantity > 0;
        assert items[i] == init[i];
      } else if CartTotal(items) > 0 {
        assert last.price * last.quantity > 0;
        assert last.price > 0 && last.quantity > 0;
      }
    }
  }

  /** The `useMemo` body: one pass over the cart accumulating the total and
      pushing an API item and a summary line per cart item. */
  method ComputeSummary(cartItems: seq<CartItem>) returns (totalAmount: int, apiItems: seq<Item>, cartSummary: seq<SummaryLine>)
    ensures totalAmount == CartTotal(cartItems)
    ensures |apiItems| == |cartItems| && |cartSummary| == |cartItems|
    ensures forall i :: 0 <= i < |cartItems| ==>
      apiItems[i] == Item(cartItems[i].id, cartItems[i].name, cartItems[i].price, cartItems[i].quantity)
    ensures forall i :: 0 <= i < |cartItems| ==>
      cartSummary[i] == SummaryLine(cartItems[i].name, cartItems[i].quantity, cartItems[i].price)
  {
    var calculatedTotal := 0;
    var itemsForApi: seq<Item> := [];
    var summary: seq<SummaryLine> := [];
    var k := 0;
    while k < |cartItems|
      invariant 0 <= k <= |cartItems|
      invariant calculatedTotal == CartTotal(cartItems[..k])
      invariant |itemsForApi| == k && |summary| == k
      invariant forall i :: 0 <= i < k ==>
        itemsForApi[i] == Item(cartItems[i].id, cartItems[i].name, cartItems[i].price, cartItems[i].quantity)
      invariant forall i :: 0 <= i < k ==>
        summary[i] == SummaryLine(cartItems[i].name, cartItems[i].quantity, cartItems[i].price)
    {
      var item := cartItems[k];
      var itemTotal := item.price * item.quantity;
      assert cartItems[..k + 1][..k] == cartItems[..k];
      calculatedTotal := calculatedTotal + itemTotal;
      itemsForApi := itemsForApi + [Item(item.id, item.name, item.price, item.quantity)];
      summary := summary + [SummaryLine(item.name, item.quantity, item.price)];
      k := k + 1;
    }
    assert cartItems[..k] == cartItems;
    totalAmount, apiItems, cartSummary := calculatedTotal, itemsForApi, summary;
  }

  /** The API items the memo builds from a cart, one per cart item, in order. */
  function ApiItemsOf(cartItems: seq<CartItem>): (items: seq<Item>)
    ensures |items| == |cartItems|
    ensures forall i :: 0 <= i < |cartItems| ==>
      items[i] == Item(cartItems[i].id, cartItems[i].name, cartItems[i].price, cartItems[i].quantity)
  {
    seq(|cartItems|, i requires 0 <= i < |cartItems| =>
      Item(cartItems[i].id, cartItems[i].name, cartItems[i].price, cartItems[i].quantity))
  }

  /** The request body the page posts: `{ userId, totalAmount, items }`. */
  function Payload(userId: string, totalAmount: int, apiItems: seq<Item>): (body: map<string, Json>)
    ensures body.Keys == {"userId", "totalAmount", "items"}
    ensures Field(body, "userId") == JStr(userId)
    ensures Field(body, "totalAmount") == JNum(totalAmount) && Field(body, "items") == JItems(apiItems)
  {
    map["userId" := JStr(userId), "totalAmount" := JNum(totalAmount), "items" := JItems(apiItems)]
  }

  /** `${n}` for any integer. */
  function IntText(n: int): (s: string)
    ensures n >= 0 ==> s == NatToString(n)
    ensures n < 0 ==> s == "-" + NatToString(-n)
  {
    if n >= 0 then NatToString(n) else "-" + NatToString(-n)
  }

  /** `${array}` for an array of n plain objects. */
  function ObjectsText(n: nat): string
  {
    if n == 0 then "" else if n == 1 then "[object Object]" else ObjectsText(n - 1) + ",[object Object]"
  }

  /** `${data[key]}`: how a field of the response renders inside a template string. */
  function FieldText(data: map<string, Json>, key: string): (s: string)
    ensures key !in data ==> s == "undefined"
    ensures key in data && data[key].JStr? ==> s == data[key].s
  {
    if key !in data then "undefined"
    else match data[key]
      case JNull => "null"
      case JBool(b) => if b then "true" else "false"
      case JNum(n) => IntText(n)
      case JStr(s) => s
      case JItems(items) => ObjectsText(|items|)
  }

  datatype PopupEvent = OnSuccess | OnPending | OnError | OnClose

  /** The `status` query value each popup callback puts in the order page's URL. */
  function StatusParam(event: PopupEvent): (s: string)
    ensures s in {"success", "pending", "failure"}
    ensures s == "success" <==> event == OnSuccess
    ensures s == "failure" <==> event == OnError
    ensures s == "pending" <==> event in {OnPending, OnClose}
  {
    match event
    case OnSuccess => "success"
    case OnPending => "pending"
    case OnError => "failure"
    case OnClose => "pending"
  }

  /** The path each popup callback pushes: `/order/${data.orderId}?status=...`. */
  function PopupRoute(event: PopupEvent, orderIdText: string): (r: string)
    ensures |r| == 15 + |orderIdText| + |StatusParam(event)|
    ensures r[..7] == "/order/" && r[7..7 + |orderIdText|] == orderIdText
    ensures r[7 + |orderIdText|..] == "?status=" + StatusParam(event)
  {
    "/order/" + orderIdText + "?status=" + StatusParam(event)
  }

  /** Closing the popup routes exactly like a pending payment; the other two
      callbacks route to their own status, and all go to the same order page. */
  lemma PopupRoutes(orderIdText: string)
    ensures PopupRoute(OnClose, orderIdText) == PopupRoute(OnPending, orderIdText)
    ensures PopupRoute(OnSuccess, orderIdText) != PopupRoute(OnPending, orderIdText)
    ensures PopupRoute(OnError, orderIdText) != PopupRoute(OnPending, orderIdText)
    ensures PopupRoute(OnError, orderIdText) != PopupRoute(OnSuccess, orderIdText)
    ensures forall e :: PopupRoute(e, orderIdText)[..7 + |orderIdText|] == "/order/" + orderIdText
  {
    var base := "/order/" + orderIdText + "?status=";
    assert PopupRoute(OnSuccess, orderIdText)[|base|] == 's';
    assert PopupRoute(OnPending, orderIdText)[|base|] == 'p';
    assert PopupRoute(OnError, orderIdText)[|base|] == 'f';
    forall e ensures PopupRoute(e, orderIdText)[..7 + |orderIdText|] == "/order/" + orderIdText {
      assert PopupRoute(e, orderIdText) == ("/order/" + orderIdText) + ("?status=" + StatusParam(e));
    }
  }

  const FailureAlertPrefix: string := "Gagal membuat transaksi: "
  const UnknownErrorText: string := "Error tidak diketahui"

  /** How `handleCheckout` ends. */
  datatype CheckoutOutcome =
    | LoginAlert
    | InvalidCartAlert
    | PopupOpened(snapToken: Json, orderIdText: string)
    | FailureAlert(message: string)
    | ConnectionAlert

  /** The outcome of a sent request, given the server's reply (None: `fetch` threw). */
  function OutcomeOf(reply: Option<Response>): (o: CheckoutOutcome)
    ensures o.PopupOpened? <==>
      reply.Some? && reply.value.body.JsonBody? &&
      Truthy(reply.value.body.fields, "success") && Truthy(reply.value.body.fields, "snapToken")
    ensures o.ConnectionAlert? <==> reply.None? || reply.value.body.TextBody?
    ensures !o.LoginAlert? && !o.InvalidCartAlert?
    // the popup pays with `data.snapToken` and its callbacks route with `${data.orderId}`
    ensures o.PopupOpened? ==>
      o.snapToken == Field(reply.value.body.fields, "snapToken") &&
      o.orderIdText == FieldText(reply.value.body.fields, "orderId")
    // any other JSON reply alerts its truthy `message`, or the generic text
    ensures o.FailureAlert? ==>
      reply.Some? && reply.value.body.JsonBody? &&
      o.message == FailureAlertPrefix +
        (if Truthy(reply.value.body.fields, "message") then FieldText(reply.value.body.fields, "message")
         else UnknownErrorText)
  {
    match reply
    case None => ConnectionAlert
    case Some(Response(_, body)) =>
      match body
      case TextBody(_) => ConnectionAlert
      case JsonBody(data) =>
        if Truthy(data, "success") && Truthy(data, "snapToken") then
          PopupOpened(Field(data, "snapToken"), FieldText(data, "orderId"))
        else
          FailureAlert(FailureAlertPrefix +
            (if Truthy(data, "message") then FieldText(data, "message") else UnknownErrorText))
  }

  class CheckoutPage {
    var loading: bool
    var userId: Option<string>
    const cart: CartProvider
    /** Every body posted to the checkout route, in order. */
    var sent: seq<map<string, Json>>

    constructor (cart: CartProvider, userId: Option<string>)
      ensures this.cart == cart && this.userId == userId && !loading && sent == []
    {
      this.cart := cart;
      this.userId := userId;
      loading := false;
      sent := [];
    }

    /** `handleCheckout`. `server` is the checkout route's reply to a body
        (None when `fetch` throws); `authUser` and `clearOk` are what
        `clearCart` sees. */
    method HandleCheckout(server: map<string, Json> -> Option<Response>, authUser: Option<User>, clearOk: bool)
      returns (outcome: CheckoutOutcome)
      modifies this`loading, this`sent, cart`cartItems
      ensures userId.None? ==>
        outcome == LoginAlert && sent == old(sent) && loading == old(loading) && cart.cartItems == old(cart.cartItems)
      ensures userId.Some? && (CartTotal(old(cart.cartItems)) <= 0 || old(cart.cartItems) == []) ==>
        outcome == InvalidCartAlert && sent == old(sent) && loading == old(loading) &&
        cart.cartItems == old(cart.cartItems)
      ensures userId.Some? && CartTotal(old(cart.cartItems)) > 0 && old(cart.cartItems) != [] ==>
        |sent| == |old(sent)| + 1 && sent[..|old(sent)|] == old(sent) &&
        sent[|old(sent)|] == Payload(userId.value, CartTotal(old(cart.cartItems)), ApiItemsOf(old(cart.cartItems))) &&
        outcome == OutcomeOf(server(sent[|old(sent)|])) &&
        !loading &&
        cart.cartItems == (if outcome.PopupOpened? && authUser.Some? && clearOk then [] else old(cart.cartItems))
    {
      if userId.None? {
        return LoginAlert;
      }
      var totalAmount, apiItems, _ := ComputeSummary(cart.cartItems);
      assert apiItems == ApiItemsOf(cart.cartItems);
      if totalAmount <= 0 || |apiItems| == 0 {
        return InvalidCartAlert;
      }
      loading := true;
      var body := Payload(userId.value, totalAmount, apiItems);
      sent := sent + [body];
      outcome := OutcomeOf(server(body));
      if outcome.PopupOpened? {
        var _ := cart.ClearCart(authUser, clearOk);
      }
      loading := false;
    }
  }
}
