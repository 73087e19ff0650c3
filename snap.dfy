/** The payment gateway's Snap API as the routes call it: a token request that
    either yields a token or fails with a message. */
module Snap {
  import opened Shared

  /** One element of `item_details`. */
  datatype ItemDetail = ItemDetail(id: int, price: int, quantity: int, name: string)

  /** The token request parameter: `transaction_details`, `item_details` and
      `customer_details`. */
  datatype TokenRequest = TokenRequest(
    orderId: string,
    grossAmount: Json,
    itemDetails: seq<ItemDetail>,
    customer: Customer)

  datatype TokenResult = Token(token: string) | GatewayError(message: string)

  /** `items.map(item => ({ id, price, quantity, name }))`. */
  function ItemDetails(items: seq<Item>): (r: seq<ItemDetail>)
    ensures |r| == |items|
    ensures forall i :: 0 <= i < |items| ==>
      r[i].id == items[i].id && r[i].price == items[i].price &&
      r[i].quantity == items[i].quantity && r[i].name == items[i].name
  {
    seq(|items|, i requires 0 <= i < |items| =>
      ItemDetail(items[i].id, items[i].price, items[i].quantity, items[i].name))
  }

  /** The amount the item details add up to, which the gateway compares with `gross_amount`. */
  function DetailsTotal(details: seq<ItemDetail>): int
  {
    if details == [] then 0
    else DetailsTotal(details[..|details| - 1]) + details[|details| - 1].price * details[|details| - 1].quantity
  }

  /** The gateway client. `answer` is what the gateway says to each request;
      `requests` records every request made, in order. */
  class SnapClient {
    const answer: TokenRequest -> TokenResult
    var requests: seq<TokenRequest>

    constructor (answer: TokenRequest -> TokenResult)
      ensures this.answer == answer && requests == []
    {
      this.answer := answer;
      requests := [];
    }

    /** `snap.createTransactionToken(parameter)`. */
    method CreateTransactionToken(parameter: TokenRequest) returns (result: TokenResult)
      modifies this`requests
      ensures requests == old(requests) + [parameter]
      ensures result == answer(parameter)
    {
      requests := requests + [parameter];
      result := answer(parameter);
    }
  }
}
