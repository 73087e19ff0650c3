/** Values exchanged between the storefront's checkout page, its API routes,
    the orders table and the payment gateway. */
module Shared {

  datatype Option<+T> = None | Some(value: T)

  /** An item as the checkout page sends it and the routes forward it. */
  datatype Item = Item(id: int, name: string, price: int, quantity: int)

  /** A JSON value. JNull also stands for a field that is undefined. */
  datatype Json = JNull | JBool(b: bool) | JNum(n: int) | JStr(s: string) | JItems(items: seq<Item>)

  /** The authenticated caller as the auth collaborator reports it. */
  datatype User = User(id: string, email: Option<string>)

  /** `customer_details` as stored on an order and sent to the gateway. */
  datatype Customer = Customer(firstName: Option<string>, email: Option<string>, phone: string)

  /** The body of an HTTP response: a JSON object or plain text. */
  datatype Body = JsonBody(fields: map<string, Json>) | TextBody(text: string)

  datatype Response = Response(status: int, body: Body)

  /** Prefix of every external (gateway) order id the routes mint. */
  const TrxPrefix: string := "belibeli-trx-"

  /** What a route answers when `.map` on a non-array `items` throws; the runtime's wording is not modelled. */
  const ItemsNotArrayText: string := "TypeError"

  /** Reading `body.key` from a parsed JSON object: an absent key reads as undefined. */
  function Field(body: map<string, Json>, key: string): (v: Json)
    ensures key !in body ==> v == JNull
    ensures key in body ==> v == body[key]
  {
    if key in body then body[key] else JNull
  }

  /** JavaScript truthiness of `body.key`. */
  predicate Truthy(body: map<string, Json>, key: string)
  {
    match Field(body, key)
    case JNull => false
    case JBool(b) => b
    case JNum(n) => n != 0
    case JStr(s) => s != ""
    case JItems(_) => true
  }

  /** JavaScript truthiness of an optional string (`undefined` and `""` are falsy). */
  predicate Present(s: Option<string>)
  {
    s.Some? && s.value != ""
  }
}
