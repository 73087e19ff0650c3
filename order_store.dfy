/** The `orders` table as the three API routes use it. Every write may be
    answered with an error by the store; that answer is the `ok` argument. */
module OrderStore {
  import opened Shared

  /** Primary key of a row: the serial the database assigns on insert, or the
      UUID text a repay inserts explicitly. */
  datatype RowId = Serial(n: nat) | Uuid(text: string)

  /** One row of `orders`. `totalPrice` and `items` hold whatever JSON the
      inserting route passed (JNull for an undefined value). */
  datatype Order = Order(
    userId: string,
    totalPrice: Json,
    status: string,
    items: Json,
    customer: Customer,
    midtransOrderId: Option<string>)

  /** `update({ status }).eq("id", id)`: a key with no row matches nothing. */
  function WithStatus(rows: map<RowId, Order>, id: RowId, status: string): (r: map<RowId, Order>)
    ensures r.Keys == rows.Keys
    ensures forall k :: k in rows && k != id ==> r[k] == rows[k]
    ensures id in rows ==> r[id] == rows[id].(status := status)
  {
    if id in rows then rows[id := rows[id].(status := status)] else rows
  }

  /** `update({ midtrans_order_id }).eq("id", id)`. */
  function WithMidtransOrderId(rows: map<RowId, Order>, id: RowId, ext: string): (r: map<RowId, Order>)
    ensures r.Keys == rows.Keys
    ensures forall k :: k in rows && k != id ==> r[k] == rows[k]
    ensures id in rows ==> r[id] == rows[id].(midtransOrderId := Some(ext))
  {
    if id in rows then rows[id := rows[id].(midtransOrderId := Some(ext))] else rows
  }

  /** Writing the same status twice is writing it once. */
  lemma WithStatusIdempotent(rows: map<RowId, Order>, id: RowId, status: string)
    ensures WithStatus(WithStatus(rows, id, status), id, status) == WithStatus(rows, id, status)
  {
  }

  class OrdersTable {
    var rows: map<RowId, Order>
    /** The last value the serial id sequence handed out. */
    var lastSerial: nat

    /** Serial keys start at 1 and never exceed the sequence. */
    ghost predicate Valid()
      reads this
    {
      forall k :: k in rows && k.Serial? ==> 1 <= k.n <= lastSerial
    }

    constructor ()
      ensures Valid() && rows == map[] && lastSerial == 0
    {
      rows := map[];
      lastSerial := 0;
    }

    /** `insert(order).select("id").single()`: the new row gets the next serial. */
    method Insert(o: Order, ok: bool) returns (id: Option<RowId>)
      requires Valid()
      modifies this
      ensures Valid()
      ensures id.Some? <==> ok
      ensures id.Some? ==> id.value == Serial(old(lastSerial) + 1) && id.value !in old(rows)
      ensures rows == if ok then old(rows)[Serial(old(lastSerial) + 1) := o] else old(rows)
    {
      if !ok {
        return None;
      }
      lastSerial := lastSerial + 1;
      rows := rows[Serial(lastSerial) := o];
      id := Some(Serial(lastSerial));
    }

    /** `insert({ id: uuid, ... })`: a key already present is a conflict. */
    method InsertWithUuid(uuid: string, o: Order, ok: bool) returns (success: bool)
      requires Valid()
      modifies this`rows
      ensures Valid()
      ensures success <==> ok && Uuid(uuid) !in old(rows)
      ensures rows == if success then old(rows)[Uuid(uuid) := o] else old(rows)
    {
      success := ok && Uuid(uuid) !in rows;
      if success {
        rows := rows[Uuid(uuid) := o];
      }
    }

    method UpdateStatus(id: RowId, status: string, ok: bool) returns (success: bool)
      requires Valid()
      modifies this`rows
      ensures Valid()
      ensures success == ok
      ensures rows == if ok then WithStatus(old(rows), id, status) else old(rows)
    {
      success := ok;
      if ok {
        rows := WithStatus(rows, id, status);
      }
    }

    method UpdateMidtransOrderId(id: RowId, ext: string, ok: bool) returns (success: bool)
      requires Valid()
      modifies this`rows
      ensures Valid()
      ensures success == ok
      ensures rows == if ok then WithMidtransOrderId(old(rows), id, ext) else old(rows)
    {
      success := ok;
      if ok {
        rows := WithMidtransOrderId(rows, id, ext);
      }
    }

    /** `delete().eq("id", id)`. */
    method Delete(id: RowId, ok: bool) returns (success: bool)
      requires Valid()
      modifies this`rows
      ensures Valid()
      ensures success == ok
      ensures rows == if ok then old(rows) - {id} else old(rows)
    {
      success := ok;
      if ok {
        rows := rows - {id};
      }
    }
  }
}
