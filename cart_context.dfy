/** The cart context: the local list of cart items and the three ways it
    changes (loading from the store, adding a product, clearing). Each change
    follows a write to the `cart_items` table whose outcome is the `storeOk`
    argument. */
module CartContext {
  import opened Shared

  datatype Product = Product(id: int, name: string, price: int, imageUrl: Option<string>)

  /** `Product & { quantity }`. */
  datatype CartItem = CartItem(id: int, name: string, price: int, imageUrl: Option<string>, quantity: int)

  /** One row of the `cart_items` query: its quantity and the joined product,
      which is null when the product no longer exists. */
  datatype CartRow = CartRow(quantity: int, products: Option<Product>)

  /** The write sent to `cart_items`. */
  datatype CartWrite =
    | UpdateQuantity(userId: string, productId: int, quantity: int)
    | InsertItem(userId: string, productId: int, quantity: int)
    | DeleteAll(userId: string)

  /** The product fields of a cart item. */
  function ProductOf(c: CartItem): Product
  {
    Product(c.id, c.name, c.price, c.imageUrl)
  }

  /** `{ ...product, quantity }`: every product field is kept and the quantity is added. */
  function WithQuantity(p: Product, quantity: int): (c: CartItem)
    ensures ProductOf(c) == p && c.quantity == quantity
  {
    CartItem(p.id, p.name, p.price, p.imageUrl, quantity)
  }

  predicate HasId(items: seq<CartItem>, id: int)
  {
    exists i :: 0 <= i < |items| && items[i].id == id
  }

  predicate UniqueIds(items: seq<CartItem>)
  {
    forall i, j :: 0 <= i < j < |items| ==> items[i].id != items[j].id
  }

  /** `cartItems.find(item => item.id === id)`: the first item with that id. */
  function Find(items: seq<CartItem>, id: int): (r: Option<nat>)
    ensures r.None? <==> !HasId(items, id)
    ensures r.Some? ==> (r.value < |items| && items[r.value].id == id &&
                         forall i :: 0 <= i < r.value ==> items[i].id != id)
  {
    if items == [] then None
    else if items[0].id == id then Some(0)
    else
      match Find(items[1..], id)
      case None => None
      case Some(k) => Some(k + 1)
  }

  /** The `map` that bumps the quantity of every item with the given id. */
  function IncrementMatching(items: seq<CartItem>, id: int): (r: seq<CartItem>)
    ensures |r| == |items|
    ensures forall i :: 0 <= i < |items| ==>
      r[i] == if items[i].id == id then items[i].(quantity := items[i].quantity + 1) else items[i]
  {
    seq(|items|, i requires 0 <= i < |items| =>
      if items[i].id == id then items[i].(quantity := items[i].quantity + 1) else items[i])
  }

  function TotalQuantity(items: seq<CartItem>): int
  {
    if items == [] then 0 else TotalQuantity(items[..|items| - 1]) + items[|items| - 1].quantity
  }

  lemma {:induction false} TotalQuantityAppend(a: seq<CartItem>, b: seq<CartItem>)
    ensures TotalQuantity(a + b) == TotalQuantity(a) + TotalQuantity(b)
  {
    if b != [] {
      assert (a + b)[..|a + b| - 1] == a + b[..|b| - 1];
      TotalQuantityAppend(a, b[..|b| - 1]);
    } else {
      assert a + b == a;
    }
  }

  /** With unique ids, incrementing an id that is present adds exactly one
      unit to the cart and touches one item only. */
  lemma {:induction false} IncrementAddsOneUnit(items: seq<CartItem>, id: int)
    requires UniqueIds(items) && HasId(items, id)
    ensures TotalQuantity(IncrementMatching(items, id)) == TotalQuantity(items) + 1
  {
    var r := IncrementMatching(items, id);
    var n := |items|;
    var init := items[..n - 1];
    assert r[..n - 1] == IncrementMatching(init, id);
    if items[n - 1].id == id {
      assert !HasId(init, id);
      assert IncrementMatching(init, id) == init;
    } else {
      var k :| 0 <= k < n && items[k].id == id;
      assert init[k].id == id;
      IncrementAddsOneUnit(init, id);
    }
  }

  lemma IncrementKeepsUnique(items: seq<CartItem>, id: int)
    requires UniqueIds(items)
    ensures UniqueIds(IncrementMatching(items, id))
  {
  }

  /** Appending a new product with quantity 1 adds exactly one unit to the cart. */
  lemma AppendNewAddsOneUnit(items: seq<CartItem>, p: Product)
    ensures TotalQuantity(items + [WithQuantity(p, 1)]) == TotalQuantity(items) + 1
  {
    TotalQuantityAppend(items, [WithQuantity(p, 1)]);
    assert [WithQuantity(p, 1)][..0] == [];
  }

  lemma AppendNewKeepsUnique(items: seq<CartItem>, p: Product)
    requires UniqueIds(items) && !HasId(items, p.id)
    ensures UniqueIds(items + [WithQuantity(p, 1)])
  {
    var r := items + [WithQuantity(p, 1)];
    forall i, j | 0 <= i < j < |r| ensures r[i].id != r[j].id {
      if j == |items| {
        assert items[i].id != p.id;
      }
    }
  }

  /** The loaded cart: rows whose product is null are dropped, the others
      become `{ ...products, quantity }`. */
  function LoadedCart(rows: seq<CartRow>): (cart: seq<CartItem>)
    ensures |cart| <= |rows|
  {
    if rows == [] then []
    else
      var last := rows[|rows| - 1];
      LoadedCart(rows[..|rows| - 1]) + (if last.products.Some? then [WithQuantity(last.products.value, last.quantity)] else [])
  }

  /** Loading keeps the relative order of the rows: it distributes over concatenation. */
  lemma {:induction false} LoadedCartAppend(a: seq<CartRow>, b: seq<CartRow>)
    ensures LoadedCart(a + b) == LoadedCart(a) + LoadedCart(b)
  {
    if b == [] {
      assert a + b == a;
    } else {
      assert (a + b)[..|a + b| - 1] == a + b[..|b| - 1];
      LoadedCartAppend(a, b[..|b| - 1]);
    }
  }

  /** Row j's share of the loaded cart sits between the shares of the rows before
      and after it: `{ ...products, quantity }` when its product is not null, nothing
      otherwise. Whatever its quantity, a row with a product is kept. */
  lemma LoadedCartAt(rows: seq<CartRow>, j: nat)
    requires j < |rows|
    ensures LoadedCart(rows) == LoadedCart(rows[..j]) +
      (if rows[j].products.Some? then [WithQuantity(rows[j].products.value, rows[j].quantity)] else []) +
      LoadedCart(rows[j + 1..])
  {
    var pre, mid, post := rows[..j], [rows[j]], rows[j + 1..];
    SplitAt(rows, j);
    calc {
      LoadedCart(rows);
      { LoadedCartAppend(pre + mid, post); }
      LoadedCart(pre + mid) + LoadedCart(post);
      { LoadedCartAppend(pre, mid); }
      LoadedCart(pre) + LoadedCart(mid) + LoadedCart(post);
      { LoadedCartSingle(rows[j]); }
      LoadedCart(pre) +
        (if rows[j].products.Some? then [WithQuantity(rows[j].products.value, rows[j].quantity)] else []) +
        LoadedCart(post);
    }
  }

  /** A sequence is its prefix, the element at j and its suffix, in that order. */
  lemma SplitAt(rows: seq<CartRow>, j: nat)
    requires j < |rows|
    ensures rows == (rows[..j] + [rows[j]]) + rows[j + 1..]
  {
    assert rows[..j] + [rows[j]] == rows[..j + 1];
  }

  /** A single row loads to its own share. */
  lemma LoadedCartSingle(r: CartRow)
    ensures LoadedCart([r]) == if r.products.Some? then [WithQuantity(r.products.value, r.quantity)] else []
  {
    assert [r][..0] == [];
  }

  /** Every loaded item comes from a row with a product, with that row's quantity. */
  lemma {:induction false} LoadedCartFromRows(rows: seq<CartRow>, i: nat)
    requires i < |LoadedCart(rows)|
    ensures exists j :: (0 <= j < |rows| && rows[j].products.Some? &&
                         LoadedCart(rows)[i] == WithQuantity(rows[j].products.value, rows[j].quantity))
  {
    var init := rows[..|rows| - 1];
    if i < |LoadedCart(init)| {
      LoadedCartFromRows(init, i);
      var j :| 0 <= j < |init| && init[j].products.Some? &&
        LoadedCart(init)[i] == WithQuantity(init[j].products.value, init[j].quantity);
      assert rows[j] == init[j];
    } else {
      assert rows[|rows| - 1].products.Some?;
    }
  }

  class CartProvider {
    var cartItems: seq<CartItem>
    var isLoading: bool

    constructor ()
      ensures cartItems == [] && isLoading
    {
      cartItems := [];
      isLoading := true;
    }

    /** `fetchCartItems`: `data` is the query result, None when the query failed. */
    method FetchCartItems(user: Option<User>, data: Option<seq<CartRow>>)
      modifies this
      ensures !isLoading
      ensures cartItems == if user.Some? && data.Some? then LoadedCart(data.value) else old(cartItems)
    {
      isLoading := true;
      if user.Some? && data.Some? {
        cartItems := LoadedCart(data.value);
      }
      isLoading := false;
    }

    /** `addToCart`: returns the write sent to `cart_items`, if any. */
    method AddToCart(product: Product, user: Option<User>, storeOk: bool) returns (write: Option<CartWrite>)
      modifies this`cartItems
      ensures user.None? ==> write.None? && cartItems == old(cartItems)
      ensures user.Some? && HasId(old(cartItems), product.id) ==>
        var e := old(cartItems)[Find(old(cartItems), product.id).value];
        write == Some(UpdateQuantity(user.value.id, product.id, e.quantity + 1))
      ensures user.Some? && !HasId(old(cartItems), product.id) ==>
        write == Some(InsertItem(user.value.id, product.id, 1))
      ensures cartItems ==
        if user.None? || !storeOk then old(cartItems)
        else if HasId(old(cartItems), product.id) then IncrementMatching(old(cartItems), product.id)
        else old(cartItems) + [WithQuantity(product, 1)]
      ensures UniqueIds(old(cartItems)) ==> UniqueIds(cartItems)
    {
      if user.None? {
        return None;
      }
      var existing := Find(cartItems, product.id);
      if existing.Some? {
        write := Some(UpdateQuantity(user.value.id, product.id, cartItems[existing.value].quantity + 1));
        if storeOk {
          if UniqueIds(cartItems) {
            IncrementKeepsUnique(cartItems, product.id);
          }
          cartItems := IncrementMatching(cartItems, product.id);
        }
      } else {
        write := Some(InsertItem(user.value.id, product.id, 1));
        if storeOk {
          if UniqueIds(cartItems) {
            AppendNewKeepsUnique(cartItems, product);
          }
          cartItems := cartItems + [WithQuantity(product, 1)];
        }
      }
    }

    /** `clearCart`. */
    method ClearCart(user: Option<User>, storeOk: bool) returns (write: Option<CartWrite>)
      modifies this`cartItems
      ensures write == if user.Some? then Some(DeleteAll(user.value.id)) else None
      ensures cartItems == if user.Some? && storeOk then [] else old(cartItems)
    {
      if user.None? {
        return None;
      }
      write := Some(DeleteAll(user.value.id));
      if storeOk {
        cartItems := [];
      }
    }
  }
}
