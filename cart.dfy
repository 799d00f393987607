/** The storefront cart and order history kept in the browser's storage. */
module Cart {
  import opened Wrappers
  import opened JsText
  import opened JsValue
  import MockProducts

  /** One cart line: the product fields copied when it was first added, and a quantity. */
  datatype Item = Item(id: int, name: string, price: int, image: string, category: string,
                       brand: string, quantity: int)

  /** The line `addToCart` creates for a product not yet in the cart. */
  function NewItem(p: MockProducts.Product, quantity: int): (item: Item)
    ensures item.id == p.id && item.price == p.price && item.quantity == quantity
  {
    Item(p.id, p.name, p.price, p.image, p.category, p.brand, quantity)
  }

  /** No two lines share an id. */
  predicate UniqueIds(items: seq<Item>)
  {
    forall i, j :: 0 <= i < j < |items| ==> items[i].id != items[j].id
  }

  /** `items.find(item => item.id === id)`, as the index of the first match. */
  function FindIndex(items: seq<Item>, id: int): (k: Option<nat>)
    ensures k.Some? ==> k.value < |items| && items[k.value].id == id
                        && forall j :: 0 <= j < k.value ==> items[j].id != id
    ensures k.None? ==> forall j :: 0 <= j < |items| ==> items[j].id != id
  {
    if items == [] then None
    else if items[0].id == id then Some(0)
    else match FindIndex(items[1..], id)
      case None => None
      case Some(k) => Some(k + 1)
  }

  /** The cart after `addToCart(product, quantity)`. */
  function Added(items: seq<Item>, p: MockProducts.Product, quantity: int): (r: seq<Item>)
  {
    match FindIndex(items, p.id)
    case Some(k) => items[k := items[k].(quantity := items[k].quantity + quantity)]
    case None => items + [NewItem(p, quantity)]
  }

  /** `items.filter(item => item.id !== id)`. */
  function Without(items: seq<Item>, id: int): (r: seq<Item>)
    ensures |r| <= |items|
    ensures forall i :: 0 <= i < |r| ==> r[i].id != id
  {
    if items == [] then []
    else (if items[0].id == id then [] else [items[0]]) + Without(items[1..], id)
  }

  /** The cart after `updateCartQuantity(id, quantity)`. */
  function Updated(items: seq<Item>, id: int, quantity: int): seq<Item>
  {
    match FindIndex(items, id)
    case None => items
    case Some(k) => if quantity <= 0 then Without(items, id) else items[k := items[k].(quantity := quantity)]
  }

  /** `getCartTotal`: the sum of price times quantity. */
  function Total(items: seq<Item>): int
  {
    if items == [] then 0 else items[0].price * items[0].quantity + Total(items[1..])
  }

  /** `getCartItemCount`: the sum of the quantities. */
  function Count(items: seq<Item>): int
  {
    if items == [] then 0 else items[0].quantity + Count(items[1..])
  }

  // ---------------------------------------------------------------------------------
  // What the operations do to the lines, the ids, the total and the count.

  /** Adding an id already present raises that line's quantity and adds no line; a new
      id appends exactly one line with the product's fields. */
  lemma AddedLines(items: seq<Item>, p: MockProducts.Product, quantity: int)
    ensures FindIndex(items, p.id).Some? ==>
              |Added(items, p, quantity)| == |items|
              && var k := FindIndex(items, p.id).value;
                 Added(items, p, quantity)[k].quantity == items[k].quantity + quantity
                 && forall j :: 0 <= j < |items| && j != k ==> Added(items, p, quantity)[j] == items[j]
    ensures FindIndex(items, p.id).None? ==> Added(items, p, quantity) == items + [NewItem(p, quantity)]
  {
  }

  lemma {:induction false} CountAppend(a: seq<Item>, b: seq<Item>)
    ensures Count(a + b) == Count(a) + Count(b)
    decreases |a|
  {
    if a == [] {
      assert a + b == b;
    } else {
      CountAppend(a[1..], b);
      assert (a + b)[1..] == a[1..] + b;
      assert (a + b)[0] == a[0];
    }
  }

  lemma {:induction false} TotalAppend(a: seq<Item>, b: seq<Item>)
    ensures Total(a + b) == Total(a) + Total(b)
    decreases |a|
  {
    if a == [] {
      assert a + b == b;
    } else {
      TotalAppend(a[1..], b);
      assert (a + b)[1..] == a[1..] + b;
      assert (a + b)[0] == a[0];
    }
  }

  lemma {:induction false} CountUpdate(items: seq<Item>, k: nat, x: Item)
    requires k < |items|
    ensures Count(items[k := x]) == Count(items) - items[k].quantity + x.quantity
    ensures Total(items[k := x]) == Total(items) - items[k].price * items[k].quantity + x.price * x.quantity
    decreases |items|
  {
    if k > 0 {
      CountUpdate(items[1..], k - 1, x);
      assert items[k := x][1..] == items[1..][k - 1 := x];
    }
  }

  /** Adding `quantity` of a product raises the count by `quantity` and the total by
      its price times `quantity` (the price the line was first added at). */
  lemma CountAndTotalAdded(items: seq<Item>, p: MockProducts.Product, quantity: int)
    ensures Count(Added(items, p, quantity)) == Count(items) + quantity
    ensures Total(Added(items, p, quantity)) ==
              Total(items) + quantity * (match FindIndex(items, p.id) case Some(k) => items[k].price case None => p.price)
  {
    match FindIndex(items, p.id)
    case Some(k) =>
      CountUpdate(items, k, items[k].(quantity := items[k].quantity + quantity));
      assert items[k].price * (items[k].quantity + quantity)
             == items[k].price * items[k].quantity + quantity * items[k].price;
    case None =>
      CountAppend(items, [NewItem(p, quantity)]);
      TotalAppend(items, [NewItem(p, quantity)]);
  }

  /** Removing an id keeps every other line, in order, and takes the removed line's
      quantity and value off the count and total. */
  lemma WithoutLines(items: seq<Item>, id: int)
    requires UniqueIds(items)
    ensures FindIndex(items, id).None? ==> Without(items, id) == items
    ensures FindIndex(items, id).Some? ==>
              var k := FindIndex(items, id).value;
              Without(items, id) == items[..k] + items[k + 1..]
  {
    match FindIndex(items, id)
    case None => WithoutAbsent(items, id);
    case Some(k) => WithoutOne(items, id, k);
  }

  /** Filtering out an id that no line has keeps every line. */
  lemma {:induction false} WithoutAbsent(items: seq<Item>, id: int)
    requires forall j :: 0 <= j < |items| ==> items[j].id != id
    ensures Without(items, id) == items
    decreases |items|
  {
    if items != [] {
      WithoutAbsent(items[1..], id);
      assert [items[0]] + items[1..] == items;
    }
  }

  /** Filtering out the id that only line `k` has drops exactly that line. */
  lemma {:induction false} WithoutOne(items: seq<Item>, id: int, k: nat)
    requires k < |items| && items[k].id == id
    requires forall j :: 0 <= j < |items| && j != k ==> items[j].id != id
    ensures Without(items, id) == items[..k] + items[k + 1..]
    decreases k
  {
    if k == 0 {
      WithoutAbsent(items[1..], id);
      assert items[..0] + items[1..] == items[1..];
    } else {
      WithoutOne(items[1..], id, k - 1);
      assert items[..k] == [items[0]] + items[1..][..k - 1];
      assert items[k + 1..] == items[1..][k..];
    }
  }

  /** Removing the line at `k` takes its quantity off the count and its value off the
      total. */
  lemma {:induction false} CountAndTotalRemoved(items: seq<Item>, k: nat)
    requires k < |items|
    ensures Count(items[..k] + items[k + 1..]) == Count(items) - items[k].quantity
    ensures Total(items[..k] + items[k + 1..]) == Total(items) - items[k].price * items[k].quantity
  {
    assert items == items[..k] + ([items[k]] + items[k + 1..]);
    CountAppend(items[..k], [items[k]] + items[k + 1..]);
    TotalAppend(items[..k], [items[k]] + items[k + 1..]);
    CountAppend(items[..k], items[k + 1..]);
    TotalAppend(items[..k], items[k + 1..]);
    assert ([items[k]] + items[k + 1..])[1..] == items[k + 1..];
  }

  /** Adding keeps the ids unique. */
  lemma AddedKeepsUniqueIds(items: seq<Item>, p: MockProducts.Product, quantity: int)
    requires UniqueIds(items)
    ensures UniqueIds(Added(items, p, quantity))
  {
  }

  /** Removing keeps the ids unique. */
  lemma WithoutKeepsUniqueIds(items: seq<Item>, id: int)
    requires UniqueIds(items)
    ensures UniqueIds(Without(items, id))
  {
    WithoutLines(items, id);
    var w := Without(items, id);
    if FindIndex(items, id).Some? {
      var k := FindIndex(items, id).value;
      assert forall i :: 0 <= i < |w| ==> w[i] == items[if i < k then i else i + 1];
    }
  }

  /** Updating keeps the ids unique. */
  lemma UpdatedKeepsUniqueIds(items: seq<Item>, id: int, quantity: int)
    requires UniqueIds(items)
    ensures UniqueIds(Updated(items, id, quantity))
  {
    WithoutKeepsUniqueIds(items, id);
  }

  /** Updating to a quantity of zero or less is removing; updating an absent id changes
      nothing; otherwise only that line's quantity changes. */
  lemma UpdatedLines(items: seq<Item>, id: int, quantity: int)
    ensures FindIndex(items, id).None? ==> Updated(items, id, quantity) == items
    ensures FindIndex(items, id).Some? && quantity <= 0 ==> Updated(items, id, quantity) == Without(items, id)
    ensures FindIndex(items, id).Some? && quantity > 0 ==>
              var k := FindIndex(items, id).value;
              |Updated(items, id, quantity)| == |items|
              && Updated(items, id, quantity)[k] == items[k].(quantity := quantity)
              && forall j :: 0 <= j < |items| && j != k ==> Updated(items, id, quantity)[j] == items[j]
  {
  }

  // ---------------------------------------------------------------------------------
  // Orders.

  /** `ORD-<timestamp>-<9 random base-36 digits, upper-cased>`. */
  function OrderId(now: nat, randomDigits: string): (id: string)
    ensures |id| > 4 && id[..4] == "ORD-"
  {
    "ORD-" + NatToString(now) + "-" + RandomToken(randomDigits, 9)
  }

  /** An order id determines its timestamp (the digits after `ORD-`) and its random
      part (what follows the `-` that ends them). */
  lemma OrderIdDecodes(now: nat, randomDigits: string)
    ensures var id := OrderId(now, randomDigits);
            var k := 4 + DigitRun(id[4..]);
            ParseDigits(id[4..]) == Some(now) && k < |id| && id[k] == '-'
            && id[k + 1..] == RandomToken(randomDigits, 9)
  {
    var id := OrderId(now, randomDigits);
    var ts := NatToString(now);
    var rest := "-" + RandomToken(randomDigits, 9);
    assert id[4..] == ts + rest;
    DigitRunOfDigits(ts, rest);
    assert id[4..][..|ts|] == ts;
    DigitsValueOfNatToString(now);
    assert id[4 + |ts| + 1..] == RandomToken(randomDigits, 9);
  }

  /** `orders.find(order => order.orderId === orderId)`. */
  function FindOrder(orders: seq<Payload>, orderId: Value): (r: Option<Payload>)
    ensures r.Some? ==> StrictEquals(Field(r.value, "orderId"), orderId)
    ensures r.Some? ==> exists i :: 0 <= i < |orders| && orders[i] == r.value
                                    && forall j :: 0 <= j < i ==> !StrictEquals(Field(orders[j], "orderId"), orderId)
    ensures r.None? <==> forall o :: o in orders ==> !StrictEquals(Field(o, "orderId"), orderId)
  {
    if orders == [] then None
    else if StrictEquals(Field(orders[0], "orderId"), orderId) then Some(orders[0])
    else
      var r := FindOrder(orders[1..], orderId);
      assert forall i :: 1 <= i < |orders| ==> orders[i] == orders[1..][i - 1];
      r
  }

  /** An order saved under an id no earlier order has is found by that id. */
  lemma {:induction false} FindSavedOrder(orders: seq<Payload>, order: Payload, orderId: string)
    requires forall o :: o in orders ==> Field(o, "orderId") != Str(orderId)
    requires Field(order, "orderId") == Str(orderId)
    ensures FindOrder(orders + [order], Str(orderId)) == Some(order)
    decreases |orders|
  {
    if orders != [] {
      assert (orders + [order])[1..] == orders[1..] + [order];
      FindSavedOrder(orders[1..], order, orderId);
    } else {
      assert orders + [order] == [order];
    }
  }

  /** The cart and the orders in storage. */
  class Store {
    var items: seq<Item>
    var orders: seq<Payload>

    ghost predicate Valid()
      reads this
    {
      UniqueIds(items)
    }

    constructor()
      ensures items == [] && orders == [] && Valid()
    {
      items := [];
      orders := [];
    }

    /** `addToCart(product, quantity = 1)`: the existing line's quantity is raised in place,
        or a new line is pushed. */
    method AddToCart(p: MockProducts.Product, quantity: int := 1) returns (cart: seq<Item>)
      requires Valid()
      modifies this
      ensures Valid() && orders == old(orders)
      ensures items == Added(old(items), p, quantity) && cart == items
      ensures Count(items) == Count(old(items)) + quantity
    {
      AddedKeepsUniqueIds(items, p, quantity);
      CountAndTotalAdded(items, p, quantity);
      var existing := FindIndex(items, p.id);
      if existing.Some? {
        var k := existing.value;
        items := items[k := items[k].(quantity := items[k].quantity + quantity)];
      } else {
        items := items + [NewItem(p, quantity)];
      }
      cart := items;
    }

    /** `removeFromCart(id)`. */
    method RemoveFromCart(id: int) returns (cart: seq<Item>)
      requires Valid()
      modifies this
      ensures Valid() && orders == old(orders)
      ensures items == Without(old(items), id) && cart == items
      ensures FindIndex(old(items), id).None? ==> items == old(items)
    {
      WithoutKeepsUniqueIds(items, id);
      WithoutLines(items, id);
      items := Without(items, id);
      cart := items;
    }

    /** `updateCartQuantity(id, quantity)`. */
    method UpdateCartQuantity(id: int, quantity: int) returns (cart: seq<Item>)
      requires Valid()
      modifies this
      ensures Valid() && orders == old(orders)
      ensures items == Updated(old(items), id, quantity) && cart == items
    {
      UpdatedKeepsUniqueIds(items, id, quantity);
      var found := FindIndex(items, id);
      if found.Some? {
        if quantity <= 0 {
          cart := RemoveFromCart(id);
          return;
        }
        items := items[found.value := items[found.value].(quantity := quantity)];
      }
      cart := items;
    }

    /** `clearCart()`: afterwards the total and the count are zero. */
    method ClearCart() returns (cart: seq<Item>)
      modifies this
      ensures Valid() && orders == old(orders)
      ensures items == [] && cart == [] && Total(items) == 0 && Count(items) == 0
    {
      items := [];
      cart := [];
    }

    /** `saveOrder(order)`: appends the order with a fresh id and the date, and returns
        it. `now`, `randomDigits` and `isoDate` stand for the clock and `Math.random`. */
    method SaveOrder(order: Payload, now: nat, randomDigits: string, isoDate: string) returns (saved: Payload)
      modifies this
      ensures items == old(items)
      ensures orders == old(orders) + [saved]
      ensures Field(saved, "orderId") == Str(OrderId(now, randomDigits)) && Field(saved, "orderDate") == Str(isoDate)
      ensures forall k :: k in order && k != "orderId" && k != "orderDate" ==> k in saved && saved[k] == order[k]
      ensures saved.Keys == order.Keys + {"orderId", "orderDate"}
    {
      saved := order["orderId" := Str(OrderId(now, randomDigits))]["orderDate" := Str(isoDate)];
      orders := orders + [saved];
    }
  }
}
