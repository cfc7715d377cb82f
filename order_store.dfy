/** The state-changing half of OrderController: `store` creates an order and
    its items inside a transaction, `updateStatus` overwrites one order's
    status. The `orders` and `order_items` tables are sequences. */
module OrderStore {
  import opened Common
  import opened OrderPricing

  datatype Status = Pending | Completed | Cancelled | Refunded

  /** The `status` rule of `updateStatus`: `in:pending,completed,cancelled,refunded`. */
  function ParseStatus(s: string): (r: Option<Status>)
    ensures r.Some? <==> s in {"pending", "completed", "cancelled", "refunded"}
    ensures r == Some(Pending) <==> s == "pending"
    ensures r == Some(Completed) <==> s == "completed"
    ensures r == Some(Cancelled) <==> s == "cancelled"
    ensures r == Some(Refunded) <==> s == "refunded"
  {
    if s == "pending" then Some(Pending)
    else if s == "completed" then Some(Completed)
    else if s == "cancelled" then Some(Cancelled)
    else if s == "refunded" then Some(Refunded)
    else None
  }

  /** A row of `orders` (timestamps and `completed_at` left out). */
  datatype Order = Order(
    id: int,
    orderNumber: string,
    userId: int,
    orderType: string,
    subtotal: real,
    discountAmount: real,
    discountType: Option<string>,
    discountValue: Option<real>,
    total: real,
    paymentMethod: string,
    status: Status,
    note: Option<string>)

  /** A row of `order_items`: a snapshot of the product and toppings at order time. */
  datatype OrderItem = OrderItem(
    orderId: int,
    productId: int,
    productName: string,
    productPrice: real,
    size: string,
    temperature: Option<string>,
    toppings: seq<string>,
    quantity: real,
    totalPrice: real)

  /** 422 (validation), 500 (exception, rolled back) or 201. */
  datatype StoreResponse = Invalid | Failed(message: string) | Created(order: Order)

  /** 404 (route-model binding), 422 (validation) or 200. */
  datatype StatusResponse = NotFound | Rejected | Updated(order: Order)

  const FailurePrefix: string := "Failed to create order: "
  /** PHP 8's message for `$product->price` when `find` returned null. */
  const NullProductDetail: string := "Attempt to read property \"price\" on null"

  /** Every line's product is visible to `Product::find`. */
  predicate AllFound(cat: Catalog, lines: seq<LineRequest>)
  {
    forall i :: 0 <= i < |lines| ==> FindProduct(cat, lines[i].productId).Some?
  }

  /** `$subtotal` after the first loop. */
  function Subtotal(cat: Catalog, lines: seq<LineRequest>): real
    requires AllFound(cat, lines)
  {
    if lines == [] then 0.0
    else
      var last := lines[|lines| - 1];
      Subtotal(cat, lines[..|lines| - 1]) + LineTotal(FindProduct(cat, last.productId).value, last, cat.toppings)
  }

  /** The `OrderItem::create` of the second loop, for one line. */
  function SnapshotItem(orderId: int, p: Product, line: LineRequest, toppings: map<int, Topping>): OrderItem
  {
    OrderItem(orderId, line.productId, p.name, UnitPrice(p, line, toppings), line.size,
              line.temperature, ToppingNames(line.toppingIds, toppings), line.quantity,
              LineTotal(p, line, toppings))
  }

  /** The items the second loop creates, one per line, in request order. */
  function ExpectedItems(orderId: int, cat: Catalog, lines: seq<LineRequest>): seq<OrderItem>
    requires AllFound(cat, lines)
  {
    if lines == [] then []
    else
      var last := lines[|lines| - 1];
      ExpectedItems(orderId, cat, lines[..|lines| - 1])
        + [SnapshotItem(orderId, FindProduct(cat, last.productId).value, last, cat.toppings)]
  }

  /** The header `Order::create` writes. */
  function ExpectedOrder(id: int, orderNumber: string, req: OrderRequest, cat: Catalog): Order
    requires AllFound(cat, req.items)
  {
    var subtotal := Subtotal(cat, req.items);
    var discount := DiscountAmount(subtotal, req.discountType, req.discountValue);
    Order(id, orderNumber, req.userId, req.orderType, subtotal, discount, req.discountType,
          req.discountValue, OrderTotal(subtotal, discount), req.paymentMethod, Completed, req.note)
  }

  function SumItemTotals(items: seq<OrderItem>): real
  {
    if items == [] then 0.0 else SumItemTotals(items[..|items| - 1]) + items[|items| - 1].totalPrice
  }

  /** `$order->items`: the rows of `order_items` that belong to one order. */
  function ItemsOf(items: seq<OrderItem>, orderId: int): seq<OrderItem>
  {
    if items == [] then []
    else
      var last := items[|items| - 1];
      ItemsOf(items[..|items| - 1], orderId) + (if last.orderId == orderId then [last] else [])
  }

  /** An order agrees with its own items: the stored subtotal is the sum of
      their `total_price`, and the total is the subtotal less the discount. */
  ghost predicate Balanced(o: Order, items: seq<OrderItem>)
  {
    && o.subtotal == SumItemTotals(ItemsOf(items, o.id))
    && o.total == OrderTotal(o.subtotal, o.discountAmount)
  }

  /** The invariant of the two tables. */
  ghost predicate BookInvariant(orders: seq<Order>, items: seq<OrderItem>, nextId: int)
  {
    && nextId >= 1
    && (forall i :: 0 <= i < |orders| ==> 1 <= orders[i].id < nextId)
    && (forall i, j :: 0 <= i < j < |orders| ==> orders[i].id != orders[j].id)
    && (forall k :: 0 <= k < |items| ==> items[k].orderId < nextId)
    && (forall i :: 0 <= i < |orders| ==> Balanced(orders[i], items))
  }

  /** Route-model binding: the position of the order with this id. */
  function IndexOfOrder(orders: seq<Order>, id: int): (r: Option<nat>)
    ensures r.Some? ==> r.value < |orders| && orders[r.value].id == id
    ensures r.None? ==> forall i :: 0 <= i < |orders| ==> orders[i].id != id
  {
    if orders == [] then None
    else if orders[0].id == id then Some(0)
    else match IndexOfOrder(orders[1..], id)
      case None => None
      case Some(k) => Some(k + 1)
  }

  /** What `store` answers: validation first (422), then the null product of
      a soft-deleted row (500), then the first failing write (500), else 201. */
  function StoreOutcome(req: OrderRequest, users: set<int>, cat: Catalog, id: int, orderNumber: string,
                        faultAt: Option<nat>, faultDetail: string): StoreResponse
  {
    if !ValidRequest(req, users, cat) then Invalid
    else if !AllFound(cat, req.items) then Failed(FailurePrefix + NullProductDetail)
    else if faultAt.Some? && faultAt.value <= |req.items| then Failed(FailurePrefix + faultDetail)
    else Created(ExpectedOrder(id, orderNumber, req, cat))
  }

  // ---------------------------------------------------------------------------
  // Lemmas
  // ---------------------------------------------------------------------------

  /** The stored subtotal equals the sum of `total_price` over the created
      items: both loops apply the same formula to the same lines. */
  lemma {:induction false} SubtotalIsSumOfItemTotals(orderId: int, cat: Catalog, lines: seq<LineRequest>)
    requires AllFound(cat, lines)
    ensures |ExpectedItems(orderId, cat, lines)| == |lines|
    ensures Subtotal(cat, lines) == SumItemTotals(ExpectedItems(orderId, cat, lines))
  {
    if lines != [] {
      var init := lines[..|lines| - 1];
      assert AllFound(cat, init);
      SubtotalIsSumOfItemTotals(orderId, cat, init);
      var e := ExpectedItems(orderId, cat, lines);
      assert e[..|e| - 1] == ExpectedItems(orderId, cat, init);
    }
  }

  /** The items of one more line are those of the shorter prefix and that
      line's snapshot. */
  lemma ExpectedItemsStep(orderId: int, cat: Catalog, lines: seq<LineRequest>, j: nat)
    requires AllFound(cat, lines) && j < |lines|
    ensures AllFound(cat, lines[..j]) && AllFound(cat, lines[..j + 1])
    ensures ExpectedItems(orderId, cat, lines[..j + 1])
         == ExpectedItems(orderId, cat, lines[..j])
            + [SnapshotItem(orderId, FindProduct(cat, lines[j].productId).value, lines[j], cat.toppings)]
  {
    assert lines[..j + 1][..j] == lines[..j];
  }

  /** Item `i` snapshots line `i`: same product, size, temperature, quantity. */
  lemma {:induction false} ExpectedItemAt(orderId: int, cat: Catalog, lines: seq<LineRequest>, i: nat)
    requires AllFound(cat, lines) && i < |lines|
    ensures |ExpectedItems(orderId, cat, lines)| == |lines|
    ensures var p := FindProduct(cat, lines[i].productId).value;
            ExpectedItems(orderId, cat, lines)[i] == SnapshotItem(orderId, p, lines[i], cat.toppings)
  {
    SubtotalIsSumOfItemTotals(orderId, cat, lines);
    var init := lines[..|lines| - 1];
    assert AllFound(cat, init);
    if i < |lines| - 1 {
      ExpectedItemAt(orderId, cat, init, i);
    }
  }

  lemma {:induction false} ItemsOfAppend(a: seq<OrderItem>, b: seq<OrderItem>, orderId: int)
    ensures ItemsOf(a + b, orderId) == ItemsOf(a, orderId) + ItemsOf(b, orderId)
  {
    if b == [] {
      assert a + b == a;
    } else {
      assert (a + b)[..|a + b| - 1] == a + b[..|b| - 1];
      ItemsOfAppend(a, b[..|b| - 1], orderId);
    }
  }

  lemma {:induction false} ItemsOfNone(items: seq<OrderItem>, orderId: int)
    requires forall k :: 0 <= k < |items| ==> items[k].orderId != orderId
    ensures ItemsOf(items, orderId) == []
  {
    if items != [] {
      ItemsOfNone(items[..|items| - 1], orderId);
    }
  }

  lemma {:induction false} ItemsOfAll(items: seq<OrderItem>, orderId: int)
    requires forall k :: 0 <= k < |items| ==> items[k].orderId == orderId
    ensures ItemsOf(items, orderId) == items
  {
    if items != [] {
      ItemsOfAll(items[..|items| - 1], orderId);
    }
  }

  lemma {:induction false} ExpectedItemsBelongToOrder(orderId: int, cat: Catalog, lines: seq<LineRequest>)
    requires AllFound(cat, lines)
    ensures forall k :: 0 <= k < |ExpectedItems(orderId, cat, lines)| ==> ExpectedItems(orderId, cat, lines)[k].orderId == orderId
  {
    if lines != [] {
      var init := lines[..|lines| - 1];
      assert AllFound(cat, init);
      ExpectedItemsBelongToOrder(orderId, cat, init);
    }
  }

  /** Appending items of another order leaves an order's balance alone. */
  lemma OtherItemsKeepBalance(o: Order, items: seq<OrderItem>, created: seq<OrderItem>)
    requires Balanced(o, items)
    requires forall k :: 0 <= k < |created| ==> created[k].orderId != o.id
    ensures Balanced(o, items + created)
  {
    ItemsOfAppend(items, created, o.id);
    ItemsOfNone(created, o.id);
    assert ItemsOf(items, o.id) + [] == ItemsOf(items, o.id);
  }

  /** The new header is balanced against the items created with it. */
  lemma NewOrderBalanced(items: seq<OrderItem>, nextId: int, orderNumber: string, req: OrderRequest, cat: Catalog)
    requires forall k :: 0 <= k < |items| ==> items[k].orderId < nextId
    requires AllFound(cat, req.items)
    ensures Balanced(ExpectedOrder(nextId, orderNumber, req, cat), items + ExpectedItems(nextId, cat, req.items))
  {
    var created := ExpectedItems(nextId, cat, req.items);
    ExpectedItemsBelongToOrder(nextId, cat, req.items);
    SubtotalIsSumOfItemTotals(nextId, cat, req.items);
    ItemsOfAppend(items, created, nextId);
    ItemsOfNone(items, nextId);
    ItemsOfAll(created, nextId);
    assert [] + created == created;
    assert ItemsOf(items + created, nextId) == created;
  }

  /** A successful `store` keeps every order balanced against its items. */
  lemma StoreKeepsInvariant(orders: seq<Order>, items: seq<OrderItem>, nextId: int,
                            orderNumber: string, req: OrderRequest, cat: Catalog)
    requires BookInvariant(orders, items, nextId)
    requires AllFound(cat, req.items)
    ensures BookInvariant(orders + [ExpectedOrder(nextId, orderNumber, req, cat)],
                          items + ExpectedItems(nextId, cat, req.items), nextId + 1)
  {
    var order := ExpectedOrder(nextId, orderNumber, req, cat);
    var created := ExpectedItems(nextId, cat, req.items);
    var orders', items' := orders + [order], items + created;
    ExpectedItemsBelongToOrder(nextId, cat, req.items);
    NewOrderBalanced(items, nextId, orderNumber, req, cat);
    forall i | 0 <= i < |orders|
      ensures Balanced(orders[i], items')
    {
      OtherItemsKeepBalance(orders[i], items, created);
    }
    assert forall i :: 0 <= i < |orders'| ==> orders'[i] == if i < |orders| then orders[i] else order;
  }

  /** Changing a status touches nothing the invariant depends on. */
  lemma StatusChangeKeepsInvariant(orders: seq<Order>, items: seq<OrderItem>, nextId: int, k: nat, s: Status)
    requires BookInvariant(orders, items, nextId) && k < |orders|
    ensures BookInvariant(orders[k := orders[k].(status := s)], items, nextId)
  {
    var orders' := orders[k := orders[k].(status := s)];
    assert forall i :: 0 <= i < |orders'| ==> orders'[i].id == orders[i].id;
    assert forall i :: 0 <= i < |orders'| ==> Balanced(orders[i], items) ==> Balanced(orders'[i], items);
  }

  /** The first loop of `store`: looks every product up and accumulates the
      subtotal, or stops at the first product `find` does not see. */
  method PriceLines(cat: Catalog, lines: seq<LineRequest>) returns (r: Option<real>)
    ensures r.Some? <==> AllFound(cat, lines)
    ensures r.Some? ==> r.value == Subtotal(cat, lines)
  {
    var subtotal := 0.0;
    var i := 0;
    while i < |lines|
      invariant 0 <= i <= |lines|
      invariant AllFound(cat, lines[..i])
      invariant subtotal == Subtotal(cat, lines[..i])
    {
      var found := FindProduct(cat, lines[i].productId);
      if found.None? {
        return None;
      }
      assert lines[..i + 1][..i] == lines[..i];
      subtotal := subtotal + LineTotal(found.value, lines[i], cat.toppings);
      i := i + 1;
    }
    assert lines[..|lines|] == lines;
    return Some(subtotal);
  }

  // ---------------------------------------------------------------------------
  // The two tables and the two actions
  // ---------------------------------------------------------------------------

  class OrderBook {
    var orders: seq<Order>
    var items: seq<OrderItem>
    /** The next value of the `orders.id` auto-increment. */
    var nextId: int

    ghost predicate Valid()
      reads this
    {
      BookInvariant(orders, items, nextId)
    }

    constructor ()
      ensures Valid()
      ensures orders == [] && items == [] && nextId == 1
    {
      orders, items, nextId := [], [], 1;
    }

    /** `OrderController::store`. `faultAt` is the index of the first database
        write that throws (0 is the order header, i > 0 is the item of line i),
        and `faultDetail` is its message; `orderNumber` is the fresh value of
        `Order::generateOrderNumber()`. */
    method Store(req: OrderRequest, users: set<int>, cat: Catalog, orderNumber: string,
                 faultAt: Option<nat>, faultDetail: string) returns (resp: StoreResponse)
      requires Valid()
      modifies this
      ensures Valid()
      ensures resp == StoreOutcome(req, users, cat, old(nextId), orderNumber, faultAt, faultDetail)
      ensures !resp.Created? ==> orders == old(orders) && items == old(items) && nextId == old(nextId)
      ensures resp.Created? ==>
        && AllFound(cat, req.items)
        && orders == old(orders) + [resp.order]
        && items == old(items) + ExpectedItems(old(nextId), cat, req.items)
        && nextId == old(nextId) + 1
    {
      if !ValidRequest(req, users, cat) {
        return Invalid;
      }
      // DB::beginTransaction()
      var savedOrders, savedItems := orders, items;
      var lines := req.items;
      assert BookInvariant(savedOrders, savedItems, nextId);

      // First loop: price every line.
      var priced := PriceLines(cat, lines);
      if priced.None? {
        // `$product->price` on null throws; nothing has been written yet.
        return Failed(FailurePrefix + NullProductDetail);
      }
      var subtotal := priced.value;

      var discount := DiscountAmount(subtotal, req.discountType, req.discountValue);
      var total := OrderTotal(subtotal, discount);
      if faultAt == Some(0) {
        return Failed(FailurePrefix + faultDetail);
      }
      var order := Order(nextId, orderNumber, req.userId, req.orderType, subtotal, discount,
                         req.discountType, req.discountValue, total, req.paymentMethod,
                         Completed, req.note);
      assert faultAt.Some? ==> faultAt.value > 0;
      orders := orders + [order];

      // Second loop: one snapshot item per line.
      var failed := InsertItems(order.id, cat, lines, faultAt);
      if failed {
        // DB::rollBack()
        orders, items := savedOrders, savedItems;
        return Failed(FailurePrefix + faultDetail);
      }
      // DB::commit()
      assert order == ExpectedOrder(nextId, orderNumber, req, cat);
      StoreKeepsInvariant(savedOrders, savedItems, nextId, orderNumber, req, cat);
      nextId := nextId + 1;
      resp := Created(order);
    }

    /** The second loop of `store`: one `OrderItem::create` per line, where
        write number `k + 1` (`faultAt`) throws. On a fault the items written so
        far stay until the caller rolls them back. */
    method InsertItems(orderId: int, cat: Catalog, lines: seq<LineRequest>, faultAt: Option<nat>)
      returns (failed: bool)
      requires AllFound(cat, lines)
      requires faultAt.Some? ==> faultAt.value > 0
      modifies this
      ensures orders == old(orders) && nextId == old(nextId)
      ensures failed <==> faultAt.Some? && faultAt.value <= |lines|
      ensures failed ==> exists k :: 0 <= k < |lines| && items == old(items) + ExpectedItems(orderId, cat, lines[..k])
      ensures !failed ==> items == old(items) + ExpectedItems(orderId, cat, lines)
    {
      var j := 0;
      while j < |lines|
        invariant 0 <= j <= |lines|
        invariant orders == old(orders) && nextId == old(nextId)
        invariant AllFound(cat, lines[..j])
        invariant items == old(items) + ExpectedItems(orderId, cat, lines[..j])
        invariant faultAt.Some? ==> faultAt.value > j
      {
        if faultAt == Some(j + 1) {
          return true;
        }
        var item := SnapshotItem(orderId, FindProduct(cat, lines[j].productId).value, lines[j], cat.toppings);
        ExpectedItemsStep(orderId, cat, lines, j);
        ghost var done := ExpectedItems(orderId, cat, lines[..j]);
        assert old(items) + done + [item] == old(items) + (done + [item]);
        items := items + [item];
        j := j + 1;
      }
      assert lines[..|lines|] == lines;
      return false;
    }

    /** `OrderController::updateStatus`: any order may move to any of the four
        statuses; nothing but that order's status changes. */
    method UpdateStatus(orderId: int, status: string) returns (resp: StatusResponse)
      requires Valid()
      modifies this
      ensures Valid()
      ensures items == old(items) && nextId == old(nextId)
      ensures IndexOfOrder(old(orders), orderId).None? ==> resp == NotFound && orders == old(orders)
      ensures IndexOfOrder(old(orders), orderId).Some? && ParseStatus(status).None? ==>
        resp == Rejected && orders == old(orders)
      ensures IndexOfOrder(old(orders), orderId).Some? && ParseStatus(status).Some? ==>
        var k := IndexOfOrder(old(orders), orderId).value;
        && orders == old(orders)[k := old(orders)[k].(status := ParseStatus(status).value)]
        && resp == Updated(orders[k])
    {
      var found := IndexOfOrder(orders, orderId);
      if found.None? {
        return NotFound;
      }
      var parsed := ParseStatus(status);
      if parsed.None? {
        return Rejected;
      }
      var k := found.value;
      StatusChangeKeepsInvariant(orders, items, nextId, k, parsed.value);
      orders := orders[k := orders[k].(status := parsed.value)];
      resp := Updated(orders[k]);
    }
  }
}
