/** How the client's cart price and the server's stored price agree. The cart
    prices a line from the product and topping objects it holds
    (`calculateItemPrice`); the server re-prices the posted line from the
    catalogue (`OrderController::store`). They agree when the client's copy of
    the catalogue is current and no topping is listed twice. */
module PriceAgreement {
  import opened Common
  import opened Cart
  import opened OrderPricing
  import opened Checkout
  import ProductCustomization
  import OrderStore

  /** The client's topping objects carry the catalogue's current prices. */
  predicate ToppingsCurrent(ts: seq<ToppingOption>, toppings: map<int, Topping>)
  {
    forall i :: 0 <= i < |ts| ==> ts[i].id in toppings && toppings[ts[i].id].price == ts[i].price
  }

  /** A cart line whose product is still on sale at the price the client
      holds, whose toppings are distinct and carry current prices. */
  predicate LineCurrent(l: CartLine, cat: Catalog)
  {
    && FindProduct(cat, l.item.product.id).Some?
    && FindProduct(cat, l.item.product.id).value.price == l.item.product.price
    && ProductCustomization.DistinctIds(l.item.toppings)
    && ToppingsCurrent(l.item.toppings, cat.toppings)
  }

  /** The client's running topping sum equals the server's surcharge over the
      posted ids, when the toppings are distinct and current. */
  lemma {:induction false} ToppingSumMatchesSurcharge(ts: seq<ToppingOption>, toppings: map<int, Topping>)
    requires ProductCustomization.DistinctIds(ts)
    requires ToppingsCurrent(ts, toppings)
    ensures ToppingSum(ts) == ToppingSurcharge(ToppingIds(ts), toppings)
    decreases |ts|
  {
    if ts != [] {
      var init, last := ts[..|ts| - 1], ts[|ts| - 1];
      ToppingSumMatchesSurcharge(init, toppings);
      assert ToppingIds(ts) == ToppingIds(init) + [last.id];
      assert last.id !in ToppingIds(init) by {
        forall k | 0 <= k < |init|
          ensures ToppingIds(init)[k] != last.id
        {
          assert ts[k].id != ts[|ts| - 1].id;
        }
      }
      NewToppingAddsItsPrice(ToppingIds(init), last.id, toppings);
    }
  }

  /** A current cart line costs the client exactly what the server charges for
      the payload entry built from it. */
  lemma LinePriceAgrees(l: CartLine, cat: Catalog)
    requires LineCurrent(l, cat)
    ensures ItemPrice(l.item)
         == LineTotal(FindProduct(cat, l.item.product.id).value, ServerLine(ItemPayloadOf(l)), cat.toppings)
  {
    ToppingSumMatchesSurcharge(l.item.toppings, cat.toppings);
  }

  /** The server's lines for a cart, as the checkout posts them. */
  function ServerLines(lines: seq<CartLine>): (r: seq<LineRequest>)
    ensures |r| == |lines|
    ensures forall i :: 0 <= i < |lines| ==> r[i] == ServerLine(ItemPayloadOf(lines[i]))
  {
    seq(|lines|, i requires 0 <= i < |lines| => ServerLine(ItemPayloadOf(lines[i])))
  }

  /** Checking out a cart of current, correctly priced lines finds every
      product, and the server's subtotal is the cart total. */
  lemma {:induction false} SubtotalAgrees(lines: seq<CartLine>, cat: Catalog)
    requires Priced(lines)
    requires forall i :: 0 <= i < |lines| ==> LineCurrent(lines[i], cat)
    ensures OrderStore.AllFound(cat, ServerLines(lines))
    ensures OrderStore.Subtotal(cat, ServerLines(lines)) == Cart.Subtotal(lines)
    decreases |lines|
  {
    if lines != [] {
      var init, last := lines[..|lines| - 1], lines[|lines| - 1];
      SubtotalAgrees(init, cat);
      assert ServerLines(lines)[..|lines| - 1] == ServerLines(init);
      LinePriceAgrees(last, cat);
    }
  }

  /** The whole checkout: the request built from the cart names every product,
      carries no discount, and the order total the server stores is the total
      the cart showed. */
  lemma CheckoutTotalAgrees(lines: seq<CartLine>, cat: Catalog, userId: int, orderType: string, paymentMethod: string)
    requires Priced(lines)
    requires forall i :: 0 <= i < |lines| ==> LineCurrent(lines[i], cat)
    ensures var req := ToServerRequest(CheckoutPayload(userId, orderType, paymentMethod, OrderItemsFor(lines)));
            && req.items == ServerLines(lines)
            && OrderStore.AllFound(cat, req.items)
            && OrderTotal(OrderStore.Subtotal(cat, req.items),
                          DiscountAmount(OrderStore.Subtotal(cat, req.items), req.discountType, req.discountValue))
               == Cart.Subtotal(lines)
  {
    var req := ToServerRequest(CheckoutPayload(userId, orderType, paymentMethod, OrderItemsFor(lines)));
    assert req.items == ServerLines(lines);
    SubtotalAgrees(lines, cat);
  }

  /** The server's surcharge for the same topping id posted twice. */
  lemma TwiceListedIdChargedOnce(x: int, toppings: map<int, Topping>)
    requires x in toppings
    ensures ToppingSurcharge([x, x], toppings) == toppings[x].price
  {
    assert ToppingSurcharge([x], toppings) == toppings[x].price by {
      var none: seq<int> := [];
      assert MatchedToppingIds(none, toppings) == [];
      NewToppingAddsItsPrice(none, x, toppings);
      assert none + [x] == [x];
    }
    assert ToppingSurcharge([x, x], toppings) == ToppingSurcharge([x], toppings) by {
      RepeatedToppingCountsOnce([x], x, toppings);
      assert [x] + [x] == [x, x];
    }
  }

  /** The cart's sum for the same topping listed twice. */
  lemma TwiceListedToppingSummedTwice(t: ToppingOption)
    ensures ToppingSum([t, t]) == 2.0 * t.price
  {
    assert [t, t][..1] == [t];
    assert [t][..0] == [];
    assert ToppingSum([t]) == t.price;
  }

  /** A topping listed twice is charged twice by the cart but once by the
      server, so the two totals part. */
  lemma DuplicateToppingDisagrees(c: Customization, t: ToppingOption, cat: Catalog)
    requires c.toppings == [t, t] && c.quantity >= 1 && t.price > 0.0
    requires t.id in cat.toppings && cat.toppings[t.id].price == t.price
    requires FindProduct(cat, c.product.id).Some? && FindProduct(cat, c.product.id).value.price == c.product.price
    ensures ItemPrice(c)
         > LineTotal(FindProduct(cat, c.product.id).value,
                     ServerLine(ItemPayloadOf(CartLine("", c, ItemPrice(c)))), cat.toppings)
  {
    var line := ServerLine(ItemPayloadOf(CartLine("", c, ItemPrice(c))));
    assert line.toppingIds == [t.id, t.id];
    TwiceListedIdChargedOnce(t.id, cat.toppings);
    TwiceListedToppingSummedTwice(t);
    var base := SizedBase(c.product.price, c.size);
    var q := c.quantity as real;
    assert UnitPrice(FindProduct(cat, c.product.id).value, line, cat.toppings) == base + t.price;
    assert (base + 2.0 * t.price) * q == (base + t.price) * q + t.price * q;
    assert t.price * q > 0.0;
  }
}
