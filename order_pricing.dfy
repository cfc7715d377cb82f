/** The server's pricing rules for a new order (OrderController::store):
    request validation, the price of one line, the topping surcharge, the
    discount and the order total. Money is an exact `real`. */
module OrderPricing {
  import opened Common

  /** A row of `products`. `trashed` is a set `deleted_at` (soft delete). */
  datatype Product = Product(name: string, price: real, isActive: bool, trashed: bool)

  /** A row of `toppings` (hard-deleted, so absent rows are simply missing). */
  datatype Topping = Topping(name: string, price: real, isActive: bool)

  /** The catalogue the controller reads, keyed by primary key. */
  datatype Catalog = Catalog(products: map<int, Product>, toppings: map<int, Topping>)

  /** One entry of `items` in the request. `toppingIds` is `array_column(toppings, 'id')`;
      a missing or null `toppings` is the empty list. */
  datatype LineRequest = LineRequest(
    productId: int,
    size: string,
    temperature: Option<string>,
    toppingIds: seq<int>,
    quantity: real)

  /** The body of `POST /orders`. Absent optional fields are `None`. */
  datatype OrderRequest = OrderRequest(
    userId: int,
    orderType: string,
    paymentMethod: string,
    discountType: Option<string>,
    discountValue: Option<real>,
    note: Option<string>,
    items: seq<LineRequest>)

  const OrderTypes: set<string> := {"delivery", "dine-in", "take-away"}
  const PaymentMethods: set<string> := {"cash", "card", "qr", "split"}
  const Sizes: set<string> := {"Small", "Large"}
  const Temperatures: set<string> := {"Hot", "Cold"}
  const DiscountTypes: set<string> := {"percentage", "amount"}

  /** Laravel's `integer` rule on a numeric value. */
  predicate IsWholeNumber(x: real)
  {
    x.Floor as real == x
  }

  /** The `items.*` rules. `exists:products,id` looks at the table itself, so a
      soft-deleted product passes; `is_active` is not consulted. */
  predicate ValidLine(line: LineRequest, cat: Catalog)
  {
    && line.productId in cat.products
    && line.size in Sizes
    && (line.temperature.Some? ==> line.temperature.value in Temperatures)
    && IsWholeNumber(line.quantity)
    && line.quantity >= 1.0
  }

  /** The whole `$request->validate([...])` of `store`. */
  predicate ValidRequest(req: OrderRequest, users: set<int>, cat: Catalog)
  {
    && req.userId in users
    && req.orderType in OrderTypes
    && req.paymentMethod in PaymentMethods
    && (req.discountType.Some? ==> req.discountType.value in DiscountTypes)
    && (req.discountValue.Some? ==> req.discountValue.value >= 0.0)
    && |req.items| >= 1
    && forall i :: 0 <= i < |req.items| ==> ValidLine(req.items[i], cat)
  }

  /** `Product::find`: soft-deleted rows are invisible to it. */
  function FindProduct(cat: Catalog, id: int): Option<Product>
  {
    if id in cat.products && !cat.products[id].trashed then Some(cat.products[id]) else None
  }

  // ---------------------------------------------------------------------------
  // Toppings: `Topping::whereIn('id', $toppingIds)->get()`
  // ---------------------------------------------------------------------------

  predicate StrictlyIncreasing(s: seq<int>)
  {
    forall i, j :: 0 <= i < j < |s| ==> s[i] < s[j]
  }

  /** Inserts `x` into a strictly increasing list, unless it is already there. */
  function InsertSorted(x: int, s: seq<int>): (r: seq<int>)
    requires StrictlyIncreasing(s)
    ensures StrictlyIncreasing(r)
    ensures forall k :: k in r <==> k == x || k in s
    ensures x in s ==> r == s
  {
    if s == [] then [x]
    else if x < s[0] then [x] + s
    else if x == s[0] then s
    else
      SortedHeadTail(s);
      var tail := InsertSorted(x, s[1..]);
      ConsSorted(s[0], tail);
      [s[0]] + tail
  }

  /** Putting an element below every element of a strictly increasing list in
      front keeps it strictly increasing. */
  lemma ConsSorted(h: int, t: seq<int>)
    requires StrictlyIncreasing(t) && forall k :: k in t ==> h < k
    ensures StrictlyIncreasing([h] + t)
    ensures forall k :: k in [h] + t <==> k == h || k in t
  {
    forall i, j | 0 <= i < j < |[h] + t|
      ensures ([h] + t)[i] < ([h] + t)[j]
    {
      assert ([h] + t)[j] == t[j - 1];
      if i == 0 {
        assert t[j - 1] in t;
      } else {
        assert ([h] + t)[i] == t[i - 1];
      }
    }
  }

  /** The rows `whereIn` returns: every requested id that names a topping, each
      once, in primary-key order. */
  function MatchedToppingIds(ids: seq<int>, toppings: map<int, Topping>): (r: seq<int>)
    ensures StrictlyIncreasing(r)
    ensures forall k :: k in r <==> k in ids && k in toppings
  {
    if ids == [] then []
    else
      var x := ids[|ids| - 1];
      var rest := MatchedToppingIds(ids[..|ids| - 1], toppings);
      assert ids == ids[..|ids| - 1] + [x];
      if x in toppings then InsertSorted(x, rest) else rest
  }

  /** `$toppings->sum('price')` over rows given by their ids. */
  function SumPrices(ids: seq<int>, toppings: map<int, Topping>): real
    requires forall i :: 0 <= i < |ids| ==> ids[i] in toppings
  {
    if ids == [] then 0.0 else toppings[ids[0]].price + SumPrices(ids[1..], toppings)
  }

  /** What the selected toppings add to one unit of a line. */
  function ToppingSurcharge(ids: seq<int>, toppings: map<int, Topping>): real
  {
    SumPrices(MatchedToppingIds(ids, toppings), toppings)
  }

  /** `$toppings->pluck('name')`: the snapshot stored on the order item. */
  function ToppingNames(ids: seq<int>, toppings: map<int, Topping>): (names: seq<string>)
    ensures |names| == |MatchedToppingIds(ids, toppings)|
  {
    var m := MatchedToppingIds(ids, toppings);
    seq(|m|, i requires 0 <= i < |m| => toppings[m[i]].name)
  }

  // ---------------------------------------------------------------------------
  // Line price, discount, total
  // ---------------------------------------------------------------------------

  /** The base price after the size rule: "Large" costs 30% more. */
  function SizedPrice(price: real, size: string): real
  {
    if size == "Large" then price * 1.3 else price
  }

  /** `$itemPrice`: the `product_price` stored on the order item. */
  function UnitPrice(p: Product, line: LineRequest, toppings: map<int, Topping>): real
  {
    SizedPrice(p.price, line.size) + ToppingSurcharge(line.toppingIds, toppings)
  }

  /** `$itemPrice * $item['quantity']`: the item's `total_price`. */
  function LineTotal(p: Product, line: LineRequest, toppings: map<int, Topping>): real
  {
    UnitPrice(p, line, toppings) * line.quantity
  }

  /** `$discountAmount`: zero unless both discount fields are present. */
  function DiscountAmount(subtotal: real, discountType: Option<string>, discountValue: Option<real>): real
  {
    if discountType.Some? && discountValue.Some? then
      if discountType.value == "percentage" then (subtotal * discountValue.value) / 100.0
      else discountValue.value
    else 0.0
  }

  /** `$total = $subtotal - $discountAmount`, with no clamp. */
  function OrderTotal(subtotal: real, discount: real): real
  {
    subtotal - discount
  }

  // ---------------------------------------------------------------------------
  // Properties of the topping surcharge
  // ---------------------------------------------------------------------------

  lemma {:induction false} InsertSortedSum(x: int, s: seq<int>, toppings: map<int, Topping>)
    requires StrictlyIncreasing(s) && x !in s
    requires x in toppings && forall k :: k in s ==> k in toppings
    ensures SumPrices(InsertSorted(x, s), toppings) == toppings[x].price + SumPrices(s, toppings)
  {
    if s != [] && x > s[0] {
      InsertSortedSum(x, s[1..], toppings);
      assert InsertSorted(x, s)[1..] == InsertSorted(x, s[1..]);
    }
  }

  /** The head of a strictly increasing list is its least element, and its
      tail holds the other elements. */
  lemma SortedHeadTail(s: seq<int>)
    requires StrictlyIncreasing(s) && s != []
    ensures forall k :: k in s ==> s[0] <= k
    ensures forall k :: k in s[1..] <==> k in s && k != s[0]
    ensures StrictlyIncreasing(s[1..])
  {
    assert s == [s[0]] + s[1..];
  }

  /** A strictly increasing list is determined by its elements. */
  lemma {:induction false} SortedListUnique(a: seq<int>, b: seq<int>)
    requires StrictlyIncreasing(a) && StrictlyIncreasing(b)
    requires forall k :: k in a <==> k in b
    ensures a == b
    decreases |a|
  {
    assert (a == []) == (b == []) by {
      if a != [] { assert a[0] in a; }
      if b != [] { assert b[0] in b; }
    }
    if a != [] {
      SortedHeadTail(a);
      SortedHeadTail(b);
      assert a[0] in b && b[0] in a;
      assert a[0] == b[0];
      SortedListUnique(a[1..], b[1..]);
      assert a == [a[0]] + a[1..] && b == [b[0]] + b[1..];
    }
  }

  /** The surcharge depends only on the SET of requested ids: their order does
      not matter, a repeated id counts once, unknown ids add nothing. */
  lemma SurchargeDependsOnlyOnIdSet(ids1: seq<int>, ids2: seq<int>, toppings: map<int, Topping>)
    requires forall k :: k in ids1 <==> k in ids2
    ensures MatchedToppingIds(ids1, toppings) == MatchedToppingIds(ids2, toppings)
    ensures ToppingSurcharge(ids1, toppings) == ToppingSurcharge(ids2, toppings)
    ensures ToppingNames(ids1, toppings) == ToppingNames(ids2, toppings)
  {
    SortedListUnique(MatchedToppingIds(ids1, toppings), MatchedToppingIds(ids2, toppings));
  }

  /** Requesting an id again adds nothing. */
  lemma RepeatedToppingCountsOnce(ids: seq<int>, x: int, toppings: map<int, Topping>)
    requires x in ids
    ensures ToppingSurcharge(ids + [x], toppings) == ToppingSurcharge(ids, toppings)
  {
    SurchargeDependsOnlyOnIdSet(ids + [x], ids, toppings);
  }

  /** An id with no topping row adds nothing. */
  lemma UnknownToppingAddsNothing(ids: seq<int>, x: int, toppings: map<int, Topping>)
    requires x !in toppings
    ensures ToppingSurcharge(ids + [x], toppings) == ToppingSurcharge(ids, toppings)
  {
    assert (ids + [x])[..|ids|] == ids;
  }

  /** A new, existing topping adds exactly its price. */
  lemma NewToppingAddsItsPrice(ids: seq<int>, x: int, toppings: map<int, Topping>)
    requires x in toppings && x !in ids
    ensures ToppingSurcharge(ids + [x], toppings) == ToppingSurcharge(ids, toppings) + toppings[x].price
  {
    assert (ids + [x])[..|ids|] == ids;
    InsertSortedSum(x, MatchedToppingIds(ids, toppings), toppings);
  }

  lemma {:induction false} SumPricesNonNegative(ids: seq<int>, toppings: map<int, Topping>)
    requires forall i :: 0 <= i < |ids| ==> ids[i] in toppings && toppings[ids[i]].price >= 0.0
    ensures SumPrices(ids, toppings) >= 0.0
  {
    if ids != [] {
      SumPricesNonNegative(ids[1..], toppings);
    }
  }

  // ---------------------------------------------------------------------------
  // Properties of the line price and the discount
  // ---------------------------------------------------------------------------

  /** With non-negative prices a line never costs less than one unit, and a
      "Large" unit never costs less than a "Small" one. */
  lemma LinePriceBounds(p: Product, line: LineRequest, toppings: map<int, Topping>)
    requires p.price >= 0.0 && line.quantity >= 1.0
    requires forall k :: k in toppings ==> toppings[k].price >= 0.0
    ensures 0.0 <= UnitPrice(p, line, toppings) <= LineTotal(p, line, toppings)
    ensures UnitPrice(p, line.(size := "Small"), toppings) <= UnitPrice(p, line.(size := "Large"), toppings)
  {
    SumPricesNonNegative(MatchedToppingIds(line.toppingIds, toppings), toppings);
  }

  /** A percentage in [0, 100] of a non-negative subtotal leaves a total in [0, subtotal]. */
  lemma PercentageDiscountBounded(subtotal: real, value: real)
    requires subtotal >= 0.0 && 0.0 <= value <= 100.0
    ensures 0.0 <= DiscountAmount(subtotal, Some("percentage"), Some(value)) <= subtotal
    ensures 0.0 <= OrderTotal(subtotal, DiscountAmount(subtotal, Some("percentage"), Some(value))) <= subtotal
  {
    assert subtotal * value <= subtotal * 100.0;
  }

  /** Nothing clamps the total: an amount above the subtotal, or a percentage
      above 100 of a positive subtotal, gives a negative total. */
  lemma TotalCanBeNegative(subtotal: real, value: real)
    ensures value > subtotal ==> OrderTotal(subtotal, DiscountAmount(subtotal, Some("amount"), Some(value))) < 0.0
    ensures value > 100.0 && subtotal > 0.0 ==>
      OrderTotal(subtotal, DiscountAmount(subtotal, Some("percentage"), Some(value))) < 0.0
  {
    if value > 100.0 && subtotal > 0.0 {
      var excess := value - 100.0;
      assert subtotal * excess > 0.0;
      assert subtotal * value == subtotal * 100.0 + subtotal * excess;
      assert DiscountAmount(subtotal, Some("percentage"), Some(value)) == subtotal + (subtotal * excess) / 100.0;
    }
  }

  /** What validation turns away: an empty item list, a quantity that is not a
      whole number of at least 1, a size other than Small/Large, a temperature
      other than Hot/Cold/null, an order type or payment method outside its
      list, a product id with no row, a discount type outside its list and a
      negative discount value. */
  lemma ValidationRejects(req: OrderRequest, users: set<int>, cat: Catalog, i: nat)
    ensures req.items == [] ==> !ValidRequest(req, users, cat)
    ensures req.orderType !in {"delivery", "dine-in", "take-away"} ==> !ValidRequest(req, users, cat)
    ensures req.paymentMethod !in {"cash", "card", "qr", "split"} ==> !ValidRequest(req, users, cat)
    ensures req.discountValue.Some? && req.discountValue.value < 0.0 ==> !ValidRequest(req, users, cat)
    ensures req.discountType.Some? && req.discountType.value !in {"percentage", "amount"} ==>
              !ValidRequest(req, users, cat)
    ensures i < |req.items| ==>
      var line := req.items[i];
      (|| line.quantity < 1.0
       || line.quantity.Floor as real != line.quantity
       || line.size !in {"Small", "Large"}
       || (line.temperature.Some? && line.temperature.value !in {"Hot", "Cold"})
       || line.productId !in cat.products)
      ==> !ValidRequest(req, users, cat)
  {
  }

  /** The product's `is_active` flag is never consulted: switching it changes
      neither validation nor the price. */
  lemma ActiveFlagIgnored(line: LineRequest, cat: Catalog, active: bool)
    requires line.productId in cat.products
    ensures var p := cat.products[line.productId];
            var cat' := cat.(products := cat.products[line.productId := p.(isActive := active)]);
            && ValidLine(line, cat') == ValidLine(line, cat)
            && FindProduct(cat', line.productId).Some? == FindProduct(cat, line.productId).Some?
            && LineTotal(p.(isActive := active), line, cat.toppings) == LineTotal(p, line, cat.toppings)
  {
  }

  /** The three discount cases: none unless both fields are present, a share
      of the subtotal for "percentage", the value itself for "amount". */
  lemma DiscountCases(subtotal: real, value: real)
    ensures DiscountAmount(subtotal, None, Some(value)) == 0.0
    ensures forall t :: DiscountAmount(subtotal, Some(t), None) == 0.0
    ensures DiscountAmount(subtotal, Some("percentage"), Some(value)) * 100.0 == subtotal * value
    ensures DiscountAmount(subtotal, Some("amount"), Some(value)) == value
    ensures OrderTotal(subtotal, DiscountAmount(subtotal, Some("amount"), Some(value))) + value == subtotal
  {
  }

  /** The 1.3 factor applies exactly to "Large"; every other size pays the
      list price. */
  lemma SizeRule(p: Product, line: LineRequest, toppings: map<int, Topping>)
    ensures line.size == "Large" ==>
      UnitPrice(p, line, toppings) == p.price * 1.3 + ToppingSurcharge(line.toppingIds, toppings)
    ensures line.size != "Large" ==>
      UnitPrice(p, line, toppings) == p.price + ToppingSurcharge(line.toppingIds, toppings)
    ensures LineTotal(p, line, toppings) == UnitPrice(p, line, toppings) * line.quantity
  {
  }

  /** The worked example: a 4.00 product, Large, toppings at 0.50 and 0.75,
      quantity 2, then a 10% discount. */
  lemma WorkedExample()
    ensures var toppings := map[1 := Topping("Vanilla Syrup", 0.50, true), 5 := Topping("Oat Milk", 0.75, true)];
            var p := Product("Latte", 4.00, true, false);
            var line := LineRequest(1, "Large", Some("Hot"), [5, 1], 2.0);
            && UnitPrice(p, line, toppings) == 6.45
            && LineTotal(p, line, toppings) == 12.90
            && DiscountAmount(12.90, Some("percentage"), Some(10.0)) == 1.29
            && OrderTotal(12.90, 1.29) == 11.61
            && ToppingNames(line.toppingIds, toppings) == ["Vanilla Syrup", "Oat Milk"]
  {
    var toppings := map[1 := Topping("Vanilla Syrup", 0.50, true), 5 := Topping("Oat Milk", 0.75, true)];
    assert MatchedToppingIds([5], toppings) == [5];
    assert [5, 1][..1] == [5];
    assert MatchedToppingIds([5, 1], toppings) == [1, 5];
  }
}
