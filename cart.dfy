/** The client cart of CartContext: a sequence of lines, each caching its own
    price, with add, remove, update-quantity and clear, and a total. */
module Cart {
  import opened Common

  /** A topping as the client holds it: `{id, name, price}`. */
  datatype ToppingOption = ToppingOption(id: int, name: string, price: real)

  /** A product as the client receives it from `/products`. */
  datatype ClientProduct = ClientProduct(
    id: int,
    name: string,
    description: Option<string>,
    price: real,
    categoryId: Option<int>,
    hasTemperature: bool,
    hasSize: bool,
    toppings: seq<ToppingOption>)

  /** A `CartItem` without its `id` and `totalPrice`: what `addItem` takes. */
  datatype Customization = Customization(
    product: ClientProduct,
    size: string,
    temperature: Option<string>,
    toppings: seq<ToppingOption>,
    quantity: int)

  datatype CartLine = CartLine(id: string, item: Customization, totalPrice: real)

  /** The sum of the listed topping prices, duplicates included. */
  function ToppingSum(ts: seq<ToppingOption>): real
  {
    if ts == [] then 0.0 else ToppingSum(ts[..|ts| - 1]) + ts[|ts| - 1].price
  }

  function SizedBase(price: real, size: string): real
  {
    if size == "Large" then price * 1.3 else price
  }

  /** The price formula of `calculateItemPrice`. */
  function ItemPrice(c: Customization): real
  {
    (SizedBase(c.product.price, c.size) + ToppingSum(c.toppings)) * c.quantity as real
  }

  /** `calculateItemPrice`: the base price, ×1.3 when Large, plus each topping
      price in turn, times the quantity. */
  method CalculateItemPrice(c: Customization) returns (price: real)
    ensures price == ItemPrice(c)
  {
    price := c.product.price;
    if c.size == "Large" {
      price := price * 1.3;
    }
    var i := 0;
    while i < |c.toppings|
      invariant 0 <= i <= |c.toppings|
      invariant price == SizedBase(c.product.price, c.size) + ToppingSum(c.toppings[..i])
    {
      assert c.toppings[..i + 1][..i] == c.toppings[..i];
      price := price + c.toppings[i].price;
      i := i + 1;
    }
    assert c.toppings[..|c.toppings|] == c.toppings;
    price := price * c.quantity as real;
  }

  /** `getSubtotal`: the sum of `totalPrice` over the lines. */
  function Subtotal(lines: seq<CartLine>): real
  {
    if lines == [] then 0.0 else Subtotal(lines[..|lines| - 1]) + lines[|lines| - 1].totalPrice
  }

  /** The cart invariant: every line caches the price of its own fields. */
  predicate Priced(lines: seq<CartLine>)
  {
    forall i :: 0 <= i < |lines| ==> lines[i].totalPrice == ItemPrice(lines[i].item)
  }

  function NotLine(id: string): CartLine -> bool
  {
    (l: CartLine) => l.id != id
  }

  /** `items.filter((item) => item.id !== id)`. */
  function RemoveLines(lines: seq<CartLine>, id: string): seq<CartLine>
  {
    Filter(lines, NotLine(id))
  }

  function WithQuantity(l: CartLine, q: int): CartLine
  {
    var c := l.item.(quantity := q);
    CartLine(l.id, c, ItemPrice(c))
  }

  /** The `items.map` of `updateQuantity`: the matching lines get the new
      quantity and a recomputed price. */
  function Requantify(lines: seq<CartLine>, id: string, q: int): (r: seq<CartLine>)
    ensures |r| == |lines|
    ensures forall i :: 0 <= i < |lines| ==> r[i] == if lines[i].id == id then WithQuantity(lines[i], q) else lines[i]
  {
    seq(|lines|, i requires 0 <= i < |lines| => if lines[i].id == id then WithQuantity(lines[i], q) else lines[i])
  }

  // ---------------------------------------------------------------------------
  // Lemmas
  // ---------------------------------------------------------------------------

  /** Each listed topping counts, so a topping listed twice is paid twice. */
  lemma ExtraToppingAddsItsPrice(c: Customization, t: ToppingOption)
    ensures ItemPrice(c.(toppings := c.toppings + [t])) == ItemPrice(c) + t.price * c.quantity as real
  {
    var ts := c.toppings + [t];
    assert ts[..|ts| - 1] == c.toppings;
  }

  lemma DuplicateToppingCountsTwice(c: Customization, t: ToppingOption)
    requires c.toppings == [t, t]
    ensures ItemPrice(c) == (SizedBase(c.product.price, c.size) + 2.0 * t.price) * c.quantity as real
  {
    assert c.toppings[..1] == [t];
    assert [t][..0] == [];
    assert ToppingSum([t]) == t.price;
    assert ToppingSum(c.toppings) == ToppingSum([t]) + t.price;
  }

  /** Non-negative topping prices give a non-negative surcharge. */
  lemma {:induction false} ToppingSumNonNegative(ts: seq<ToppingOption>)
    requires forall i :: 0 <= i < |ts| ==> ts[i].price >= 0.0
    ensures ToppingSum(ts) >= 0.0
  {
    if ts != [] {
      ToppingSumNonNegative(ts[..|ts| - 1]);
    }
  }

  lemma {:induction false} SubtotalAppend(a: seq<CartLine>, b: seq<CartLine>)
    ensures Subtotal(a + b) == Subtotal(a) + Subtotal(b)
  {
    if b == [] {
      assert a + b == a;
    } else {
      assert (a + b)[..|a + b| - 1] == a + b[..|b| - 1];
      SubtotalAppend(a, b[..|b| - 1]);
    }
  }

  lemma {:induction false} SubtotalNonNegative(lines: seq<CartLine>)
    requires forall i :: 0 <= i < |lines| ==> lines[i].totalPrice >= 0.0
    ensures Subtotal(lines) >= 0.0
  {
    if lines != [] {
      SubtotalNonNegative(lines[..|lines| - 1]);
    }
  }

  /** `removeItem` keeps exactly the lines with another id, in order. */
  lemma RemoveLinesSpec(lines: seq<CartLine>, id: string)
    ensures forall l :: l in RemoveLines(lines, id) <==> l in lines && l.id != id
    ensures IsSubsequence(RemoveLines(lines, id), lines)
    ensures Priced(lines) ==> Priced(RemoveLines(lines, id))
  {
    forall l
      ensures l in RemoveLines(lines, id) <==> l in lines && l.id != id
    {
      FilterMembers(lines, NotLine(id), l);
    }
    FilterIsSubsequence(lines, NotLine(id));
    var r := RemoveLines(lines, id);
    if Priced(lines) {
      forall i | 0 <= i < |r|
        ensures r[i].totalPrice == ItemPrice(r[i].item)
      {
        assert r[i] in r;
        var k :| 0 <= k < |lines| && lines[k] == r[i];
      }
    }
  }

  /** Removing an id no line has changes nothing. */
  lemma RemoveAbsentId(lines: seq<CartLine>, id: string)
    requires forall i :: 0 <= i < |lines| ==> lines[i].id != id
    ensures RemoveLines(lines, id) == lines
  {
    FilterAll(lines, NotLine(id));
  }

  /** `updateQuantity` keeps the invariant and touches only the matching lines. */
  lemma RequantifyKeepsPriced(lines: seq<CartLine>, id: string, q: int)
    requires Priced(lines)
    ensures Priced(Requantify(lines, id, q))
    ensures forall i :: 0 <= i < |lines| && lines[i].id == id ==>
      Requantify(lines, id, q)[i].item == lines[i].item.(quantity := q)
    ensures forall i :: 0 <= i < |lines| ==> Requantify(lines, id, q)[i].id == lines[i].id
  {
  }

  /** Appending a line raises the total by that line's price. */
  lemma AddedLineRaisesTotal(lines: seq<CartLine>, l: CartLine)
    ensures Subtotal(lines + [l]) == Subtotal(lines) + l.totalPrice
  {
    assert (lines + [l])[..|lines|] == lines;
  }

  /** On a priced cart the total is the sum of the formula over the lines. */
  function FormulaTotal(lines: seq<CartLine>): real
  {
    if lines == [] then 0.0 else FormulaTotal(lines[..|lines| - 1]) + ItemPrice(lines[|lines| - 1].item)
  }

  lemma {:induction false} PricedTotalIsFormulaTotal(lines: seq<CartLine>)
    requires Priced(lines)
    ensures Subtotal(lines) == FormulaTotal(lines)
  {
    if lines != [] {
      var init := lines[..|lines| - 1];
      assert Priced(init) by {
        forall i | 0 <= i < |init| ensures init[i].totalPrice == ItemPrice(init[i].item) {
          assert init[i] == lines[i];
        }
      }
      PricedTotalIsFormulaTotal(init);
    }
  }

  // ---------------------------------------------------------------------------
  // The cart state
  // ---------------------------------------------------------------------------

  class CartStore {
    var lines: seq<CartLine>

    ghost predicate Valid()
      reads this
    {
      Priced(lines)
    }

    constructor ()
      ensures Valid() && lines == []
    {
      lines := [];
    }

    /** `addItem`: one new line at the end carrying `calculateItemPrice`;
        `id` stands for the random id. */
    method AddItem(c: Customization, id: string)
      requires Valid()
      modifies this
      ensures Valid()
      ensures lines == old(lines) + [CartLine(id, c, ItemPrice(c))]
      ensures Subtotal(lines) == Subtotal(old(lines)) + ItemPrice(c)
    {
      var totalPrice := CalculateItemPrice(c);
      AddedLineRaisesTotal(lines, CartLine(id, c, totalPrice));
      lines := lines + [CartLine(id, c, totalPrice)];
    }

    /** `removeItem`. */
    method RemoveItem(id: string)
      requires Valid()
      modifies this
      ensures Valid()
      ensures lines == RemoveLines(old(lines), id)
    {
      RemoveLinesSpec(lines, id);
      lines := RemoveLines(lines, id);
    }

    /** `updateQuantity`: below 1 the lines are removed, otherwise the
        matching lines are re-priced at the new quantity. */
    method UpdateQuantity(id: string, newQuantity: int)
      requires Valid()
      modifies this
      ensures Valid()
      ensures newQuantity < 1 ==> lines == RemoveLines(old(lines), id)
      ensures newQuantity >= 1 ==> lines == Requantify(old(lines), id, newQuantity)
    {
      if newQuantity < 1 {
        RemoveItem(id);
        return;
      }
      RequantifyKeepsPriced(lines, id, newQuantity);
      lines := Requantify(lines, id, newQuantity);
    }

    /** `clearCart`. */
    method ClearCart()
      modifies this
      ensures Valid()
      ensures lines == [] && Subtotal(lines) == 0.0
    {
      lines := [];
    }
  }
}
