/** The product customisation modal: size, temperature, a topping selection
    toggled one topping at a time, a quantity that never drops below 1, the
    running total and the hand-over to the cart. */
module ProductCustomization {
  import opened Common
  import opened Cart

  function NotTopping(id: int): ToppingOption -> bool
  {
    (t: ToppingOption) => t.id != id
  }

  /** `selectedToppings.find((t) => t.id === id)` finds something. */
  predicate HasId(sel: seq<ToppingOption>, id: int)
  {
    exists i :: 0 <= i < |sel| && sel[i].id == id
  }

  /** No two selected toppings share an id. */
  predicate DistinctIds(sel: seq<ToppingOption>)
  {
    forall i, j :: 0 <= i < j < |sel| ==> sel[i].id != sel[j].id
  }

  function IdSet(sel: seq<ToppingOption>): set<int>
  {
    set i | 0 <= i < |sel| :: sel[i].id
  }

  /** `toggleTopping`: drop the topping when its id is selected, else append it. */
  function Toggled(sel: seq<ToppingOption>, t: ToppingOption): seq<ToppingOption>
  {
    if HasId(sel, t.id) then Filter(sel, NotTopping(t.id)) else sel + [t]
  }

  /** The decrement button: `Math.max(1, quantity - 1)`. */
  function Decremented(q: int): (r: int)
    ensures r >= 1
    ensures q > 1 ==> r == q - 1
    ensures q <= 1 ==> r == 1
  {
    if q - 1 < 1 then 1 else q - 1
  }

  // ---------------------------------------------------------------------------
  // Lemmas
  // ---------------------------------------------------------------------------

  lemma FilterNotToppingMembers(sel: seq<ToppingOption>, id: int)
    ensures forall x :: x in Filter(sel, NotTopping(id)) <==> x in sel && x.id != id
  {
    forall x
      ensures x in Filter(sel, NotTopping(id)) <==> x in sel && x.id != id
    {
      FilterMembers(sel, NotTopping(id), x);
    }
  }

  /** Toggling flips whether the id is selected. */
  lemma ToggleFlips(sel: seq<ToppingOption>, t: ToppingOption)
    ensures HasId(Toggled(sel, t), t.id) <==> !HasId(sel, t.id)
  {
    var r := Toggled(sel, t);
    if HasId(sel, t.id) {
      FilterNotToppingMembers(sel, t.id);
      forall i | 0 <= i < |r|
        ensures r[i].id != t.id
      {
        assert r[i] in r;
      }
    } else {
      assert r[|r| - 1].id == t.id;
    }
  }

  /** The selection never holds two toppings with the same id. */
  lemma {:induction false} ToggleKeepsDistinct(sel: seq<ToppingOption>, t: ToppingOption)
    requires DistinctIds(sel)
    ensures DistinctIds(Toggled(sel, t))
  {
    if HasId(sel, t.id) {
      FilterKeepsDistinct(sel, t.id);
    } else {
      var r := sel + [t];
      forall i, j | 0 <= i < j < |r|
        ensures r[i].id != r[j].id
      {
        if j == |sel| {
          assert r[i] == sel[i];
        }
      }
    }
  }

  lemma {:induction false} FilterKeepsDistinct(sel: seq<ToppingOption>, id: int)
    requires DistinctIds(sel)
    ensures DistinctIds(Filter(sel, NotTopping(id)))
  {
    if sel != [] {
      var rest := sel[1..];
      assert DistinctIds(rest) by {
        forall i, j | 0 <= i < j < |rest| ensures rest[i].id != rest[j].id {
          assert rest[i] == sel[i + 1] && rest[j] == sel[j + 1];
        }
      }
      FilterKeepsDistinct(rest, id);
      var tail := Filter(rest, NotTopping(id));
      FilterNotToppingMembers(rest, id);
      if sel[0].id != id {
        var r := Filter(sel, NotTopping(id));
        assert r == [sel[0]] + tail;
        forall i, j | 0 <= i < j < |r|
          ensures r[i].id != r[j].id
        {
          if i == 0 {
            assert r[j] == tail[j - 1];
            assert tail[j - 1] in rest;
            var k :| 0 <= k < |rest| && rest[k] == tail[j - 1];
            assert sel[k + 1] == rest[k];
          } else {
            assert r[i] == tail[i - 1] && r[j] == tail[j - 1];
          }
        }
      } else {
        assert Filter(sel, NotTopping(id)) == tail;
      }
    }
  }

  /** Toggling an unselected topping twice restores the selection exactly. */
  lemma ToggleTwiceAbsent(sel: seq<ToppingOption>, t: ToppingOption)
    requires !HasId(sel, t.id)
    ensures Toggled(Toggled(sel, t), t) == sel
  {
    var once := sel + [t];
    assert HasId(once, t.id) by {
      assert once[|sel|].id == t.id;
    }
    FilterAppend(sel, [t], NotTopping(t.id));
    FilterAll(sel, NotTopping(t.id));
    assert Filter([t], NotTopping(t.id)) == [] + Filter([], NotTopping(t.id));
  }

  /** Toggling a selected topping twice gives back the same set of ids (the
      topping moves to the end). */
  lemma ToggleTwicePresent(sel: seq<ToppingOption>, t: ToppingOption)
    requires HasId(sel, t.id)
    ensures IdSet(Toggled(Toggled(sel, t), t)) == IdSet(sel)
  {
    var once := Filter(sel, NotTopping(t.id));
    FilterNotToppingMembers(sel, t.id);
    assert !HasId(once, t.id) by {
      ToggleFlips(sel, t);
    }
    var twice := once + [t];
    assert Toggled(once, t) == twice;
    forall x
      ensures x in IdSet(twice) <==> x in IdSet(sel)
    {
      if x in IdSet(twice) {
        var i :| 0 <= i < |twice| && twice[i].id == x;
        if i < |once| {
          assert once[i] in once;
          var k :| 0 <= k < |sel| && sel[k] == once[i];
        } else {
          var k :| 0 <= k < |sel| && sel[k].id == t.id;
        }
      }
      if x in IdSet(sel) {
        var k :| 0 <= k < |sel| && sel[k].id == x;
        if x == t.id {
          assert twice[|once|].id == x;
        } else {
          assert sel[k] in once;
          var i :| 0 <= i < |once| && once[i] == sel[k];
          assert twice[i] == once[i];
        }
      }
    }
  }

  // ---------------------------------------------------------------------------
  // The modal
  // ---------------------------------------------------------------------------

  class CustomizationModal {
    const product: ClientProduct
    var size: string
    var temperature: Option<string>
    var selected: seq<ToppingOption>
    var quantity: int

    ghost predicate Valid()
      reads this
    {
      quantity >= 1 && DistinctIds(selected)
    }

    /** The initial state: Small, Hot when the product has a temperature
        (else none), nothing selected, quantity 1. */
    constructor (p: ClientProduct)
      ensures Valid()
      ensures product == p && size == "Small" && selected == [] && quantity == 1
      ensures temperature == if p.hasTemperature then Some("Hot") else None
    {
      product := p;
      size := "Small";
      temperature := if p.hasTemperature then Some("Hot") else None;
      selected := [];
      quantity := 1;
    }

    method ToggleTopping(t: ToppingOption)
      requires Valid()
      modifies this
      ensures Valid()
      ensures selected == Toggled(old(selected), t)
      ensures size == old(size) && temperature == old(temperature) && quantity == old(quantity)
    {
      ToggleKeepsDistinct(selected, t);
      if HasId(selected, t.id) {
        selected := Filter(selected, NotTopping(t.id));
      } else {
        selected := selected + [t];
      }
    }

    /** The size buttons. */
    method SelectSize(s: string)
      requires Valid()
      modifies this
      ensures Valid()
      ensures size == s && selected == old(selected) && temperature == old(temperature) && quantity == old(quantity)
    {
      size := s;
    }

    /** The temperature buttons, shown only for products with a temperature. */
    method SelectTemperature(t: string)
      requires Valid()
      modifies this
      ensures Valid()
      ensures temperature == Some(t) && size == old(size) && selected == old(selected) && quantity == old(quantity)
    {
      temperature := Some(t);
    }

    method Decrement()
      requires Valid()
      modifies this
      ensures Valid()
      ensures quantity == Decremented(old(quantity))
      ensures size == old(size) && temperature == old(temperature) && selected == old(selected)
    {
      quantity := if quantity - 1 < 1 then 1 else quantity - 1;
    }

    method Increment()
      requires Valid()
      modifies this
      ensures Valid()
      ensures quantity == old(quantity) + 1
      ensures size == old(size) && temperature == old(temperature) && selected == old(selected)
    {
      quantity := quantity + 1;
    }

    /** `calculateTotal`: the cart's price formula on the current choices. */
    method CalculateTotal() returns (total: real)
      ensures total == ItemPrice(Customization(product, size, temperature, selected, quantity))
    {
      total := product.price;
      if size == "Large" {
        total := total * 1.3;
      }
      var i := 0;
      while i < |selected|
        invariant 0 <= i <= |selected|
        invariant total == SizedBase(product.price, size) + ToppingSum(selected[..i])
      {
        assert selected[..i + 1][..i] == selected[..i];
        total := total + selected[i].price;
        i := i + 1;
      }
      assert selected[..|selected|] == selected;
      total := total * quantity as real;
    }

    /** `handleAdd`: the current choices, handed to `onAdd`. */
    method HandleAdd() returns (c: Customization)
      requires Valid()
      ensures c.product == product && c.size == size && c.temperature == temperature
      ensures c.toppings == selected && c.quantity == quantity
      ensures c.quantity >= 1 && DistinctIds(c.toppings)
    {
      c := Customization(product, size, temperature, selected, quantity);
    }
  }
}
