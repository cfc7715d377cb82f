/** A product tile of the sales grid: a click either adds the product to the
    cart straight away or opens the customisation modal. */
module ProductCard {
  import opened Common
  import opened Cart

  /** `has_temperature || has_size || toppings?.length > 0`. */
  predicate NeedsCustomization(p: ClientProduct)
  {
    p.hasTemperature || p.hasSize || |p.toppings| > 0
  }

  /** The customisation a click adds directly: Small, no temperature, no
      toppings, one unit. */
  function DirectAdd(p: ClientProduct): (c: Customization)
    ensures c.product == p && c.size == "Small" && c.temperature.None? && c.toppings == [] && c.quantity == 1
  {
    Customization(p, "Small", None, [], 1)
  }

  /** A directly added product costs exactly its listed price. */
  lemma DirectAddCostsListPrice(p: ClientProduct)
    ensures ItemPrice(DirectAdd(p)) == p.price
  {
  }

  class ProductCardState {
    const product: ClientProduct
    const cart: CartStore
    var showModal: bool

    constructor (p: ClientProduct, c: CartStore)
      ensures product == p && cart == c && !showModal
    {
      product, cart, showModal := p, c, false;
    }

    /** `handleClick`; `id` stands for the cart line's random id. */
    method HandleClick(id: string)
      requires cart.Valid()
      modifies this, cart
      ensures cart.Valid()
      ensures NeedsCustomization(product) ==> showModal && cart.lines == old(cart.lines)
      ensures !NeedsCustomization(product) ==>
        && showModal == old(showModal)
        && cart.lines == old(cart.lines) + [CartLine(id, DirectAdd(product), product.price)]
    {
      if product.hasTemperature || product.hasSize || |product.toppings| > 0 {
        showModal := true;
      } else {
        DirectAddCostsListPrice(product);
        cart.AddItem(Customization(product, "Small", None, [], 1), id);
      }
    }

    /** The modal's `onAdd`: add the customisation, then close. */
    method OnModalAdd(c: Customization, id: string)
      requires cart.Valid()
      modifies this, cart
      ensures cart.Valid()
      ensures !showModal
      ensures cart.lines == old(cart.lines) + [CartLine(id, c, ItemPrice(c))]
    {
      cart.AddItem(c, id);
      showModal := false;
    }

    /** The modal's `onClose`: the cart is not touched. */
    method OnModalClose()
      modifies this
      ensures !showModal
    {
      showModal := false;
    }
  }
}
