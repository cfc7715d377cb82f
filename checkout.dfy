/** The checkout modal: the user guard, the cart-to-payload mapping, and
    clearing the cart on a successful response. */
module Checkout {
  import opened Common
  import opened Cart
  import opened OrderPricing

  /** One entry of the posted `items`. */
  datatype ItemPayload = ItemPayload(
    productId: int,
    quantity: int,
    size: string,
    temperature: Option<string>,
    toppings: seq<ToppingOption>)

  /** The body posted to `/orders`: no discount and no note. */
  datatype CheckoutPayload = CheckoutPayload(
    userId: int,
    orderType: string,
    paymentMethod: string,
    items: seq<ItemPayload>)

  /** How the request went: a response carrying `success`, or a thrown error
      with an optional server message. */
  datatype CheckoutResult = Responded(success: bool) | RequestFailed(message: Option<string>)

  const NotLoggedIn: string := "You must be logged in to place an order"
  const DefaultFailure: string := "Failed to process order"

  function ItemPayloadOf(l: CartLine): ItemPayload
  {
    ItemPayload(l.item.product.id, l.item.quantity, l.item.size, l.item.temperature, l.item.toppings)
  }

  /** `items.map(...)`: one payload entry per cart line, in cart order. */
  function OrderItemsFor(lines: seq<CartLine>): (r: seq<ItemPayload>)
    ensures |r| == |lines|
    ensures forall i :: 0 <= i < |lines| ==> r[i] == ItemPayloadOf(lines[i])
  {
    seq(|lines|, i requires 0 <= i < |lines| => ItemPayloadOf(lines[i]))
  }

  function ToppingIds(ts: seq<ToppingOption>): (r: seq<int>)
    ensures |r| == |ts| && forall i :: 0 <= i < |ts| ==> r[i] == ts[i].id
  {
    seq(|ts|, i requires 0 <= i < |ts| => ts[i].id)
  }

  /** What the server reads from one payload entry: the topping objects are
      reduced to their ids. */
  function ServerLine(e: ItemPayload): LineRequest
  {
    LineRequest(e.productId, e.size, e.temperature, ToppingIds(e.toppings), e.quantity as real)
  }

  /** What the server reads from the payload; the absent discount and note
      fields are null. */
  function ToServerRequest(p: CheckoutPayload): (req: OrderRequest)
    ensures req.discountType.None? && req.discountValue.None? && req.note.None?
    ensures |req.items| == |p.items|
    ensures forall i :: 0 <= i < |p.items| ==> req.items[i] == ServerLine(p.items[i])
  {
    OrderRequest(p.userId, p.orderType, p.paymentMethod, None, None, None,
                 seq(|p.items|, i requires 0 <= i < |p.items| => ServerLine(p.items[i])))
  }

  /** The payload carries no discount, so the server charges the subtotal. */
  lemma CheckoutHasNoDiscount(p: CheckoutPayload, subtotal: real)
    ensures var req := ToServerRequest(p);
            DiscountAmount(subtotal, req.discountType, req.discountValue) == 0.0
            && OrderTotal(subtotal, DiscountAmount(subtotal, req.discountType, req.discountValue)) == subtotal
  {
  }

  /** Each payload entry copies its line's product id, quantity, size,
      temperature and toppings (same length, same order). */
  lemma PayloadCopiesLine(lines: seq<CartLine>, i: nat)
    requires i < |lines|
    ensures var e := OrderItemsFor(lines)[i];
            && e.productId == lines[i].item.product.id
            && e.quantity == lines[i].item.quantity
            && e.size == lines[i].item.size
            && e.temperature == lines[i].item.temperature
            && |e.toppings| == |lines[i].item.toppings|
            && forall k :: 0 <= k < |e.toppings| ==> e.toppings[k] == lines[i].item.toppings[k]
  {
  }

  class CheckoutModal {
    const cart: CartStore
    var orderType: string
    var paymentMethod: string
    var loading: bool
    var error: string
    var open: bool

    constructor (c: CartStore)
      ensures cart == c
      ensures orderType == "dine-in" && paymentMethod == "cash" && !loading && error == "" && open
    {
      cart := c;
      orderType, paymentMethod, loading, error, open := "dine-in", "cash", false, "", true;
    }

    /** `handleCheckout`. Without a user only the error is set. Otherwise one
        payload is posted; a response with `success` clears the cart and
        closes the modal, a thrown error shows its message or the default,
        and `loading` ends false. */
    method HandleCheckout(user: Option<User>, result: CheckoutResult) returns (sent: Option<CheckoutPayload>)
      requires cart.Valid()
      modifies this, cart
      ensures cart.Valid()
      ensures orderType == old(orderType) && paymentMethod == old(paymentMethod)
      ensures user.None? ==>
        && sent.None? && error == NotLoggedIn && cart.lines == old(cart.lines)
        && loading == old(loading) && open == old(open)
      ensures user.Some? ==>
        && sent == Some(CheckoutPayload(user.value.id, orderType, paymentMethod, OrderItemsFor(old(cart.lines))))
        && !loading
        && (result == Responded(true) ==> cart.lines == [] && error == "" && !open)
        && (result == Responded(false) ==> cart.lines == old(cart.lines) && error == "" && open == old(open))
        && (result.RequestFailed? ==>
              cart.lines == old(cart.lines) && error == FailureMessage(result.message, DefaultFailure) && open == old(open))
    {
      if user.None? {
        error := NotLoggedIn;
        return None;
      }
      loading := true;
      error := "";
      var items := OrderItemsFor(cart.lines);
      sent := Some(CheckoutPayload(user.value.id, orderType, paymentMethod, items));
      match result {
        case Responded(success) =>
          if success {
            cart.ClearCart();
            open := false;
          }
        case RequestFailed(message) =>
          error := FailureMessage(message, DefaultFailure);
      }
      loading := false;
    }
  }
}
