/** The sales page: the category and search filter over the product list,
    adding a customised product, and the checkout button's guard. */
module SalesPage {
  import opened Common
  import opened Cart

  function InCategory(c: int): ClientProduct -> bool
  {
    (p: ClientProduct) => p.categoryId == Some(c)
  }

  function NameMatches(query: string): ClientProduct -> bool
  {
    (p: ClientProduct) => Contains(Lower(p.name), Lower(query))
  }

  /** `if (selectedCategory)`: null and 0 are falsy. */
  predicate CategorySelected(category: Option<int>)
  {
    category.Some? && category.value != 0
  }

  /** The filter effect: the category filter when one is selected, then the
      name filter when the query is non-empty. */
  function FilterProducts(products: seq<ClientProduct>, category: Option<int>, query: string): seq<ClientProduct>
  {
    var byCategory := if CategorySelected(category) then Filter(products, InCategory(category.value)) else products;
    if query != "" then Filter(byCategory, NameMatches(query)) else byCategory
  }

  /** The filters are conjunctive. */
  lemma FilterProductsMembers(products: seq<ClientProduct>, category: Option<int>, query: string, p: ClientProduct)
    ensures p in FilterProducts(products, category, query) <==>
      && p in products
      && (CategorySelected(category) ==> p.categoryId == category)
      && (query != "" ==> Contains(Lower(p.name), Lower(query)))
  {
    var byCategory := if CategorySelected(category) then Filter(products, InCategory(category.value)) else products;
    if CategorySelected(category) {
      FilterMembers(products, InCategory(category.value), p);
    }
    if query != "" {
      FilterMembers(byCategory, NameMatches(query), p);
    }
  }

  /** The result keeps the products' order. */
  lemma FilterProductsIsSubsequence(products: seq<ClientProduct>, category: Option<int>, query: string)
    ensures IsSubsequence(FilterProducts(products, category, query), products)
  {
    var byCategory := if CategorySelected(category) then Filter(products, InCategory(category.value)) else products;
    if CategorySelected(category) {
      FilterIsSubsequence(products, InCategory(category.value));
    } else {
      SubsequenceRefl(products);
    }
    if query != "" {
      FilterIsSubsequence(byCategory, NameMatches(query));
      SubsequenceTrans(FilterProducts(products, category, query), byCategory, products);
    }
  }

  /** No category and an empty query show every product in order. */
  lemma NoFilterShowsAll(products: seq<ClientProduct>, category: Option<int>)
    requires !CategorySelected(category)
    ensures FilterProducts(products, category, "") == products
  {
  }

  /** The checkout button's `disabled`. */
  predicate CheckoutDisabled(lines: seq<CartLine>)
  {
    |lines| == 0
  }

  class SalesPageState {
    const cart: CartStore
    var selectedProduct: Option<ClientProduct>

    constructor (c: CartStore)
      ensures cart == c && selectedProduct.None?
    {
      cart, selectedProduct := c, None;
    }

    /** `handleAddToCart`: add the customisation and close the customiser. */
    method HandleAddToCart(c: Customization, id: string)
      requires cart.Valid()
      modifies this, cart
      ensures cart.Valid()
      ensures selectedProduct.None?
      ensures cart.lines == old(cart.lines) + [CartLine(id, c, ItemPrice(c))]
      ensures !CheckoutDisabled(cart.lines)
    {
      cart.AddItem(c, id);
      selectedProduct := None;
    }
  }
}
