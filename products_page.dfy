/** The admin products page: the search filter, the normalisation of fetched
    products, and the product form's state around the edit and close actions. */
module ProductsPage {
  import opened Common

  /** `price` as received: a number or numeric text (`Number` gives `value`),
      or something `Number` turns into NaN. */
  datatype RawPrice = Numeric(value: real) | NotNumeric

  /** `is_active` as received: a boolean, a 0/1 integer, text, or null. */
  datatype RawFlag = FlagBool(b: bool) | FlagInt(i: int) | FlagText(s: string) | FlagNull

  datatype RawProduct = RawProduct(
    id: int,
    name: string,
    description: Option<string>,
    price: RawPrice,
    categoryId: nat,
    image: Option<string>,
    isActive: RawFlag)

  /** A product after normalisation; a `None` price is NaN. */
  datatype Product = Product(
    id: int,
    name: string,
    description: Option<string>,
    price: Option<real>,
    categoryId: nat,
    image: Option<string>,
    isActive: bool)

  /** JavaScript's `Boolean(v)`. */
  function ToBoolean(f: RawFlag): bool
  {
    match f
    case FlagBool(b) => b
    case FlagInt(i) => i != 0
    case FlagText(s) => s != ""
    case FlagNull => false
  }

  function Normalize(p: RawProduct): (r: Product)
    ensures r.id == p.id && r.name == p.name && r.description == p.description
    ensures r.categoryId == p.categoryId && r.image == p.image
    ensures r.price == if p.price.Numeric? then Some(p.price.value) else None
    ensures r.isActive == ToBoolean(p.isActive)
  {
    Product(p.id, p.name, p.description, if p.price.Numeric? then Some(p.price.value) else None,
            p.categoryId, p.image, ToBoolean(p.isActive))
  }

  /** `fetchProducts`: `data.data ?? data ?? []`, then normalised when it is an
      array and empty otherwise. */
  function ProductsFromBody(body: Json<RawProduct>): (r: seq<Product>)
    ensures body.JArray? ==> |r| == |body.elems|
    ensures body.JObject? && body.data.JArray? ==> |r| == |body.data.elems|
  {
    var raw := if !DataField(body).JNull? then DataField(body) else body;
    if raw.JArray? then seq(|raw.elems|, i requires 0 <= i < |raw.elems| => Normalize(raw.elems[i])) else []
  }

  /** The accepted shapes: a bare array and a `{data: [...]}` wrapper both give
      the normalised list, anything else gives the empty list. */
  lemma ProductsFromBodyShapes(xs: seq<RawProduct>, i: nat)
    requires i < |xs|
    ensures ProductsFromBody(JArray(xs))[i] == Normalize(xs[i])
    ensures ProductsFromBody(JObject(JArray(xs)))[i] == Normalize(xs[i])
    ensures ProductsFromBody(JNull) == []
    ensures ProductsFromBody(JObject(JNull)) == []
    ensures ProductsFromBody(JObject(JObject(JArray(xs)))) == []
  {
  }

  function Matches(query: string): Product -> bool
  {
    (p: Product) => Contains(Lower(p.name), Lower(query))
                    || (p.description.Some? && Contains(Lower(p.description.value), Lower(query)))
  }

  /** The search effect over the product list. */
  function SearchProducts(products: seq<Product>, query: string): seq<Product>
  {
    if query == "" then products else Filter(products, Matches(query))
  }

  lemma SearchProductsSpec(products: seq<Product>, query: string)
    ensures query == "" ==> SearchProducts(products, query) == products
    ensures forall p :: p in SearchProducts(products, query) <==>
      && p in products
      && (query != "" ==>
            Contains(Lower(p.name), Lower(query))
            || (p.description.Some? && Contains(Lower(p.description.value), Lower(query))))
    ensures IsSubsequence(SearchProducts(products, query), products)
  {
    if query == "" {
      SubsequenceRefl(products);
    } else {
      forall p
        ensures p in SearchProducts(products, query) <==> p in products && Matches(query)(p)
      {
        FilterMembers(products, Matches(query), p);
      }
      FilterIsSubsequence(products, Matches(query));
    }
  }

  /** A product without a description matches only through its name. */
  lemma NoDescriptionMatchesByName(products: seq<Product>, query: string, p: Product)
    requires p in products && p.description.None? && query != ""
    ensures p in SearchProducts(products, query) <==> Contains(Lower(p.name), Lower(query))
  {
    SearchProductsSpec(products, query);
  }

  /** `formData`. `isActive` is `None` when the key is absent; `status` is the
      stray key the close handler writes. */
  datatype ProductForm = ProductForm(
    name: string,
    description: string,
    price: string,
    categoryId: string,
    image: string,
    isActive: Option<bool>,
    status: Option<string>)

  /** The form the page starts with. */
  function InitialForm(): (f: ProductForm)
    ensures f.isActive == Some(true) && f.status.None?
    ensures f.name == "" && f.description == "" && f.price == "" && f.categoryId == "" && f.image == ""
  {
    ProductForm("", "", "", "", "", Some(true), None)
  }

  /** The status select shows `formData.is_active ? 'available' : 'unavailable'`. */
  function StatusShown(f: ProductForm): string
  {
    if f.isActive == Some(true) then "available" else "unavailable"
  }

  /** `Boolean(formData.is_active)` in the submitted body. */
  function SubmittedIsActive(f: ProductForm): bool
  {
    f.isActive == Some(true)
  }

  /** `handleEdit`'s form; `priceText` is `product.price.toString()`. */
  function EditForm(p: Product, priceText: string): (f: ProductForm)
    ensures f.name == p.name && f.price == priceText
    ensures f.description == (if p.description.Some? then p.description.value else "")
    ensures f.image == (if p.image.Some? then p.image.value else "")
    ensures f.categoryId == NatToString(p.categoryId)
    ensures f.isActive == Some(p.isActive) && f.status.None?
  {
    ProductForm(p.name, OrElse(p.description, ""), priceText, NatToString(p.categoryId), OrElse(p.image, ""),
                Some(p.isActive), None)
  }

  /** The form `handleCloseModal` writes as the code stands: a `status` key
      and no `is_active`. */
  function ClosedFormAsWritten(): ProductForm
  {
    ProductForm("", "", "", "", "", None, Some("available"))
  }

  /** The reset the close handler evidently means: the page's initial form. */
  function ClosedForm(): (f: ProductForm)
    ensures f == InitialForm()
  {
    InitialForm()
  }

  /** As written, after closing the modal the status select reads
      'unavailable' and a product added next is sent inactive, although the
      write is labelled 'available'. */
  lemma ClosedFormAsWrittenTurnsInactive()
    ensures ClosedFormAsWritten().status == Some("available")
    ensures StatusShown(ClosedFormAsWritten()) == "unavailable"
    ensures !SubmittedIsActive(ClosedFormAsWritten())
    ensures StatusShown(InitialForm()) == "available"
  {
  }

  /** With the corrected reset, a product added after a close starts active,
      exactly as on first opening. */
  lemma ClosedFormKeepsDefault()
    ensures StatusShown(ClosedForm()) == "available"
    ensures SubmittedIsActive(ClosedForm())
    ensures ClosedForm() == InitialForm()
  {
  }

  /** Editing shows the product's own status. */
  lemma EditFormShowsStatus(p: Product, priceText: string)
    ensures StatusShown(EditForm(p, priceText)) == (if p.isActive then "available" else "unavailable")
    ensures SubmittedIsActive(EditForm(p, priceText)) == p.isActive
  {
  }

  class ProductsPageState {
    var form: ProductForm
    var editing: Option<Product>
    var showModal: bool

    constructor ()
      ensures form == InitialForm() && editing.None? && !showModal
    {
      form, editing, showModal := InitialForm(), None, false;
    }

    /** `handleEdit`. */
    method HandleEdit(p: Product, priceText: string)
      modifies this
      ensures editing == Some(p) && showModal
      ensures form == EditForm(p, priceText)
    {
      editing := Some(p);
      form := ProductForm(p.name, OrElse(p.description, ""), priceText, NatToString(p.categoryId),
                          OrElse(p.image, ""), Some(p.isActive), None);
      showModal := true;
    }

    /** `handleCloseModal`, as written: the form it leaves behind carries the
        stray `status` key and no `is_active`, so it shows 'unavailable' and a
        product created from it is sent inactive. `handleSubmit` calls it after
        every successful save, so this is the form of every later new product
        unless an edit intervenes. */
    method HandleCloseModal()
      modifies this
      ensures !showModal && editing.None?
      ensures form == ClosedFormAsWritten()
      ensures form.status == Some("available")
      ensures StatusShown(form) == "unavailable" && !SubmittedIsActive(form)
    {
      showModal := false;
      editing := None;
      form := ProductForm("", "", "", "", "", None, Some("available"));
    }

    /** The "Add Product" button opens the modal on the current form. */
    method OpenForNew()
      modifies this
      ensures showModal && form == old(form) && editing == old(editing)
    {
      showModal := true;
    }  }

  /** Closing the modal (also what every successful save ends with) and then
      pressing "Add Product" opens a create form
      that shows 'unavailable' and submits `is_active: false`. */
  method CloseThenAdd(page: ProductsPageState)
    modifies page
    ensures page.showModal && page.editing.None?
    ensures StatusShown(page.form) == "unavailable"
    ensures !SubmittedIsActive(page.form)
  {
    page.HandleCloseModal();
    page.OpenForNew();
  }
}
