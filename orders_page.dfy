/** The orders page: the search filter, the accepted response shapes, and the
    fallbacks and rows of the printed invoice. */
module OrdersPage {
  import opened Common

  /** An item of an order as the invoice reads it. */
  datatype InvoiceItem = InvoiceItem(productName: string, size: Option<string>, temperature: Option<string>,
                                     quantity: int, totalPrice: real)

  /** An order as the page reads it; `userName` is `order.user?.name`. */
  datatype OrderRow = OrderRow(
    id: nat,
    orderNumber: Option<string>,
    userName: Option<string>,
    subtotal: real,
    discountAmount: Option<real>,
    total: real,
    items: seq<InvoiceItem>)

  /** A JavaScript string value is truthy when present and non-empty. */
  predicate Filled(s: Option<string>)
  {
    s.Some? && s.value != ""
  }

  /** The search predicate: the user's name contains the query (both
      lower-cased), or the decimal id contains the query as typed. */
  predicate OrderMatches(o: OrderRow, query: string)
  {
    (Filled(o.userName) && Contains(Lower(o.userName.value), Lower(query)))
    || Contains(NatToString(o.id), query)
  }

  function MatchesQuery(query: string): OrderRow -> bool
  {
    (o: OrderRow) => OrderMatches(o, query)
  }

  function SearchOrders(orders: seq<OrderRow>, query: string): seq<OrderRow>
  {
    if query == "" then orders else Filter(orders, MatchesQuery(query))
  }

  lemma SearchOrdersSpec(orders: seq<OrderRow>, query: string)
    ensures query == "" ==> SearchOrders(orders, query) == orders
    ensures forall o :: o in SearchOrders(orders, query) <==> o in orders && (query != "" ==> OrderMatches(o, query))
    ensures IsSubsequence(SearchOrders(orders, query), orders)
  {
    if query == "" {
      SubsequenceRefl(orders);
    } else {
      forall o
        ensures o in SearchOrders(orders, query) <==> o in orders && OrderMatches(o, query)
      {
        FilterMembers(orders, MatchesQuery(query), o);
      }
      FilterIsSubsequence(orders, MatchesQuery(query));
    }
  }

  /** An order without a user is found only through its id. */
  lemma GuestOrderMatchesById(orders: seq<OrderRow>, query: string, o: OrderRow)
    requires o in orders && o.userName.None? && query != ""
    ensures o in SearchOrders(orders, query) <==> Contains(NatToString(o.id), query)
  {
    SearchOrdersSpec(orders, query);
  }

  /** A query made of letters never matches through the id. */
  lemma LetterQueryNeedsName(o: OrderRow, query: string)
    requires query != [] && 'a' <= query[0] <= 'z'
    ensures !Contains(NatToString(o.id), query)
  {
    NoLetterInDigits(NatToString(o.id), query);
  }

  lemma {:induction false} NoLetterInDigits(s: string, query: string)
    requires forall i :: 0 <= i < |s| ==> '0' <= s[i] <= '9'
    requires query != [] && 'a' <= query[0] <= 'z'
    ensures !Contains(s, query)
    decreases |s|
  {
    assert s == [] || s[0] != query[0];
    if s != [] {
      NoLetterInDigits(s[1..], query);
    }
  }

  /** `fetchOrders`: the first truthy of `data.data.data`, `data.data`, `data`. */
  function OrdersData<T>(body: Json<T>): Json<T>
  {
    var paged := DataField(DataField(body));
    if !paged.JNull? then paged
    else if !DataField(body).JNull? then DataField(body)
    else body
  }

  /** The paginated, the wrapped and the bare response all give the list. */
  lemma OrdersDataShapes<T>(xs: seq<T>)
    ensures OrdersData(JObject(JObject(JArray(xs)))) == JArray(xs)
    ensures OrdersData(JObject(JArray(xs))) == JArray(xs)
    ensures OrdersData(JArray(xs)) == JArray(xs)
  {
  }

  /** The invoice's order number: `order_number`, else `ORD-<id>`. */
  function InvoiceNumber(o: OrderRow): (s: string)
    ensures Filled(o.orderNumber) ==> s == o.orderNumber.value
    ensures !Filled(o.orderNumber) ==> s == "ORD-" + NatToString(o.id)
    ensures s != ""
  {
    if Filled(o.orderNumber) then o.orderNumber.value else "ORD-" + NatToString(o.id)
  }

  /** The invoice's cashier: the user's name, else 'Guest'. */
  function CashierName(o: OrderRow): (s: string)
    ensures Filled(o.userName) ==> s == o.userName.value
    ensures !Filled(o.userName) ==> s == "Guest"
    ensures s != ""
  {
    if Filled(o.userName) then o.userName.value else "Guest"
  }

  /** `discount_amount && Number(discount_amount) > 0`. */
  predicate ShowDiscountRow(o: OrderRow)
  {
    o.discountAmount.Some? && o.discountAmount.value > 0.0
  }

  /** An order without a discount (null or zero) prints no discount row. */
  lemma NoDiscountNoRow(o: OrderRow)
    requires o.discountAmount.None? || o.discountAmount.value <= 0.0
    ensures !ShowDiscountRow(o)
  {
  }

  function SizePart(size: Option<string>): string
  {
    if Filled(size) then " (" + size.value + ")" else ""
  }

  function TemperaturePart(temperature: Option<string>): string
  {
    if Filled(temperature) then ", " + temperature.value else ""
  }

  /** The item cell of an invoice row as the template is written: a literal
      `$` sits between the size and the temperature parts. */
  function ItemLabelAsWritten(it: InvoiceItem): string
  {
    it.productName + SizePart(it.size) + "$" + TemperaturePart(it.temperature)
  }

  /** The item cell as evidently intended: name, size, temperature. */
  function ItemLabel(it: InvoiceItem): (s: string)
    ensures it.productName <= s
    ensures it.size.None? && it.temperature.None? ==> s == it.productName
  {
    it.productName + SizePart(it.size) + TemperaturePart(it.temperature)
  }

  /** As written, a plain item with no size and no temperature prints with a
      trailing `$`, and the written label always carries one more character. */
  lemma ItemLabelAsWrittenHasStrayDollar(it: InvoiceItem)
    ensures |ItemLabelAsWritten(it)| == |ItemLabel(it)| + 1
    ensures ItemLabelAsWritten(it)[|it.productName + SizePart(it.size)|] == '$'
    ensures ItemLabelAsWritten(InvoiceItem("Latte", None, None, 1, 3.5)) == "Latte$"
    ensures ItemLabel(InvoiceItem("Latte", None, None, 1, 3.5)) == "Latte"
  {
  }

  /** The corrected label is the name followed by the optional parts, and
      names a plain item by its product name alone. */
  lemma ItemLabelExamples()
    ensures ItemLabel(InvoiceItem("Latte", Some("Large"), Some("Hot"), 2, 9.1)) == "Latte (Large), Hot"
    ensures ItemLabel(InvoiceItem("Espresso", None, None, 1, 2.5)) == "Espresso"
  {
  }
}
