# Coffee point-of-sale: a verified model of its ordering, stock and cart rules

The system is a coffee-shop point of sale: a Laravel API with a React client.
This project models its small body of sequential logic in Dafny and proves
properties of that model. Money and stock are exact `real` values.

- **Server order pricing** (`OrderPricing`, `order_pricing.dfy`) covers:
  - request validation;
  - the price of one line: the product price, ×1.3 for "Large", plus the
    surcharge of the distinct toppings `whereIn` returns, times the quantity;
  - the optional percentage or amount discount and the unclamped total.
- **Server order creation** (`OrderStore`, `order_store.dfy`) covers:
  - `OrderController::store`, as a class `OrderBook` whose `orders` and
    `order_items` tables are sequences. It has a pricing loop, a header
    insert, an item-insert loop and an all-or-nothing rollback;
  - `updateStatus`.

  The book's invariant:
  - ids below the auto-increment counter and distinct;
  - every order balanced: its subtotal is the sum of its items' `total_price`,
    and its total is the subtotal less the discount.

  Every operation is proved to preserve it.
- **The inventory ledger** (`Inventory`, `inventory.dfy`) covers:
  - `adjustStock`, with three kinds, a clamp at 0 and one log entry each;
  - the `store`/`update` field rules;
  - `isLowStock`, `lowStockAlerts` and the `index` filters.

  The class `Ledger` keeps an invariant:
  - stock and thresholds are non-negative;
  - every log entry is a clamped adjustment;
  - the entries of one item chain, and the latest one records the current stock.
- **The client cart** (`Cart`, `cart.dfy`) is a class `CartStore` over a
  sequence of lines. Its invariant is that every cached `totalPrice` equals the
  price formula. It provides add, remove, update-quantity, clear and the total.
- **The client components around the cart:**
  - the customisation modal (`ProductCustomization`);
  - the product card (`ProductCard`);
  - the checkout modal and its payload (`Checkout`);
  - the stock-adjust modal (`AdjustModal`).
- **Price agreement** (`PriceAgreement`) proves the following. A cart line's
  `totalPrice` equals the server's `total_price` for the payload entry built
  from it, and the cart total equals the server's stored order total, provided:
  - the client's catalogue copy is current;
  - no topping is listed twice.

  A topping listed twice makes the two disagree.
- **Page rules:**
  - the order-preserving search filters of the sales, inventory, products and
    orders pages;
  - product normalisation and the product form;
  - the invoice fallbacks;
  - the route guard and the admin-only navigation (`AppRoutes`).

`Common` (`common.dfy`) holds shared pieces:
- `Option`;
- a generic order-preserving `Filter` with its membership and subsequence
  lemmas;
- `OrElse` and the `message || fallback` error text both modals use;
- ASCII lower-casing, substring search and decimal rendering of a natural
  number.

## Model

| member | source | states |
|---|---|---|
| OrderPricing.ValidationRejects | app/Http/Controllers/Api/OrderController.php:53-66 | an empty item list, a non-whole or sub-1 quantity, a size outside Small/Large, a temperature outside Hot/Cold/null, an unknown product id, an order type or payment method outside its list, an unknown discount type and a negative discount value are each rejected |
| OrderPricing.ActiveFlagIgnored | app/Http/Controllers/Api/OrderController.php:61 | a product's `is_active` flag changes neither validation, nor whether `find` sees it, nor the line price |
| OrderPricing.MatchedToppingIds | app/Http/Controllers/Api/OrderController.php:82-83 | the rows `whereIn` returns are strictly increasing ids, and an id is among them exactly when it was requested and names a topping |
| OrderPricing.InsertSorted | app/Http/Controllers/Api/OrderController.php:83 | inserting into a strictly increasing id list keeps it strictly increasing and adds exactly that id |
| OrderPricing.ToppingNames | app/Http/Controllers/Api/OrderController.php:132 | one snapshot name per matched topping row |
| OrderPricing.SurchargeDependsOnlyOnIdSet | app/Http/Controllers/Api/OrderController.php:82-84 | two requests naming the same set of ids get the same rows, surcharge and names, whatever the order or repetition |
| OrderPricing.RepeatedToppingCountsOnce | app/Http/Controllers/Api/OrderController.php:82-84 | requesting an id again adds nothing to the surcharge |
| OrderPricing.UnknownToppingAddsNothing | app/Http/Controllers/Api/OrderController.php:82-84 | an id with no topping row adds nothing |
| OrderPricing.NewToppingAddsItsPrice | app/Http/Controllers/Api/OrderController.php:82-84 | a new existing id adds exactly its topping's price |
| OrderPricing.SortedListUnique | app/Http/Controllers/Api/OrderController.php:83 | a strictly increasing id list is determined by its elements |
| OrderPricing.InsertSortedSum | app/Http/Controllers/Api/OrderController.php:84 | inserting a new id adds its price to the sum |
| OrderPricing.SumPricesNonNegative | app/Http/Controllers/Api/OrderController.php:84 | non-negative topping prices give a non-negative surcharge |
| OrderPricing.SizeRule | app/Http/Controllers/Api/OrderController.php:120-144 | the unit price is the product price ×1.3 exactly for "Large" (else the list price) plus the surcharge; `total_price` is unit price × quantity |
| OrderPricing.LinePriceBounds | app/Http/Controllers/Api/OrderController.php:120-144 | with non-negative prices and quantity ≥ 1, 0 ≤ unit price ≤ line total, and Large never costs less than Small |
| OrderPricing.DiscountCases | app/Http/Controllers/Api/OrderController.php:91-98 | the discount is 0 unless both fields are present; "percentage" gives subtotal × value / 100; "amount" gives the value |
| OrderPricing.PercentageDiscountBounded | app/Http/Controllers/Api/OrderController.php:93-100 | a percentage in [0, 100] of a non-negative subtotal leaves the total in [0, subtotal] |
| OrderPricing.TotalCanBeNegative | app/Http/Controllers/Api/OrderController.php:100 | there is no clamp: an amount above the subtotal, or a percentage above 100, gives a negative total |
| OrderPricing.WorkedExample | app/Http/Controllers/Api/OrderController.php:72-100 | a 4.00 Large with 0.50 and 0.75 toppings, quantity 2 and 10% off: unit 6.45, line 12.90, discount 1.29, total 11.61, names in id order |
| OrderStore.ParseStatus | app/Http/Controllers/Api/OrderController.php:171 | exactly the four status strings are accepted, each to its own status |
| OrderStore.IndexOfOrder | app/Http/Controllers/Api/OrderController.php:168 | route-model binding finds a position holding the id, or reports that no order has it |
| OrderStore.PriceLines | app/Http/Controllers/Api/OrderController.php:72-88 | the first loop succeeds exactly when every product is visible to `find`, and then yields the subtotal of the line totals |
| OrderStore.SubtotalIsSumOfItemTotals | app/Http/Controllers/Api/OrderController.php:72-88 | the stored subtotal equals the sum of `total_price` over the created items, which are one per line |
| OrderStore.ExpectedItemAt | app/Http/Controllers/Api/OrderController.php:119-145 | item i snapshots line i: product id and name, unit price, size, temperature, topping names, quantity and total |
| OrderStore.ExpectedItemsBelongToOrder | app/Http/Controllers/Api/OrderController.php:136 | every created item carries the new order's id |
| OrderStore.ItemsOfAppend | app/Http/Controllers/Api/OrderController.php:150 | the items of an order over two appended tables are the items of each, in order |
| OrderStore.ItemsOfNone | app/Http/Controllers/Api/OrderController.php:150 | an order with no rows in the item table has no items |
| OrderStore.ItemsOfAll | app/Http/Controllers/Api/OrderController.php:150 | a table whose rows all carry one order id is exactly that order's items |
| OrderStore.OtherItemsKeepBalance | app/Http/Controllers/Api/OrderController.php:135-145 | items created for another order do not unbalance an existing one |
| OrderStore.NewOrderBalanced | app/Http/Controllers/Api/OrderController.php:103-145 | the new header is balanced against the items created with it |
| OrderStore.StoreKeepsInvariant | app/Http/Controllers/Api/OrderController.php:103-148 | appending the header and its items keeps ids distinct and below the counter, and every order balanced |
| OrderStore.StatusChangeKeepsInvariant | app/Http/Controllers/Api/OrderController.php:174 | overwriting one order's status keeps the invariant |
| OrderStore.OrderBook.constructor | app/Http/Controllers/Api/OrderController.php:51 | an empty book satisfies the invariant |
| OrderStore.OrderBook.Store | app/Http/Controllers/Api/OrderController.php:51-166 | the response is, in order: 422 on validation failure, 500 with "Failed to create order: " on a missing product or a write fault (tables unchanged), else 201 with a completed order. On 201 the header and exactly one snapshot item per line are appended in request order; the invariant is kept |
| OrderStore.OrderBook.InsertItems | app/Http/Controllers/Api/OrderController.php:119-146 | the second loop appends the snapshots of all lines, or stops at the first faulting write having appended a prefix |
| OrderStore.OrderBook.UpdateStatus | app/Http/Controllers/Api/OrderController.php:168-181 | 404 for an unknown order, 422 for an unknown status; otherwise only that order's status changes, to any of the four, and the invariant is kept |
| Inventory.ParseAdjustType | app/Http/Controllers/Api/InventoryController.php:86 | exactly addition/deduction/adjustment are accepted |
| Inventory.NewStock | app/Http/Controllers/Api/InventoryController.php:91-105 | the new stock is `max(0, raw)`: never negative, at least the raw value, and equal to it or 0 |
| Inventory.NewStockNonNegative | app/Http/Controllers/Api/InventoryController.php:85-105 | stock is never negative after an adjustment, even for a negative quantity |
| Inventory.AdjustmentIdempotent | app/Http/Controllers/Api/InventoryController.php:100-105 | "adjustment" ignores the previous stock, so repeating it changes nothing |
| Inventory.DeductionUndoesAddition | app/Http/Controllers/Api/InventoryController.php:94-99 | deducting what was just added restores a non-negative stock |
| Inventory.OverdraftClampsToZero | app/Http/Controllers/Api/InventoryController.php:98-105 | deducting more than the stock leaves 0 |
| Inventory.ApplyPatch | app/Http/Controllers/Api/InventoryController.php:67-75 | `update` copies only validated keys, so stock never changes |
| Inventory.LowStockAlerts | app/Http/Controllers/Api/InventoryController.php:126-135 | `data` holds exactly the items with stock ≤ threshold, unchanged, and `count` is their number |
| Inventory.IndexItems | app/Http/Controllers/Api/InventoryController.php:12-34 | `index` keeps exactly the items matching the category, the case-insensitive name search and, when `low_stock` is truthy, the low-stock predicate |
| Inventory.IndexLowStockIsAlerts | app/Http/Controllers/Api/InventoryController.php:24-26 | `index?low_stock=1` returns exactly what `lowStockAlerts` returns: the controller's SQL predicate agrees with `isLowStock` |
| Inventory.IndexWithoutFiltersIsAll | app/Http/Controllers/Api/InventoryController.php:12-34 | without filters `index` returns every item |
| Inventory.AtThresholdIsLow | app/Models/InventoryItem.php:32-35 | stock equal to the threshold counts as low |
| Inventory.SeededExamples | database/seeders/InventorySeeder.php:14-15 | Robusta at 8.2 of 10 is low; Whole Milk at 25 of 15 is not |
| Inventory.LastLog | app/Http/Controllers/Api/InventoryController.php:109-117 | the latest log entry of an item, if any, is the last one carrying its id |
| Inventory.LastLogAppend | app/Http/Controllers/Api/InventoryController.php:109-117 | after appending an entry it is its item's latest, and other items' latest entries are unchanged |
| Inventory.AdjustKeepsInvariant | app/Http/Controllers/Api/InventoryController.php:105-117 | updating the stock and appending its log entry keeps the ledger invariant |
| Inventory.AppendKeepsChained | app/Http/Controllers/Api/InventoryController.php:109-117 | an entry that starts from the item's last recorded stock keeps the log chained |
| Inventory.AppendKeepsLatest | app/Http/Controllers/Api/InventoryController.php:107-117 | recording the new stock as the latest entry keeps every item's latest entry current |
| Inventory.PatchKeepsInvariant | app/Http/Controllers/Api/InventoryController.php:67-75 | a valid `update` keeps the ledger invariant |
| Inventory.Ledger.constructor | app/Http/Controllers/Api/InventoryController.php:46 | an empty ledger satisfies the invariant |
| Inventory.Ledger.AdjustStock | app/Http/Controllers/Api/InventoryController.php:83-124 | 404 for an unknown item and 422 for a bad type or quantity, both changing nothing. Otherwise only that item's stock becomes the clamped value and exactly one entry is appended, with the submitted type and quantity, previous and new stock, caller and reason |
| Inventory.Ledger.StoreItem | app/Http/Controllers/Api/InventoryController.php:46-63 | invalid fields are rejected; otherwise a new item with the next id is added, `auto_deduct` taking the column default true (database/migrations/2024_01_01_000006_create_inventory_table.php:18), and no log entry is written |
| Inventory.Ledger.UpdateItem | app/Http/Controllers/Api/InventoryController.php:65-81 | 404 or 422 change nothing; otherwise only that item changes, and never its stock |
| Cart.CalculateItemPrice | frontend/src/context/CartContext.tsx:28-40 | the loop computes (price × 1.3 if Large, + each topping price in turn) × quantity |
| Cart.ExtraToppingAddsItsPrice | frontend/src/context/CartContext.tsx:35-39 | one more topping adds its price × quantity |
| Cart.DuplicateToppingCountsTwice | frontend/src/context/CartContext.tsx:35-37 | a topping listed twice is charged twice |
| Cart.ToppingSumNonNegative | frontend/src/context/CartContext.tsx:35-37 | non-negative topping prices give a non-negative topping sum |
| Cart.Requantify | frontend/src/context/CartContext.tsx:58-64 | same length; a line with the id gets the new quantity and a recomputed price; other lines are unchanged |
| Cart.RemoveLinesSpec | frontend/src/context/CartContext.tsx:49-51 | exactly the lines without that id remain, in order, still priced |
| Cart.RemoveAbsentId | frontend/src/context/CartContext.tsx:49-51 | removing an id no line has changes nothing |
| Cart.RequantifyKeepsPriced | frontend/src/context/CartContext.tsx:58-64 | requantifying keeps every cached price equal to the formula, and keeps the ids |
| Cart.SubtotalAppend | frontend/src/context/CartContext.tsx:71-73 | the total of two carts joined is the sum of their totals |
| Cart.SubtotalNonNegative | frontend/src/context/CartContext.tsx:71-73 | non-negative line prices give a non-negative total |
| Cart.AddedLineRaisesTotal | frontend/src/context/CartContext.tsx:42-73 | appending a line raises the total by its price |
| Cart.PricedTotalIsFormulaTotal | frontend/src/context/CartContext.tsx:71-75 | in a priced cart the total equals the sum of the price formula over the lines |
| Cart.CartStore.constructor | frontend/src/context/CartContext.tsx:26 | the cart starts empty and priced |
| Cart.CartStore.AddItem | frontend/src/context/CartContext.tsx:42-47 | exactly one line is appended at the end, priced by the formula; the total rises by that price |
| Cart.CartStore.RemoveItem | frontend/src/context/CartContext.tsx:49-51 | the lines become the filtered lines; the invariant is kept |
| Cart.CartStore.UpdateQuantity | frontend/src/context/CartContext.tsx:53-65 | below 1 it is exactly a removal; otherwise it is a requantification; the invariant is kept |
| Cart.CartStore.ClearCart | frontend/src/context/CartContext.tsx:67-75 | the cart is empty and its total is 0 |
| ProductCustomization.Decremented | frontend/src/components/ProductCustomizationModal.tsx:156 | `max(1, q − 1)`: never below 1 |
| ProductCustomization.FilterNotToppingMembers | frontend/src/components/ProductCustomizationModal.tsx:26 | the filter keeps exactly the selections with another id |
| ProductCustomization.ToggleFlips | frontend/src/components/ProductCustomizationModal.tsx:24-30 | after a toggle the id is selected exactly when it was not before |
| ProductCustomization.ToggleKeepsDistinct | frontend/src/components/ProductCustomizationModal.tsx:24-30 | toggling never creates duplicate ids |
| ProductCustomization.FilterKeepsDistinct | frontend/src/components/ProductCustomizationModal.tsx:26 | removing by id keeps ids distinct |
| ProductCustomization.ToggleTwiceAbsent | frontend/src/components/ProductCustomizationModal.tsx:24-30 | toggling an absent topping twice restores the list |
| ProductCustomization.ToggleTwicePresent | frontend/src/components/ProductCustomizationModal.tsx:24-30 | toggling a present topping twice restores the set of ids |
| ProductCustomization.CustomizationModal.constructor | frontend/src/components/ProductCustomizationModal.tsx:17-22 | Small; Hot if the product has temperature, else null; no toppings; quantity 1 |
| ProductCustomization.CustomizationModal.ToggleTopping | frontend/src/components/ProductCustomizationModal.tsx:24-30 | the selection is toggled, nothing else changes, and the ids stay distinct |
| ProductCustomization.CustomizationModal.SelectSize | frontend/src/components/ProductCustomizationModal.tsx:17 | only the size changes |
| ProductCustomization.CustomizationModal.SelectTemperature | frontend/src/components/ProductCustomizationModal.tsx:18-20 | only the temperature changes |
| ProductCustomization.CustomizationModal.Decrement | frontend/src/components/ProductCustomizationModal.tsx:156 | the quantity becomes `max(1, q − 1)` and stays ≥ 1 |
| ProductCustomization.CustomizationModal.Increment | frontend/src/components/ProductCustomizationModal.tsx:163 | the quantity grows by 1 |
| ProductCustomization.CustomizationModal.CalculateTotal | frontend/src/components/ProductCustomizationModal.tsx:32-44 | the loop gives the cart's price formula for the current selection |
| ProductCustomization.CustomizationModal.HandleAdd | frontend/src/components/ProductCustomizationModal.tsx:46-54 | it passes exactly the product, size, temperature, toppings and quantity; the quantity is ≥ 1 and the toppings distinct |
| Common.FailureMessage | frontend/src/components/InventoryAdjustModal.tsx:34 | `message || fallback`: the server message if present and non-empty, else the component's fallback text ('Failed to adjust inventory' here, 'Failed to process order' at CheckoutModal.tsx line 53) |
| AdjustModal.Preview | frontend/src/components/InventoryAdjustModal.tsx:40-42 | "in" gives current + quantity; "out" gives `max(0, current − quantity)` |
| AdjustModal.QuantityFromInput | frontend/src/components/InventoryAdjustModal.tsx:95 | unparseable input becomes 0; otherwise the parsed integer |
| AdjustModal.WarningAtReorderLevel | frontend/src/components/InventoryAdjustModal.tsx:115-122 | the red level and the "Below reorder level" banner are inclusive: a preview equal to the reorder level warns and one unit above does not; taking out at least the whole stock always warns for a non-negative reorder level; putting stock in warns exactly when current + quantity is at or below the reorder level |
| AdjustModal.PreviewNonNegative | frontend/src/components/InventoryAdjustModal.tsx:40-42 | with non-negative stock and a submittable quantity the preview is never negative |
| AdjustModal.NegativeInputNegativePreview | frontend/src/components/InventoryAdjustModal.tsx:40-131 | a typed -5 on stock 2 previews -3 for "in", and submission is disabled |
| AdjustModal.UnparseableBlocks | frontend/src/components/InventoryAdjustModal.tsx:95-131 | unparseable input disables submission |
| AdjustModal.AdjustModalState.constructor | frontend/src/components/InventoryAdjustModal.tsx:12-15 | starts as "in", quantity 1, empty notes, not loading |
| AdjustModal.AdjustModalState.SetQuantity | frontend/src/components/InventoryAdjustModal.tsx:95 | the quantity becomes the parsed input or 0; nothing else changes |
| AdjustModal.AdjustModalState.HandleSubmit | frontend/src/components/InventoryAdjustModal.tsx:17-38 | quantity ≤ 0 alerts and sends nothing. Otherwise one request with type, quantity and notes is sent; success closes the modal, failure alerts the message, and loading ends false |
| Checkout.OrderItemsFor | frontend/src/components/CheckoutModal.tsx:32-38 | one payload entry per cart line, in cart order |
| Checkout.ToppingIds | app/Http/Controllers/Api/OrderController.php:82 | `array_column(toppings, 'id')`: same length and order as the toppings |
| Checkout.ToServerRequest | frontend/src/components/CheckoutModal.tsx:40-45 | the server reads no discount and no note, and one line per payload entry |
| Checkout.CheckoutHasNoDiscount | frontend/src/components/CheckoutModal.tsx:40-45 | the payload's server-side discount is 0, so the total is the subtotal |
| Checkout.PayloadCopiesLine | frontend/src/components/CheckoutModal.tsx:32-37 | each entry copies product id, quantity, size, temperature and the toppings in order |
| Checkout.CheckoutModal.constructor | frontend/src/components/CheckoutModal.tsx:17-20 | dine-in, cash, not loading, no error |
| Checkout.CheckoutModal.HandleCheckout | frontend/src/components/CheckoutModal.tsx:22-59 | without a user only the error is set and nothing is sent. Otherwise the payload is sent; the cart is cleared only on reported success; a thrown error shows its message or the default; loading ends false |
| PriceAgreement.ToppingSumMatchesSurcharge | frontend/src/context/CartContext.tsx:35-37 | for distinct toppings with current prices, the client's topping sum equals the server's surcharge over their ids |
| PriceAgreement.LinePriceAgrees | frontend/src/context/CartContext.tsx:28-40 | a current cart line costs the client exactly the server's `total_price` for its payload entry |
| PriceAgreement.ServerLines | frontend/src/components/CheckoutModal.tsx:32-38 | the server lines of a cart, one per line, in order |
| PriceAgreement.SubtotalAgrees | app/Http/Controllers/Api/OrderController.php:72-88 | for a priced cart of current lines, the server finds every product and its subtotal is the cart total |
| PriceAgreement.CheckoutTotalAgrees | frontend/src/components/CheckoutModal.tsx:32-45 | the stored order total of a checkout equals the cart total shown |
| PriceAgreement.TwiceListedIdChargedOnce | app/Http/Controllers/Api/OrderController.php:82-84 | an id posted twice is charged once by the server |
| PriceAgreement.TwiceListedToppingSummedTwice | frontend/src/context/CartContext.tsx:35-37 | a topping listed twice is summed twice by the cart |
| PriceAgreement.DuplicateToppingDisagrees | frontend/src/context/CartContext.tsx:35-37 | with a positively priced topping listed twice, the cart's price exceeds the server's |
| ProductCard.DirectAdd | frontend/src/components/ProductCard.tsx:18-24 | a direct add is Small, null temperature, no toppings, quantity 1 |
| ProductCard.DirectAddCostsListPrice | frontend/src/components/ProductCard.tsx:18-24 | a direct add costs the list price |
| ProductCard.ProductCardState.constructor | frontend/src/components/ProductCard.tsx:11 | the modal starts closed |
| ProductCard.ProductCardState.HandleClick | frontend/src/components/ProductCard.tsx:14-26 | a product with temperature, size or toppings opens the modal and adds nothing; any other is added directly |
| ProductCard.ProductCardState.OnModalAdd | frontend/src/components/ProductCard.tsx:54-57 | the customisation is added and the modal closes |
| ProductCard.ProductCardState.OnModalClose | frontend/src/components/ProductCard.tsx:53 | closing leaves the cart unchanged |
| SalesPage.FilterProductsMembers | frontend/src/pages/Sales.tsx:29-43 | a product is shown exactly when it is listed, in the selected category if one is selected (a falsy id selects none), and its lower-cased name contains the lower-cased query if the query is non-empty |
| SalesPage.FilterProductsIsSubsequence | frontend/src/pages/Sales.tsx:29-43 | the result keeps the original order |
| SalesPage.NoFilterShowsAll | frontend/src/pages/Sales.tsx:29-43 | no category and an empty query show all products in order |
| SalesPage.SalesPageState.constructor | frontend/src/pages/Sales.tsx:19 | no product selected |
| SalesPage.SalesPageState.HandleAddToCart | frontend/src/pages/Sales.tsx:65-68 | the line is added, the customiser closes, and checkout becomes enabled |
| InventoryPage.SearchRowsSpec | frontend/src/pages/Inventory.tsx:19-28 | an empty query shows all rows; otherwise exactly the rows whose lower-cased name contains the lower-cased query, in order |
| InventoryPage.AtReorderLevelIsFlagged | frontend/src/pages/Inventory.tsx:68 | the flag behind the icon and banner is inclusive |
| ProductsPage.Normalize | frontend/src/pages/Products.tsx:64-68 | the fields are kept; price becomes a number or NaN; `is_active` is made boolean |
| ProductsPage.ProductsFromBody | frontend/src/pages/Products.tsx:62-69 | an array response, bare or wrapped in `data`, gives one product per element |
| ProductsPage.ProductsFromBodyShapes | frontend/src/pages/Products.tsx:62-69 | bare and wrapped arrays give the normalised list; anything else gives [] |
| ProductsPage.SearchProductsSpec | frontend/src/pages/Products.tsx:46-57 | an empty query shows all; otherwise exactly the products whose name or description contains the query, case-insensitively, in order |
| ProductsPage.NoDescriptionMatchesByName | frontend/src/pages/Products.tsx:50-51 | a product without a description matches only through its name |
| ProductsPage.InitialForm | frontend/src/pages/Products.tsx:32-39 | empty text fields and `is_active` true |
| ProductsPage.EditForm | frontend/src/pages/Products.tsx:124-135 | the form copies the product, with price and category as text and a missing description or image as '' |
| ProductsPage.EditFormShowsStatus | frontend/src/pages/Products.tsx:124-135 | editing shows and submits the product's own status |
| ProductsPage.ClosedForm | frontend/src/pages/Products.tsx:137-148 | the corrected reset is the initial form |
| ProductsPage.ClosedFormAsWrittenTurnsInactive | frontend/src/pages/Products.tsx:137-148 | the reset as written shows 'unavailable' and submits inactive, though it writes 'available' |
| ProductsPage.ClosedFormKeepsDefault | frontend/src/pages/Products.tsx:32-39 | after the corrected reset the form shows and submits 'available' |
| ProductsPage.ProductsPageState.constructor | frontend/src/pages/Products.tsx:30-39 | the initial form, no product being edited, modal closed |
| ProductsPage.ProductsPageState.HandleEdit | frontend/src/pages/Products.tsx:124-135 | records the product, fills the form, opens the modal |
| ProductsPage.ProductsPageState.HandleCloseModal | frontend/src/pages/Products.tsx:137-148 | closes the modal, clears the edited product, and leaves the form as written: a `status` of 'available' but no `is_active`, so the select shows 'unavailable' and a create submits inactive |
| ProductsPage.ProductsPageState.OpenForNew | frontend/src/pages/Products.tsx:155 | opens the modal on the current form |
| ProductsPage.CloseThenAdd | frontend/src/pages/Products.tsx:137-148 | closing the modal (as every successful save does, line 108) and then pressing "Add Product" opens a create form with no product being edited that shows 'unavailable' and submits `is_active: false` |
| OrdersPage.SearchOrdersSpec | frontend/src/pages/Orders.tsx:18-29 | an empty query shows all; otherwise exactly the orders whose user name contains the query case-insensitively, or whose id text contains it as typed, in order |
| OrdersPage.GuestOrderMatchesById | frontend/src/pages/Orders.tsx:22-23 | an order without a user matches only by id |
| OrdersPage.LetterQueryNeedsName | frontend/src/pages/Orders.tsx:23 | a query starting with a letter never matches an id |
| OrdersPage.NoLetterInDigits | frontend/src/pages/Orders.tsx:23 | a digit string contains no query that starts with a letter |
| OrdersPage.OrdersDataShapes | frontend/src/pages/Orders.tsx:35 | paginated, wrapped and bare responses all give the list |
| OrdersPage.InvoiceNumber | frontend/src/pages/Orders.tsx:97 | `order_number`, else `ORD-<id>`; never empty |
| OrdersPage.CashierName | frontend/src/pages/Orders.tsx:101 | the user's name, else 'Guest' |
| OrdersPage.NoDiscountNoRow | frontend/src/pages/Orders.tsx:122-127 | a null or non-positive discount prints no discount row |
| OrdersPage.ItemLabel | frontend/src/pages/Orders.tsx:50 | the corrected label starts with the product name and is just the name for a plain item |
| OrdersPage.ItemLabelAsWrittenHasStrayDollar | frontend/src/pages/Orders.tsx:50 | the label as written carries one extra '$' after the size part, e.g. "Latte$" for a plain Latte |
| OrdersPage.ItemLabelExamples | frontend/src/pages/Orders.tsx:50 | "Latte (Large), Hot" and "Espresso" |
| AppRoutes.Guard | frontend/src/App.tsx:140-152 | no user goes to /login; a non-admin on an admin-only route goes to /sales; the children render exactly otherwise |
| AppRoutes.NavLinks | frontend/src/App.tsx:25-116 | no user gives no links; users get sales and orders; the admin links appear exactly for the 'admin' role |
| AppRoutes.NoUserGoesToLogin | frontend/src/App.tsx:143-145 | without a user every private path redirects to /login |
| AppRoutes.NonAdminNeverSeesAdminPage | frontend/src/App.tsx:147-149 | a non-admin is redirected from every admin-only page to /sales |
| AppRoutes.AdminLinksAreAdminRoutes | frontend/src/App.tsx:159-232 | the admin links are exactly the admin-only routes |
| AppRoutes.NavLinksOpen | frontend/src/App.tsx:55-116 | every link shown to a user opens its page for that user |
| AppRoutes.RootRedirectsToSales | frontend/src/App.tsx:231 | "/" redirects to /sales |

## Left out

- Floating point: PHP and JavaScript numbers (`*= 1.3`, `parseFloat`, `toFixed(2)`) and rounding into `decimal(10,2)` columns are modelled as exact reals, without rounding.
- Transactions: `beginTransaction`/`commit`/`rollBack` are modelled only by their all-or-nothing outcome. A database write fault is a parameter (`faultAt`) with an opaque message.
- The auto-increment counter advances only on success. The database also burns ids on a rolled-back insert.
- `Order::generateOrderNumber` depends on `uniqid()`, which reads the clock. The order number is a parameter.
- The cart line id comes from `Math.random`. It is a parameter of `AddItem`.
- `product.price.toString()` in `handleEdit` is JavaScript number rendering. The price text is a parameter of `EditForm`.
- `Number(...)`, `parseInt` and `Boolean(...)` on text are modelled by their results: `RawPrice`, `Option<int>` and `RawFlag`.
- `Topping::whereIn` is assumed to return rows in primary-key order. Only the topping names depend on that order; the surcharge depends on the id set alone.
- `LIKE` and `toLowerCase` are modelled as ASCII lower-casing and plain substring search. `%`/`_` wildcards in the search text and database collations are not modelled.
- `adjustStock` runs its stock update and log insert without a transaction. The model performs both in one step and does not model a failure between them.
- Concurrency between simultaneous requests is not modelled.
- The client and server field names disagree. Each side is kept as written and the two are not reconciled:
  - the adjust modal sends `in`/`out` and `notes`;
  - the inventory page reads `quantity` and `reorder_level`.
- HTTP, JSON and Eloquent plumbing is not modelled. This includes responses, `with`/`load`, pagination, ordering, routes, the `show` endpoint, and the invoice's title, date and HTML.
- The analytics and stats endpoints are not modelled. Neither are the product, category and topping CRUD controllers, `AuthContext`, login, the dashboard, or any rendering and theming.
- Cascading deletes are not modelled.

## Findings

| source | as written | input that shows it | evidently intended | confidence | as-written member | corrected member |
|---|---|---|---|---|---|---|
| frontend/src/pages/Products.tsx:137-148 | `handleCloseModal` resets the form with `status: 'available'` and no `is_active` | close the modal, then add a product: the select (line 300) reads 'unavailable' and line 104 submits `is_active: false` | reset to the initial form, with `is_active: true` | not executed | ProductsPage.ClosedFormAsWrittenTurnsInactive | ProductsPage.ClosedForm |
| frontend/src/pages/Orders.tsx:50 | the invoice item cell has a literal `$` between the size part and the temperature part | a Latte with no size and no temperature prints "Latte$" | name, then " (size)", then ", temperature", with no stray character | not executed | OrdersPage.ItemLabelAsWrittenHasStrayDollar | OrdersPage.ItemLabel |
