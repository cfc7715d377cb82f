/** The inventory ledger of InventoryController and the `isLowStock` rule of
    the InventoryItem model: items keyed by id with a stock level and a
    low-stock threshold, and an append-only log of stock adjustments. */
module Inventory {
  import opened Common

  /** A row of `inventory_items` (timestamps left out). */
  datatype InventoryItem = InventoryItem(
    name: string,
    category: string,
    stock: real,
    unit: string,
    lowStockThreshold: real,
    autoDeduct: bool)

  /** `InventoryItem::isLowStock`; also the SQL `stock <= low_stock_threshold`. */
  predicate IsLowStock(item: InventoryItem)
  {
    item.stock <= item.lowStockThreshold
  }

  datatype AdjustType = Addition | Deduction | Adjustment

  /** The `type` rule of `adjustStock`: `in:addition,deduction,adjustment`. */
  function ParseAdjustType(s: string): (r: Option<AdjustType>)
    ensures r.Some? <==> s in {"addition", "deduction", "adjustment"}
    ensures r == Some(Addition) <==> s == "addition"
    ensures r == Some(Deduction) <==> s == "deduction"
    ensures r == Some(Adjustment) <==> s == "adjustment"
  {
    if s == "addition" then Some(Addition)
    else if s == "deduction" then Some(Deduction)
    else if s == "adjustment" then Some(Adjustment)
    else None
  }

  /** The `switch` of `adjustStock` before the clamp. */
  function RawStock(previous: real, kind: AdjustType, quantity: real): real
  {
    match kind
    case Addition => previous + quantity
    case Deduction => previous - quantity
    case Adjustment => quantity
  }

  /** `max(0, $newStock)`: the clamped stock after an adjustment. */
  function NewStock(previous: real, kind: AdjustType, quantity: real): (r: real)
    ensures r >= 0.0
    ensures r >= RawStock(previous, kind, quantity)
    ensures r == RawStock(previous, kind, quantity) || r == 0.0
  {
    var raw := RawStock(previous, kind, quantity);
    if raw < 0.0 then 0.0 else raw
  }

  /** A row of `inventory_logs`. */
  datatype InventoryLog = InventoryLog(
    itemId: int,
    userId: Option<int>,
    kind: AdjustType,
    quantity: real,
    previousStock: real,
    newStock: real,
    reason: Option<string>)

  /** The body of an `adjustStock` request; `quantity` is `None` when it is
      missing or not numeric. */
  datatype AdjustRequest = AdjustRequest(kind: string, quantity: Option<real>, reason: Option<string>)

  datatype AdjustResponse = ItemNotFound | AdjustRejected | Adjusted(item: InventoryItem)

  /** The body of a `store` request; a `None` is a missing (or, for the
      numeric fields, non-numeric) field. */
  datatype NewItemRequest = NewItemRequest(
    name: Option<string>,
    category: Option<string>,
    stock: Option<real>,
    unit: Option<string>,
    lowStockThreshold: Option<real>,
    autoDeduct: Option<bool>)

  /** The body of an `update` request. `stock` may be sent but no rule names it. */
  datatype ItemPatch = ItemPatch(
    name: Option<string>,
    category: Option<string>,
    stock: Option<real>,
    unit: Option<string>,
    lowStockThreshold: Option<real>,
    autoDeduct: Option<bool>)

  datatype StoreItemResponse = StoreRejected | ItemCreated(id: int, item: InventoryItem)
  datatype UpdateItemResponse = UpdateNotFound | UpdateRejected | ItemUpdated(item: InventoryItem)

  /** `required` fails on an empty string. */
  predicate Present(s: Option<string>)
  {
    s.Some? && s.value != ""
  }

  /** The rules of `store`. */
  predicate ValidNewItem(req: NewItemRequest)
  {
    && Present(req.name) && |req.name.value| <= 255
    && Present(req.category)
    && req.stock.Some? && req.stock.value >= 0.0
    && Present(req.unit)
    && req.lowStockThreshold.Some? && req.lowStockThreshold.value >= 0.0
  }

  /** The rules of `update`: every key is optional. */
  predicate ValidPatch(p: ItemPatch)
  {
    && (p.name.Some? ==> |p.name.value| <= 255)
    && (p.lowStockThreshold.Some? ==> p.lowStockThreshold.value >= 0.0)
  }

  /** `$inventoryItem->update($validated)`: only the validated keys are copied. */
  function ApplyPatch(item: InventoryItem, p: ItemPatch): (r: InventoryItem)
    ensures r.stock == item.stock
  {
    InventoryItem(OrElse(p.name, item.name), OrElse(p.category, item.category), item.stock,
                  OrElse(p.unit, item.unit), OrElse(p.lowStockThreshold, item.lowStockThreshold),
                  OrElse(p.autoDeduct, item.autoDeduct))
  }

  /** The `data` and `count` of `lowStockAlerts`. */
  function LowStockAlerts(items: map<int, InventoryItem>): (r: (map<int, InventoryItem>, nat))
    ensures forall id :: id in r.0 <==> id in items && IsLowStock(items[id])
    ensures forall id :: id in r.0 ==> r.0[id] == items[id]
    ensures r.1 == |r.0|
  {
    var data := map id | id in items && IsLowStock(items[id]) :: items[id];
    (data, |data|)
  }

  /** PHP truthiness of a query-string value. */
  predicate Truthy(v: Option<string>)
  {
    v.Some? && v.value != "" && v.value != "0"
  }

  /** `index`: `category` is an exact match, `search` a case-insensitive
      `LIKE '%…%'` on the name, `low_stock` the low-stock predicate. */
  function IndexItems(items: map<int, InventoryItem>, category: Option<string>, search: Option<string>,
                      lowStock: Option<string>): (r: map<int, InventoryItem>)
    ensures forall id :: id in r ==> id in items && r[id] == items[id]
    ensures forall id :: id in r <==>
      && id in items
      && (category.Some? ==> items[id].category == category.value)
      && (search.Some? ==> Contains(Lower(items[id].name), Lower(search.value)))
      && (Truthy(lowStock) ==> IsLowStock(items[id]))
  {
    map id | id in items
             && (category.Some? ==> items[id].category == category.value)
             && (search.Some? ==> Contains(Lower(items[id].name), Lower(search.value)))
             && (Truthy(lowStock) ==> IsLowStock(items[id]))
      :: items[id]
  }

  /** The position of the latest log entry of an item, if any. */
  function LastLog(logs: seq<InventoryLog>, id: int): (r: Option<nat>)
    ensures r.Some? ==> r.value < |logs| && logs[r.value].itemId == id
    ensures r.Some? ==> forall m :: r.value < m < |logs| ==> logs[m].itemId != id
    ensures r.None? ==> forall m :: 0 <= m < |logs| ==> logs[m].itemId != id
  {
    if logs == [] then None
    else if logs[|logs| - 1].itemId == id then Some(|logs| - 1)
    else LastLog(logs[..|logs| - 1], id)
  }

  /** The ledger invariant: stock and thresholds are never negative, every log
      entry belongs to an item and records a clamped adjustment, entries of one
      item form a chain (each starts where the previous one ended), and the
      latest entry of an item records its current stock. */
  ghost predicate LedgerInvariant(items: map<int, InventoryItem>, logs: seq<InventoryLog>, nextId: int)
  {
    && nextId >= 1
    && (forall id :: id in items ==> 1 <= id < nextId)
    && (forall id :: id in items ==> items[id].stock >= 0.0 && items[id].lowStockThreshold >= 0.0)
    && (forall k :: 0 <= k < |logs| ==> logs[k].itemId in items)
    && (forall k :: 0 <= k < |logs| ==>
          logs[k].newStock == NewStock(logs[k].previousStock, logs[k].kind, logs[k].quantity))
    && Chained(logs)
    && LatestIsCurrent(items, logs)
  }

  /** Each entry starts from the stock the item's previous entry ended with. */
  ghost predicate Chained(logs: seq<InventoryLog>)
  {
    forall k :: 0 <= k < |logs| ==> LastLog(logs[..k], logs[k].itemId).Some? ==>
      logs[k].previousStock == logs[LastLog(logs[..k], logs[k].itemId).value].newStock
  }

  /** The latest entry of each item records its current stock. */
  ghost predicate LatestIsCurrent(items: map<int, InventoryItem>, logs: seq<InventoryLog>)
  {
    forall id :: id in items ==> LastLog(logs, id).Some? ==>
      logs[LastLog(logs, id).value].newStock == items[id].stock
  }

  // ---------------------------------------------------------------------------
  // Lemmas about the pure rules
  // ---------------------------------------------------------------------------

  /** The comparison is inclusive: stock equal to the threshold is low. */
  lemma AtThresholdIsLow(item: InventoryItem)
    requires item.stock == item.lowStockThreshold
    ensures IsLowStock(item)
  {
  }

  /** Stock never goes negative, even for a negative quantity (the validator
      only asks for a number). */
  lemma NewStockNonNegative(previous: real, kind: AdjustType, quantity: real)
    ensures NewStock(previous, kind, quantity) >= 0.0
  {
  }

  /** An adjustment sets the stock regardless of what it was, so repeating it
      changes nothing. */
  lemma AdjustmentIdempotent(previous: real, quantity: real)
    ensures NewStock(NewStock(previous, Adjustment, quantity), Adjustment, quantity)
            == NewStock(previous, Adjustment, quantity)
    ensures forall other :: NewStock(other, Adjustment, quantity) == NewStock(previous, Adjustment, quantity)
  {
  }

  /** Deducting what was just added restores a stock level, when neither step
      hits the clamp. */
  lemma DeductionUndoesAddition(previous: real, quantity: real)
    requires previous >= 0.0 && quantity >= 0.0
    ensures NewStock(NewStock(previous, Addition, quantity), Deduction, quantity) == previous
  {
  }

  /** Deducting more than the stock empties it. */
  lemma OverdraftClampsToZero(previous: real, quantity: real)
    requires quantity > previous
    ensures NewStock(previous, Deduction, quantity) == 0.0
  {
  }

  /** `index?low_stock=1` returns exactly `lowStockAlerts`' `data`. */
  lemma IndexLowStockIsAlerts(items: map<int, InventoryItem>)
    ensures IndexItems(items, None, None, Some("1")) == LowStockAlerts(items).0
  {
    var a := IndexItems(items, None, None, Some("1"));
    var b := LowStockAlerts(items).0;
    assert forall id :: id in a <==> id in b;
    assert forall id :: id in a ==> a[id] == b[id];
  }

  /** Without filters `index` returns every item. */
  lemma IndexWithoutFiltersIsAll(items: map<int, InventoryItem>, lowStock: Option<string>)
    requires !Truthy(lowStock)
    ensures IndexItems(items, None, None, lowStock) == items
  {
    var a := IndexItems(items, None, None, lowStock);
    assert forall id :: id in a <==> id in items;
  }

  /** The two seeded items of the example data. */
  lemma SeededExamples()
    ensures IsLowStock(InventoryItem("Coffee Beans - Robusta", "Ingredients", 8.2, "kg", 10.0, true))
    ensures !IsLowStock(InventoryItem("Whole Milk", "Dairy", 25.0, "L", 15.0, true))
  {
  }

  lemma {:induction false} LastLogAppend(logs: seq<InventoryLog>, e: InventoryLog, id: int)
    ensures LastLog(logs + [e], id) == if e.itemId == id then Some(|logs|) else LastLog(logs, id)
  {
    assert (logs + [e])[..|logs|] == logs;
  }

  /** An adjustment keeps the ledger invariant. */
  lemma AdjustKeepsInvariant(items: map<int, InventoryItem>, logs: seq<InventoryLog>, nextId: int,
                             id: int, kind: AdjustType, quantity: real, userId: Option<int>,
                             reason: Option<string>)
    requires LedgerInvariant(items, logs, nextId) && id in items
    ensures var previous := items[id].stock;
            var next := NewStock(previous, kind, quantity);
            LedgerInvariant(items[id := items[id].(stock := next)],
                            logs + [InventoryLog(id, userId, kind, quantity, previous, next, reason)], nextId)
  {
    var previous := items[id].stock;
    var next := NewStock(previous, kind, quantity);
    var entry := InventoryLog(id, userId, kind, quantity, previous, next, reason);
    AppendKeepsChained(logs, entry, items[id].stock);
    AppendKeepsLatest(items, logs, entry);
  }

  /** Appending an entry that starts from the item's last recorded stock keeps
      the log chained. */
  lemma AppendKeepsChained(logs: seq<InventoryLog>, entry: InventoryLog, current: real)
    requires Chained(logs)
    requires LastLog(logs, entry.itemId).Some? ==> logs[LastLog(logs, entry.itemId).value].newStock == current
    requires entry.previousStock == current
    ensures Chained(logs + [entry])
  {
    var logs' := logs + [entry];
    forall k | 0 <= k < |logs'|
      ensures LastLog(logs'[..k], logs'[k].itemId).Some? ==>
        logs'[k].previousStock == logs'[LastLog(logs'[..k], logs'[k].itemId).value].newStock
    {
      if k < |logs| {
        assert logs'[..k] == logs[..k];
        assert logs'[k] == logs[k];
        var l := LastLog(logs[..k], logs[k].itemId);
        if l.Some? {
          assert logs'[l.value] == logs[l.value];
        }
      } else {
        assert logs'[..k] == logs;
        var l := LastLog(logs, entry.itemId);
        if l.Some? {
          assert logs'[l.value] == logs[l.value];
        }
      }
    }
  }

  /** Recording an item's new stock as its latest entry keeps every item's
      latest entry current. */
  lemma AppendKeepsLatest(items: map<int, InventoryItem>, logs: seq<InventoryLog>, entry: InventoryLog)
    requires LatestIsCurrent(items, logs) && entry.itemId in items
    ensures LatestIsCurrent(items[entry.itemId := items[entry.itemId].(stock := entry.newStock)], logs + [entry])
  {
    var items' := items[entry.itemId := items[entry.itemId].(stock := entry.newStock)];
    var logs' := logs + [entry];
    forall other | other in items'
      ensures LastLog(logs', other).Some? ==> logs'[LastLog(logs', other).value].newStock == items'[other].stock
    {
      LastLogAppend(logs, entry, other);
      var l := LastLog(logs, other);
      if other != entry.itemId && l.Some? {
        assert logs'[l.value] == logs[l.value];
      }
    }
  }

  /** An edit keeps the ledger invariant: it cannot touch stock, and the
      threshold rule keeps thresholds non-negative. */
  lemma PatchKeepsInvariant(items: map<int, InventoryItem>, logs: seq<InventoryLog>, nextId: int,
                            id: int, p: ItemPatch)
    requires LedgerInvariant(items, logs, nextId) && id in items && ValidPatch(p)
    ensures LedgerInvariant(items[id := ApplyPatch(items[id], p)], logs, nextId)
  {
  }

  // ---------------------------------------------------------------------------
  // The ledger
  // ---------------------------------------------------------------------------

  class Ledger {
    var items: map<int, InventoryItem>
    var logs: seq<InventoryLog>
    /** The next value of the `inventory_items.id` auto-increment. */
    var nextId: int

    ghost predicate Valid()
      reads this
    {
      LedgerInvariant(items, logs, nextId)
    }

    constructor ()
      ensures Valid()
      ensures items == map[] && logs == [] && nextId == 1
    {
      items, logs, nextId := map[], [], 1;
    }

    /** `InventoryController::adjustStock`: 404 for an unknown item, 422 for an
        unknown type or a missing or non-numeric quantity, else the item's stock
        is replaced by the clamped new stock and one log entry is appended. */
    method AdjustStock(id: int, req: AdjustRequest, userId: Option<int>) returns (resp: AdjustResponse)
      requires Valid()
      modifies this
      ensures Valid()
      ensures nextId == old(nextId)
      ensures id !in old(items) ==> resp == ItemNotFound && items == old(items) && logs == old(logs)
      ensures id in old(items) && (ParseAdjustType(req.kind).None? || req.quantity.None?) ==>
        resp == AdjustRejected && items == old(items) && logs == old(logs)
      ensures id in old(items) && ParseAdjustType(req.kind).Some? && req.quantity.Some? ==>
        var previous := old(items)[id].stock;
        var kind := ParseAdjustType(req.kind).value;
        var next := NewStock(previous, kind, req.quantity.value);
        && items == old(items)[id := old(items)[id].(stock := next)]
        && logs == old(logs) + [InventoryLog(id, userId, kind, req.quantity.value, previous, next, req.reason)]
        && resp == Adjusted(items[id])
    {
      if id !in items {
        return ItemNotFound;
      }
      var kind := ParseAdjustType(req.kind);
      if kind.None? || req.quantity.None? {
        return AdjustRejected;
      }
      var quantity := req.quantity.value;
      var previous := items[id].stock;
      var newStock := RawStock(previous, kind.value, quantity);
      newStock := if newStock < 0.0 then 0.0 else newStock;
      AdjustKeepsInvariant(items, logs, nextId, id, kind.value, quantity, userId, req.reason);
      items := items[id := items[id].(stock := newStock)];
      logs := logs + [InventoryLog(id, userId, kind.value, quantity, previous, newStock, req.reason)];
      resp := Adjusted(items[id]);
    }

    /** `InventoryController::store`: a new item with the validated fields;
        `auto_deduct` defaults to true. No log entry is written. */
    method StoreItem(req: NewItemRequest) returns (resp: StoreItemResponse)
      requires Valid()
      modifies this
      ensures Valid()
      ensures logs == old(logs)
      ensures !ValidNewItem(req) ==> resp == StoreRejected && items == old(items) && nextId == old(nextId)
      ensures ValidNewItem(req) ==>
        var item := InventoryItem(req.name.value, req.category.value, req.stock.value, req.unit.value,
                                  req.lowStockThreshold.value, OrElse(req.autoDeduct, true));
        && resp == ItemCreated(old(nextId), item)
        && items == old(items)[old(nextId) := item]
        && nextId == old(nextId) + 1
    {
      if !ValidNewItem(req) {
        return StoreRejected;
      }
      var item := InventoryItem(req.name.value, req.category.value, req.stock.value, req.unit.value,
                                req.lowStockThreshold.value, OrElse(req.autoDeduct, true));
      var id := nextId;
      assert id !in items;
      assert forall m :: 0 <= m < |logs| ==> logs[m].itemId != id;
      assert LastLog(logs, id).None?;
      items := items[id := item];
      nextId := nextId + 1;
      resp := ItemCreated(id, item);
    }

    /** `InventoryController::update`: copies the validated keys only, so a
        submitted `stock` is dropped and the stock never changes. */
    method UpdateItem(id: int, p: ItemPatch) returns (resp: UpdateItemResponse)
      requires Valid()
      modifies this
      ensures Valid()
      ensures logs == old(logs) && nextId == old(nextId)
      ensures id in items <==> id in old(items)
      ensures id in items ==> items[id].stock == old(items)[id].stock
      ensures id !in old(items) ==> resp == UpdateNotFound && items == old(items)
      ensures id in old(items) && !ValidPatch(p) ==> resp == UpdateRejected && items == old(items)
      ensures id in old(items) && ValidPatch(p) ==>
        && items == old(items)[id := ApplyPatch(old(items)[id], p)]
        && resp == ItemUpdated(items[id])
    {
      if id !in items {
        return UpdateNotFound;
      }
      if !ValidPatch(p) {
        return UpdateRejected;
      }
      PatchKeepsInvariant(items, logs, nextId, id, p);
      items := items[id := ApplyPatch(items[id], p)];
      resp := ItemUpdated(items[id]);
    }
  }
}
