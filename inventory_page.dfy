/** The inventory page: the name search and the low-stock flag, read from the
    `quantity` and `reorder_level` fields the page expects. */
module InventoryPage {
  import opened Common

  /** An inventory row as the page reads it. */
  datatype StockRow = StockRow(id: int, name: string, quantity: real, reorderLevel: real, unit: string)

  function NameHas(query: string): StockRow -> bool
  {
    (r: StockRow) => Contains(Lower(r.name), Lower(query))
  }

  /** The search effect: all rows for an empty query, else the rows whose
      lower-cased name contains the lower-cased query. */
  function SearchRows(rows: seq<StockRow>, query: string): seq<StockRow>
  {
    if query == "" then rows else Filter(rows, NameHas(query))
  }

  /** `item.quantity <= item.reorder_level`: drives the alert icon, the red
      figure and the banner alike. */
  predicate Flagged(r: StockRow)
  {
    r.quantity <= r.reorderLevel
  }

  lemma SearchRowsSpec(rows: seq<StockRow>, query: string)
    ensures query == "" ==> SearchRows(rows, query) == rows
    ensures forall r :: r in SearchRows(rows, query) <==>
      r in rows && (query != "" ==> Contains(Lower(r.name), Lower(query)))
    ensures IsSubsequence(SearchRows(rows, query), rows)
  {
    if query == "" {
      SubsequenceRefl(rows);
    } else {
      forall r
        ensures r in SearchRows(rows, query) <==> r in rows && Contains(Lower(r.name), Lower(query))
      {
        FilterMembers(rows, NameHas(query), r);
      }
      FilterIsSubsequence(rows, NameHas(query));
    }
  }

  /** The flag is inclusive: a row exactly at its reorder level is flagged. */
  lemma AtReorderLevelIsFlagged(r: StockRow)
    requires r.quantity == r.reorderLevel
    ensures Flagged(r)
  {
  }
}
