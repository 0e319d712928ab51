/** Deriving an item's status and its cached quantity from fulfilments and claims. */
module Recompute {
  import opened Domain
  import opened Database

  datatype Demotion = Forbid | Allow

  function BaseStatus(qtyFulfilled: int, qtyRequested: int, claimed: bool): ItemStatus {
    if qtyFulfilled >= qtyRequested then Bought
    else if claimed then Claimed
    else Open
  }

  /** What a single recompute makes of a row. It returns early on a settled item, and
      on a delivered one unless demotion is allowed. */
  function RowAfter(row: ItemRow, qty: int, claimed: bool, demotion: Demotion): ItemRow {
    if row.status.Settled? || (row.status.Delivered? && demotion.Forbid?) then row else
      var base := BaseStatus(qty, row.qtyRequested, claimed);
      row.(qtyFulfilled := qty,
           status := if row.status.Delivered? && base.Bought? then Delivered else base)
  }

  /** What the set-based statement makes of a row: it refreshes the cached quantity of
      every item, delivered and settled ones included, and keeps those two statuses. */
  function BulkRowAfter(row: ItemRow, qty: int, claimed: bool): ItemRow {
    row.(qtyFulfilled := qty,
         status := if row.status.Delivered? || row.status.Settled? then row.status
                   else BaseStatus(qty, row.qtyRequested, claimed))
  }

  function RecomputedRow(s: Db, item: Id, demotion: Demotion): ItemRow
    requires item in s.items
  {
    RowAfter(s.items[item], LiveQty(s, item), HasActiveClaim(s.claimItems, item), demotion)
  }

  function RecomputeItem(s: Db, item: Id, demotion: Demotion): Db
    requires item in s.items
  {
    s.(items := s.items[item := RecomputedRow(s, item, demotion)])
  }

  function BulkRow(s: Db, item: Id): ItemRow
    requires item in s.items
  {
    BulkRowAfter(s.items[item], LiveQty(s, item), HasActiveClaim(s.claimItems, item))
  }

  function RecomputeBulk(s: Db, items: set<Id>): Db {
    s.(items := map i | i in s.items :: if i in items then BulkRow(s, i) else s.items[i])
  }

  function IdSet(ids: seq<Id>): set<Id> {
    set i | i in ids
  }

  /** Single recomputes, one after the other; identifiers without a row are skipped. */
  function RecomputeEach(s: Db, items: seq<Id>): Db
    decreases |items|
  {
    if items == [] then s
    else if items[0] in s.items then RecomputeEach(RecomputeItem(s, items[0], Forbid), items[1..])
    else RecomputeEach(s, items[1..])
  }
}
