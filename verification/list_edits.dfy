/** Creating and editing lists and their items, and changing a list's tip. */
module ListEdits {
  import opened Domain
  import opened Money
  import opened Database

  function CreateList(s: Db, list: Id, createdBy: Id, tipPct: real): Result<Db> {
    if list in s.lists then Err(Internal)
    else if tipPct < 0.0 || tipPct > 1.0 then Err(BadRequest)
    else Ok(s.(lists := s.lists[list := ListRow(ListOpen, StoredTipPct(tipPct), None, createdBy)]))
  }

  function SetListStatus(s: Db, caller: Caller, list: Id, status: ListStatus): Result<Db> {
    if list !in s.lists then Err(NotFound)
    else if caller.user != s.lists[list].createdBy && !caller.owner then Err(Forbidden)
    else Ok(s.(lists := s.lists[list := s.lists[list].(status := status)]))
  }

  /** The payer may only change while the list has no reimbursement. `corpLinked` tells that
      the new payer is linked to the list's group. */
  function PatchListPayer(s: Db, caller: Caller, list: Id, payer: Option<Id>, corpLinked: bool): Result<Db> {
    if list !in s.lists || !caller.owner then Err(Forbidden)
    else if exists k | k in s.reimbursements :: k.list == list then Err(Conflict)
    else if payer.Some? && !corpLinked then Err(NotFound)
    else Ok(s.(lists := s.lists[list := s.lists[list].(payerCorp := payer)]))
  }

  function AddItem(s: Db, caller: Caller, list: Id, newItem: Id, qty: int): Result<Db> {
    if list !in s.lists then Err(NotFound)
    else if !s.lists[list].status.ListOpen? then Err(Conflict)
    else if qty <= 0 then Err(BadRequest)
    else if newItem in s.items then Err(Internal)
    else Ok(s.(items := s.items[newItem := ItemRow(list, caller.user, qty, 0, Open)]))
  }

  /** Both edits below look at the item's status only: an item that is partly bought and
      not claimed is open as well. */
  function EditableItem(s: Db, list: Id, item: Id): Result<ItemRow> {
    if list !in s.lists then Err(NotFound)
    else if s.lists[list].status.ListArchived? then Err(Conflict)
    else if item !in s.items || s.items[item].list != list then Err(NotFound)
    else if !s.items[item].status.Open? then Err(Conflict)
    else Ok(s.items[item])
  }

  function PatchItem(s: Db, list: Id, item: Id, qty: int): Result<Db> {
    if list in s.lists && !s.lists[list].status.ListArchived? && qty <= 0 then Err(BadRequest) else
      match EditableItem(s, list, item)
      case Err(e) => Err(e)
      case Ok(row) => Ok(s.(items := s.items[item := row.(qtyRequested := qty)]))
  }

  /** Deleting an item cascades to its fulfilments and claim items. */
  function DeleteItem(s: Db, list: Id, item: Id): Result<Db> {
    match EditableItem(s, list, item)
    case Err(e) => Err(e)
    case Ok(_) =>
      Ok(s.(items := s.items - {item},
            claimItems := map p | p in s.claimItems && p.1 != item :: s.claimItems[p],
            fulfillments := map n | n in s.fulfillments && s.fulfillments[n].item != item :: s.fulfillments[n]))
  }

  predicate HasLiveFulfillment(s: Db, list: Id) {
    exists n | n in s.fulfillments ::
      !s.fulfillments[n].reversed && s.fulfillments[n].item in s.items && s.items[s.fulfillments[n].item].list == list
  }

  /** The list stores the rate with four decimals; the pending reimbursements are
      recomputed with the rate as it was submitted. */
  function SetListTip(s: Db, caller: Caller, list: Id, pct: real): Result<Db> {
    if list !in s.lists then Err(NotFound)
    else if s.lists[list].status.ListArchived? then Err(Conflict)
    else if pct < 0.0 || pct > 1.0 then Err(BadRequest)
    else if caller.user != s.lists[list].createdBy && !caller.owner then Err(Forbidden)
    else if !caller.owner && HasLiveFulfillment(s, list) then Err(Forbidden)
    else
      Ok(s.(lists := s.lists[list := s.lists[list].(tipPct := StoredTipPct(pct))],
            reimbursements := map k | k in s.reimbursements ::
              var r := s.reimbursements[k];
              if k.list == list && r.status.Pending?
              then r.(tip := TipOf(r.subtotal, pct), total := TotalOf(r.subtotal, pct)) else r))
  }
}
