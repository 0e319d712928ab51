/** Recording and reversing fulfilments, and marking an item delivered. */
module Fulfillments {
  import opened Domain
  import opened Money
  import opened Database
  import opened Recompute
  import Claims

  const MAX_QTY := 10_000_000

  /** What a caller submits. The two flags stand for lookups in tables that are not
      modelled: the market or a note is given, and market and character are valid. */
  datatype Purchase = Purchase(
    qty: int,
    unitPriceIsk: real,
    placeGiven: bool,
    placeValid: bool,
    claim: Option<Id>)

  /** The claim that currently holds `item`, if there is one. */
  ghost function ActiveClaimOf(s: Db, item: Id): Option<Id> {
    if HasActiveClaim(s.claimItems, item) then
      var p :| p in s.claimItems && p.1 == item && s.claimItems[p];
      Some(p.0)
    else None
  }

  /** A claim is complete once every item on it is bought, delivered or settled. */
  predicate AllItemsDone(s: Db, claim: Id) {
    forall p | p in s.claimItems && p.0 == claim && p.1 in s.items :: s.items[p.1].status.Fulfilled()
  }

  function CompleteClaimIfDone(s: Db, claim: Option<Id>, item: Id): Db
    requires item in s.items
  {
    if && claim.Some? && claim.value in s.claims && s.claims[claim.value].status.Active?
       && (s.items[item].status.Bought? || s.items[item].status.Settled?)
       && AllItemsDone(s, claim.value)
    then Claims.SetClaimStatus(s, claim.value, Completed)
    else s
  }

  /** Writes the pending reimbursement of `k` from its live fulfilments and the list's
      tip rate; a row that is already settled is left alone. */
  function UpsertReimbursement(s: Db, k: Key): Db
    requires k.list in s.lists
  {
    if k in s.reimbursements && !s.reimbursements[k].status.Pending? then s else
      var subtotal := CoveredCost(s, k);
      var pct := s.lists[k.list].tipPct;
      var before := if k in s.reimbursements then s.reimbursements[k]
                    else Reimbursement(Pending, 0, 0, 0, None, None);
      s.(reimbursements := s.reimbursements[k := before.(
        subtotal := subtotal, tip := TipOf(subtotal, pct), total := TotalOf(subtotal, pct))])
  }

  /** The guards of a purchase that come before the claim is looked at. */
  function RecordChecks(s: Db, caller: Caller, list: Id, item: Id, p: Purchase): Result<Key> {
    if list !in s.lists then Err(NotFound)
    else if s.lists[list].status.ListArchived? then Err(Conflict)
    else if p.qty <= 0 || p.qty > MAX_QTY || p.unitPriceIsk < 0.0 || !p.placeGiven then Err(BadRequest)
    else if item !in s.items || s.items[item].list != list then Err(NotFound)
    else if p.qty + s.items[item].qtyFulfilled > s.items[item].qtyRequested then Err(Conflict)
    else
      var k := KeyFor(s, list, s.items[item].requestedBy, caller.user);
      if k in s.reimbursements && !s.reimbursements[k].status.Pending? then Err(Conflict)
      else if !p.placeValid then Err(BadRequest)
      else Ok(k)
  }

  predicate ClaimHolderMayBuy(s: Db, caller: Caller, holder: Option<Id>) {
    holder.Some? && holder.value in s.claims ==> caller.owner || s.claims[holder.value].hauler == caller.user
  }

  function InsertFulfillment(s: Db, f: Fulfillment): Db {
    s.(fulfillments := s.fulfillments[s.nextFulfillment := f], nextFulfillment := s.nextFulfillment + 1)
  }

  ghost function RecordFulfillment(s: Db, caller: Caller, list: Id, item: Id, p: Purchase): Result<Db> {
    match RecordChecks(s, caller, list, item, p)
    case Err(e) => Err(e)
    case Ok(k) =>
      var holder := ActiveClaimOf(s, item);
      if !ClaimHolderMayBuy(s, caller, holder) then Err(Forbidden)
      else if holder.Some? && p.claim.Some? && p.claim != holder then Err(BadRequest)
      else Ok(RecordBought(s, k, item, Fulfillment(item, holder, caller.user, p.qty, ToCents(p.unitPriceIsk), false)))
  }

  /** The writes of a purchase that passed every guard. */
  function RecordBought(s: Db, k: Key, item: Id, f: Fulfillment): Db
    requires item in s.items && k.list in s.lists
  {
    var s1 := InsertFulfillment(s, f);
    var s2 := RecomputeItem(s1, item, Forbid);
    var s3 := CompleteClaimIfDone(s2, f.claim, item);
    UpsertReimbursement(s3, k)
  }

  function ReverseFulfillment(s: Db, caller: Caller, n: nat): Result<Db> {
    if n !in s.fulfillments || s.fulfillments[n].item !in s.items then Err(NotFound) else
      var f := s.fulfillments[n];
      var row := s.items[f.item];
      if row.list !in s.lists then Err(NotFound)
      else if s.lists[row.list].status.ListArchived? then Err(Conflict)
      else if f.reversed then Err(BadRequest)
      else if caller.user != f.hauler && !caller.owner then Err(Forbidden)
      else
        var k := KeyFor(s, row.list, row.requestedBy, f.hauler);
        if k in s.reimbursements && !s.reimbursements[k].status.Pending? then Err(Conflict)
        else Ok(ReversePurchase(s, k, n))
  }

  /** The writes of a reversal that passed every guard. */
  function ReversePurchase(s: Db, k: Key, n: nat): Db
    requires n in s.fulfillments && s.fulfillments[n].item in s.items && k.list in s.lists
  {
    var f := s.fulfillments[n];
    var s1 := s.(fulfillments := s.fulfillments[n := f.(reversed := true)]);
    var s2 := RecomputeItem(s1, f.item, Allow);
    UpsertReimbursement(s2, k)
  }

  /** `lastHauler` tells whether the caller made the latest live purchase of the item. */
  function MarkDelivered(s: Db, caller: Caller, list: Id, item: Id, lastHauler: bool): Result<Db> {
    if list !in s.lists then Err(NotFound)
    else if s.lists[list].status.ListArchived? then Err(Conflict)
    else if item !in s.items || s.items[item].list != list then Err(NotFound)
    else if !s.items[item].status.Bought? then Err(BadRequest)
    else if !lastHauler && !caller.owner then Err(Forbidden)
    else Ok(s.(items := s.items[item := s.items[item].(status := Delivered)]))
  }
}
