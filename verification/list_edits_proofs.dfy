/** Creating and editing lists and items, and changing a tip, keep the invariant. */
module ListEditsProofs {
  import opened Domain
  import opened Sums
  import opened Money
  import opened Database
  import opened ListEdits
  import opened Invariant
  import opened RecomputeProofs

  // ── Lists ─────────────────────────────────────────────────────────────────

  lemma StoredTipInRange(pct: real)
    requires 0.0 <= pct <= 1.0
    ensures 0.0 <= StoredTipPct(pct) <= 1.0
  {
  }

  /** Every list keeps its payer, except that it may change on a list that has no
      reimbursement. */
  ghost predicate ListsEdited(s: Db, t: Db) {
    && t == s.(lists := t.lists)
    && s.lists.Keys <= t.lists.Keys
    && (forall l | l in s.lists && t.lists[l].payerCorp != s.lists[l].payerCorp ::
          forall k | k in s.reimbursements :: k.list != l)
    && (forall l | l in t.lists :: 0.0 <= t.lists[l].tipPct <= 1.0)
  }

  lemma PaidOnEditedList(s: Db, t: Db, f: Fulfillment)
    requires ListsEdited(s, t)
    requires f.item in s.items && s.items[f.item].list in s.lists && PayingKey(s, f) in s.reimbursements
    ensures PayingKey(t, f) == PayingKey(s, f)
  {
  }

  lemma ListsEditedKeepsOwedSide(s: Db, t: Db)
    requires OwedSide(s) && ListsEdited(s, t)
    ensures OwedSide(t)
  {
    forall n | n in t.fulfillments && !t.fulfillments[n].reversed
      ensures PayingKey(t, t.fulfillments[n]) == PayingKey(s, t.fulfillments[n])
    {
      PaidOnEditedList(s, t, s.fulfillments[n]);
    }
    forall i | i in t.items && t.items[i].status.Settled?
      ensures FullyPaid(t, i)
    {
      assert FullyPaid(s, i);
    }
  }

  lemma ListsEditedKeepsInv(s: Db, t: Db)
    requires Inv(s) && ListsEdited(s, t)
    ensures Inv(t)
  {
    hide ClaimSide, OwedSide, BindSide;
    ListsEditedKeepsOwedSide(s, t);
    ClaimSideKept(s, t);
    BindSideKept(s, t);
  }

  lemma CreateListKeepsInv(s: Db, list: Id, createdBy: Id, tipPct: real)
    requires Inv(s) && CreateList(s, list, createdBy, tipPct).Ok?
    ensures Inv(CreateList(s, list, createdBy, tipPct).value)
  {
    hide ClaimSide, BindSide, StoredTipPct;
    StoredTipInRange(tipPct);
    ListsEditedKeepsInv(s, CreateList(s, list, createdBy, tipPct).value);
  }

  lemma SetListStatusKeepsInv(s: Db, caller: Caller, list: Id, status: ListStatus)
    requires Inv(s) && SetListStatus(s, caller, list, status).Ok?
    ensures Inv(SetListStatus(s, caller, list, status).value)
  {
    hide ClaimSide, BindSide;
    ListsEditedKeepsInv(s, SetListStatus(s, caller, list, status).value);
  }

  lemma PatchListPayerKeepsInv(s: Db, caller: Caller, list: Id, payer: Option<Id>, corpLinked: bool)
    requires Inv(s) && PatchListPayer(s, caller, list, payer, corpLinked).Ok?
    ensures Inv(PatchListPayer(s, caller, list, payer, corpLinked).value)
  {
    hide ClaimSide, BindSide;
    ListsEditedKeepsInv(s, PatchListPayer(s, caller, list, payer, corpLinked).value);
  }

  // ── Items ─────────────────────────────────────────────────────────────────

  lemma NothingLiveOnNewItem(s: Db, item: Id)
    requires FulfillmentsRefer(s) && item !in s.items
    ensures LiveQty(s, item) == 0
  {
    SumZeroIffAllZero(s.nextFulfillment, QtyAt(s.fulfillments, item));
  }

  lemma AddItemKeepsClaimSide(s: Db, item: Id, row: ItemRow)
    requires ClaimSide(s) && FulfillmentsRefer(s) && item !in s.items
    requires row.status.Open? && row.qtyFulfilled == 0
    ensures ClaimSide(s.(items := s.items[item := row]))
  {
    hide Sum, ClaimsExclusive;
    var t := s.(items := s.items[item := row]);
    assert forall i | i in t.items :: LiveQty(t, i) == LiveQty(s, i);
    NothingLiveOnNewItem(s, item);
    forall i | i in t.items
      ensures t.items[i].qtyFulfilled == LiveQty(t, i)
      ensures RowFits(t.items[i], HasActiveClaim(t.claimItems, i))
    {
      if i != item {
        assert RowFits(s.items[i], HasActiveClaim(s.claimItems, i));
      }
    }
    ClaimTablesKept(s, t);
  }

  lemma AddItemKeepsOwedSide(s: Db, item: Id, row: ItemRow)
    requires OwedSide(s) && item !in s.items
    requires row.status.Open? && row.qtyRequested > 0 && row.list in s.lists
    ensures OwedSide(s.(items := s.items[item := row]))
  {
  }

  lemma AddItemKeepsInv(s: Db, caller: Caller, list: Id, newItem: Id, qty: int)
    requires Inv(s) && AddItem(s, caller, list, newItem, qty).Ok?
    ensures Inv(AddItem(s, caller, list, newItem, qty).value)
  {
    hide ClaimSide, BindSide, ItemsRefer, ReimbursementsRefer, EveryPurchaseOwed, SettledIsPaid, TotalsAddUp;
    var row := ItemRow(list, caller.user, qty, 0, Open);
    AddItemKeepsClaimSide(s, newItem, row);
    AddItemKeepsOwedSide(s, newItem, row);
    BindSideKept(s, s.(items := s.items[newItem := row]));
  }

  lemma PatchItemKeepsClaimSide(s: Db, item: Id, qty: int)
    requires ClaimSide(s) && item in s.items && s.items[item].status.Open?
    ensures ClaimSide(s.(items := s.items[item := s.items[item].(qtyRequested := qty)]))
  {
    hide Sum, ClaimsRefer, ClaimsExclusive, HasActiveClaim;
    var t := s.(items := s.items[item := s.items[item].(qtyRequested := qty)]);
    forall i | i in t.items
      ensures t.items[i].qtyFulfilled == LiveQty(t, i)
      ensures RowFits(t.items[i], HasActiveClaim(t.claimItems, i))
    {
      assert LiveQty(t, i) == LiveQty(s, i);
      assert RowFits(s.items[i], HasActiveClaim(s.claimItems, i));
    }
    ClaimTablesKept(s, t);
  }

  lemma PatchItemKeepsOwedSide(s: Db, item: Id, qty: int)
    requires OwedSide(s) && item in s.items && s.items[item].status.Open? && qty > 0
    ensures OwedSide(s.(items := s.items[item := s.items[item].(qtyRequested := qty)]))
  {
  }

  lemma PatchItemKeepsInv(s: Db, list: Id, item: Id, qty: int)
    requires Inv(s) && PatchItem(s, list, item, qty).Ok?
    ensures Inv(PatchItem(s, list, item, qty).value)
  {
    hide ClaimSide, OwedSide, BindSide;
    PatchItemKeepsClaimSide(s, item, qty);
    PatchItemKeepsOwedSide(s, item, qty);
    BindSideKept(s, PatchItem(s, list, item, qty).value);
  }

  /** `t` is `s` without `item`, its fulfilments and its claim items. */
  ghost predicate ItemDeleted(s: Db, t: Db, item: Id) {
    && t == s.(items := s.items - {item}, claimItems := t.claimItems, fulfillments := t.fulfillments)
    && t.claimItems == (map p | p in s.claimItems && p.1 != item :: s.claimItems[p])
    && t.fulfillments == (map n | n in s.fulfillments && s.fulfillments[n].item != item :: s.fulfillments[n])
  }

  lemma OthersAfterDelete(s: Db, t: Db, item: Id, i: Id)
    requires ItemDeleted(s, t, item) && i != item
    ensures LiveQty(t, i) == LiveQty(s, i)
    ensures HasActiveClaim(t.claimItems, i) == HasActiveClaim(s.claimItems, i)
  {
    SumOfEqual(s.nextFulfillment, QtyAt(s.fulfillments, i), QtyAt(t.fulfillments, i));
    if HasActiveClaim(s.claimItems, i) {
      var p :| p in s.claimItems && p.1 == i && s.claimItems[p];
      assert p in t.claimItems && t.claimItems[p];
    }
  }

  lemma DeleteKeepsClaimTables(s: Db, t: Db, item: Id)
    requires ClaimsRefer(s) && ClaimsExclusive(s) && ItemDeleted(s, t, item)
    ensures ClaimsRefer(t) && ClaimsExclusive(t)
  {
  }

  lemma DeleteKeepsClaimSide(s: Db, t: Db, item: Id)
    requires ClaimSide(s) && ItemDeleted(s, t, item)
    ensures ClaimSide(t)
  {
    hide Sum, HasActiveClaim, ClaimsRefer, ClaimsExclusive;
    DeleteKeepsClaimTables(s, t, item);
    forall i | i in t.items
      ensures t.items[i].qtyFulfilled == LiveQty(t, i)
      ensures RowFits(t.items[i], HasActiveClaim(t.claimItems, i))
    {
      OthersAfterDelete(s, t, item, i);
      assert RowFits(s.items[i], HasActiveClaim(s.claimItems, i));
    }
  }

  lemma DeleteKeepsOwedSide(s: Db, t: Db, item: Id)
    requires OwedSide(s) && ItemDeleted(s, t, item)
    ensures OwedSide(t)
  {
    forall i | i in t.items && t.items[i].status.Settled?
      ensures FullyPaid(t, i)
    {
      assert FullyPaid(s, i);
    }
  }

  lemma DeleteItemKeepsInv(s: Db, list: Id, item: Id)
    requires Inv(s) && DeleteItem(s, list, item).Ok?
    ensures Inv(DeleteItem(s, list, item).value)
  {
    hide ClaimSide, OwedSide, BindSide;
    var t := DeleteItem(s, list, item).value;
    DeleteKeepsClaimSide(s, t, item);
    DeleteKeepsOwedSide(s, t, item);
    BindSideKept(s, t);
  }

  // ── Tips ──────────────────────────────────────────────────────────────────

  /** Pending reimbursements may change their amounts; everything else about every
      reimbursement stays. */
  ghost predicate AmountsEdited(s: Db, t: Db) {
    && t.reimbursements.Keys == s.reimbursements.Keys
    && forall k | k in s.reimbursements ::
         && t.reimbursements[k].status == s.reimbursements[k].status
         && t.reimbursements[k].contract == s.reimbursements[k].contract
         && t.reimbursements[k].settledBy == s.reimbursements[k].settledBy
         && (s.reimbursements[k].status.Paid? ==> t.reimbursements[k] == s.reimbursements[k])
         && MoneyAddsUp(t.reimbursements[k])
  }

  lemma TipEditsAmounts(s: Db, caller: Caller, list: Id, pct: real)
    requires TotalsAddUp(s) && SetListTip(s, caller, list, pct).Ok?
    ensures AmountsEdited(s, SetListTip(s, caller, list, pct).value)
  {
    hide TipOf, TotalOf, HasLiveFulfillment;
    var t := SetListTip(s, caller, list, pct).value;
    forall k | k in s.reimbursements
      ensures MoneyAddsUp(t.reimbursements[k])
    {
      TotalIsSubtotalPlusTip(s.reimbursements[k].subtotal, pct);
    }
  }

  lemma AmountsKeepOwedSide(s: Db, t: Db)
    requires OwedSide(s) && AmountsEdited(s, t)
    requires t == s.(lists := t.lists, reimbursements := t.reimbursements)
    requires forall l | l in t.lists :: 0.0 <= t.lists[l].tipPct <= 1.0
    requires forall l | l in s.lists :: l in t.lists && t.lists[l].payerCorp == s.lists[l].payerCorp
    ensures OwedSide(t)
  {
    forall i | i in t.items && t.items[i].status.Settled?
      ensures FullyPaid(t, i)
    {
      assert FullyPaid(s, i);
    }
  }

  lemma AmountsKeepBindSide(s: Db, t: Db)
    requires BindSide(s) && AmountsEdited(s, t)
    requires t.suggestions == s.suggestions && t.contracts == s.contracts
    ensures BindSide(t)
  {
  }

  lemma SetListTipKeepsInv(s: Db, caller: Caller, list: Id, pct: real)
    requires Inv(s) && SetListTip(s, caller, list, pct).Ok?
    ensures Inv(SetListTip(s, caller, list, pct).value)
  {
    hide ClaimSide, BindSide, AmountsEdited, StoredTipPct, TipOf, TotalOf, HasLiveFulfillment,
         ItemsRefer, FulfillmentsRefer, ReimbursementsRefer, EveryPurchaseOwed, SettledIsPaid;
    var t := SetListTip(s, caller, list, pct).value;
    StoredTipInRange(pct);
    TipEditsAmounts(s, caller, list, pct);
    AmountsKeepOwedSide(s, t);
    AmountsKeepBindSide(s, t);
    ClaimSideKept(s, t);
  }
}
