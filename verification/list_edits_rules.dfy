/** Who may edit lists, items and tips, and what these edits write, in terms of the columns alone. */
module ListEditsRules {
  import opened Domain
  import opened Money
  import opened Database
  import opened ListEdits
  import opened Invariant

  // ── Lists ─────────────────────────────────────────────────────────────────

  /** A new list is open, paid for by its users, and stores the rate nearest to the one asked for. */
  lemma CreateListRule(s: Db, list: Id, createdBy: Id, tipPct: real)
    ensures CreateList(s, list, createdBy, tipPct).Ok? <==> list !in s.lists && 0.0 <= tipPct <= 1.0
    ensures CreateList(s, list, createdBy, tipPct).Ok? ==>
              var t := CreateList(s, list, createdBy, tipPct).value;
              && list in t.lists && t == s.(lists := s.lists[list := t.lists[list]])
              && IsNearestRate(t.lists[list].tipPct, tipPct)
              && t.lists[list] == ListRow(ListOpen, t.lists[list].tipPct, None, createdBy)
  {
    hide StoredTipPct, IsNearestRate;
    if tipPct >= 0.0 {
      StoredIsNearest(tipPct);
    }
  }

  /** A list's creator or an owner may open, close and archive it, which changes its status only. */
  lemma SetListStatusRule(s: Db, caller: Caller, list: Id, status: ListStatus)
    ensures SetListStatus(s, caller, list, status).Ok? <==>
            list in s.lists && (caller.owner || caller.user == s.lists[list].createdBy)
    ensures SetListStatus(s, caller, list, status).Ok? ==>
              SetListStatus(s, caller, list, status).value == s.(lists := s.lists[list := s.lists[list].(status := status)])
  {
  }

  /** An owner may change who pays, to a linked corporation or back to the users, until the first
      reimbursement of the list exists. */
  lemma PatchListPayerRule(s: Db, caller: Caller, list: Id, payer: Option<Id>, corpLinked: bool)
    ensures PatchListPayer(s, caller, list, payer, corpLinked).Ok? <==>
            && list in s.lists && caller.owner && (payer.Some? ==> corpLinked)
            && forall k | k in s.reimbursements :: k.list != list
    ensures PatchListPayer(s, caller, list, payer, corpLinked).Ok? ==>
              PatchListPayer(s, caller, list, payer, corpLinked).value
              == s.(lists := s.lists[list := s.lists[list].(payerCorp := payer)])
  {
  }

  // ── Items ─────────────────────────────────────────────────────────────────

  /** A member may ask for a positive quantity on an open list; the item starts open and empty. */
  lemma AddItemRule(s: Db, caller: Caller, list: Id, newItem: Id, qty: int)
    ensures AddItem(s, caller, list, newItem, qty).Ok? <==>
            list in s.lists && s.lists[list].status == ListOpen && qty > 0 && newItem !in s.items
    ensures AddItem(s, caller, list, newItem, qty).Ok? ==>
              AddItem(s, caller, list, newItem, qty).value
              == s.(items := s.items[newItem := ItemRow(list, caller.user, qty, 0, Open)])
  {
  }

  /** An open item of a list that is not archived. */
  predicate Editable(s: Db, list: Id, item: Id) {
    && list in s.lists && !s.lists[list].status.ListArchived?
    && item in s.items && s.items[item].list == list && s.items[item].status == Open
  }

  /** An editable item may be patched to any positive quantity, which changes nothing else. */
  lemma PatchItemRule(s: Db, list: Id, item: Id, qty: int)
    ensures PatchItem(s, list, item, qty).Ok? <==> Editable(s, list, item) && qty > 0
    ensures PatchItem(s, list, item, qty).Ok? ==>
              PatchItem(s, list, item, qty).value == s.(items := s.items[item := s.items[item].(qtyRequested := qty)])
  {
  }

  /** An editable item may be deleted; its fulfilments and claim rows go with it, and only these. */
  lemma DeleteItemRule(s: Db, list: Id, item: Id)
    ensures DeleteItem(s, list, item).Ok? <==> Editable(s, list, item)
    ensures DeleteItem(s, list, item).Ok? ==>
              var t := DeleteItem(s, list, item).value;
              && t == s.(items := s.items - {item}, claimItems := t.claimItems, fulfillments := t.fulfillments)
              && (forall p :: p in t.claimItems <==> p in s.claimItems && p.1 != item)
              && (forall p | p in t.claimItems :: t.claimItems[p] == s.claimItems[p])
              && (forall n :: n in t.fulfillments <==> n in s.fulfillments && s.fulfillments[n].item != item)
              && (forall n | n in t.fulfillments :: t.fulfillments[n] == s.fulfillments[n])
  {
  }

  // ── Tips ──────────────────────────────────────────────────────────────────

  /** Somebody has bought for the list and not reversed it. */
  ghost predicate AnythingBought(s: Db, list: Id) {
    exists n | n in s.fulfillments ::
      !s.fulfillments[n].reversed && s.fulfillments[n].item in s.items && s.items[s.fulfillments[n].item].list == list
  }

  /** The tip of a list that is not archived may be set by an owner, or by its creator until
      something is bought for it. */
  lemma SetListTipSucceedsIff(s: Db, caller: Caller, list: Id, pct: real)
    ensures SetListTip(s, caller, list, pct).Ok? <==>
            && list in s.lists && !s.lists[list].status.ListArchived? && 0.0 <= pct <= 1.0
            && (caller.owner || (caller.user == s.lists[list].createdBy && !AnythingBought(s, list)))
    ensures list in s.lists && !s.lists[list].status.ListArchived? && 0.0 <= pct <= 1.0
            && !caller.owner && caller.user != s.lists[list].createdBy ==>
              SetListTip(s, caller, list, pct) == Err(Forbidden)
  {
    assert HasLiveFulfillment(s, list) <==> AnythingBought(s, list);
  }

  /** It stores the nearest rate with four decimals, and every pending reimbursement of the list
      gets the tip of the submitted rate to the nearest cent; all other rows stay. */
  lemma SetListTipWrites(s: Db, caller: Caller, list: Id, pct: real)
    requires TotalsAddUp(s) && SetListTip(s, caller, list, pct).Ok?
    ensures var t := SetListTip(s, caller, list, pct).value;
            && list in s.lists && list in t.lists && IsNearestRate(t.lists[list].tipPct, pct)
            && t == s.(lists := s.lists[list := s.lists[list].(tipPct := t.lists[list].tipPct)], reimbursements := t.reimbursements)
            && t.reimbursements.Keys == s.reimbursements.Keys
            && forall k | k in s.reimbursements ::
                 var was, r := s.reimbursements[k], t.reimbursements[k];
                 if k.list == list && was.status.Pending?
                 then AmountsAtRate(was.subtotal, r.tip, r.total, pct) && r == was.(tip := r.tip, total := r.total)
                 else r == was
  {
    hide StoredTipPct, IsNearestRate, TipOf, TotalOf, AmountsAtRate, HasLiveFulfillment;
    StoredIsNearest(pct);
    forall k | k in s.reimbursements
      ensures AmountsAtRate(s.reimbursements[k].subtotal, TipOf(s.reimbursements[k].subtotal, pct),
                            TotalOf(s.reimbursements[k].subtotal, pct), pct)
    {
      AmountsAreAtRate(s.reimbursements[k].subtotal, pct);
    }
  }
}
