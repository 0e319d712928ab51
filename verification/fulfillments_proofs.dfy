/** Recording, reversing and delivering keep the invariant. */
module FulfillmentsProofs {
  import opened Domain
  import opened Sums
  import opened Money
  import opened Database
  import opened Recompute
  import opened Fulfillments
  import opened Invariant
  import opened RecomputeProofs
  import ClaimsProofs

  // ── Live sums after one row changed ───────────────────────────────────────

  /** Only row `j` differs between the fulfilments of `s` and `t`; it may be new. */
  ghost predicate RowWritten(s: Db, t: Db, j: nat) {
    && t.fulfillments.Keys == s.fulfillments.Keys + {j}
    && (forall n | n in s.fulfillments && n != j :: t.fulfillments[n] == s.fulfillments[n])
    && j <= s.nextFulfillment
    && t.nextFulfillment == (if j == s.nextFulfillment then j + 1 else s.nextFulfillment)
    && (j == s.nextFulfillment ==> j !in s.fulfillments)
  }

  lemma LiveQtyElsewhere(s: Db, t: Db, j: nat, i: Id)
    requires RowWritten(s, t, j)
    requires t.fulfillments[j].item != i
    requires j in s.fulfillments ==> s.fulfillments[j].item != i
    ensures LiveQty(t, i) == LiveQty(s, i)
  {
    SumOfEqual(s.nextFulfillment, QtyAt(s.fulfillments, i), QtyAt(t.fulfillments, i));
  }

  // ── The claim side ────────────────────────────────────────────────────────

  lemma RecomputedRowFits(row: ItemRow, qty: int, claimed: bool, demotion: Demotion)
    requires !row.status.Settled?
    requires row.status.Delivered? ==> demotion.Allow?
    ensures RowFits(RowAfter(row, qty, claimed, demotion), claimed)
    ensures RowAfter(row, qty, claimed, demotion).qtyFulfilled == qty
    ensures !RowAfter(row, qty, claimed, demotion).status.Settled?
  {
  }

  /** `t` is `s` with fulfilment `j` written and nothing else. */
  ghost predicate OnlyRowWritten(s: Db, t: Db, j: nat) {
    && RowWritten(s, t, j)
    && j in t.fulfillments
    && t == s.(fulfillments := t.fulfillments, nextFulfillment := t.nextFulfillment)
    && t.fulfillments[j].item in s.items
    && (j in s.fulfillments ==> s.fulfillments[j].item == t.fulfillments[j].item)
  }

  /** The item may be recomputed: no early return applies. */
  predicate Recomputes(row: ItemRow, demotion: Demotion) {
    !row.status.Settled? && (row.status.Delivered? ==> demotion.Allow?)
  }

  lemma WriteKeepsItem(s: Db, t: Db, j: nat, demotion: Demotion, i: Id)
    requires OnlyRowWritten(s, t, j) && i in s.items
    requires s.items[i].qtyFulfilled == LiveQty(s, i)
    requires RowFits(s.items[i], HasActiveClaim(s.claimItems, i))
    requires Recomputes(s.items[t.fulfillments[j].item], demotion)
    ensures var row := RecomputeItem(t, t.fulfillments[j].item, demotion).items[i];
            RowFits(row, HasActiveClaim(s.claimItems, i)) && row.qtyFulfilled == LiveQty(t, i)
  {
    hide Sum, HasActiveClaim;
    if i == t.fulfillments[j].item {
      RecomputedRowFits(s.items[i], LiveQty(t, i), HasActiveClaim(t.claimItems, i), demotion);
    } else {
      LiveQtyElsewhere(s, t, j, i);
    }
  }

  lemma WriteKeepsClaimSide(s: Db, t: Db, j: nat, demotion: Demotion)
    requires ClaimSide(s) && OnlyRowWritten(s, t, j)
    requires Recomputes(s.items[t.fulfillments[j].item], demotion)
    ensures ClaimSide(RecomputeItem(t, t.fulfillments[j].item, demotion))
  {
    hide Sum, HasActiveClaim, RowWritten, RecomputedRow, ClaimsRefer, ClaimsExclusive;
    var u := RecomputeItem(t, t.fulfillments[j].item, demotion);
    forall i | i in u.items
      ensures u.items[i].qtyFulfilled == LiveQty(u, i)
      ensures RowFits(u.items[i], HasActiveClaim(u.claimItems, i))
    {
      WriteKeepsItem(s, t, j, demotion, i);
    }
    ClaimTablesKept(s, u);
  }

  lemma RecomputeSettlesNothing(s: Db, item: Id, demotion: Demotion)
    requires item in s.items
    ensures var u := RecomputeItem(s, item, demotion);
            && SameItems(s, u) && SettlesNothing(s, u)
            && u == s.(items := u.items)
            && (Recomputes(s.items[item], demotion) ==> !u.items[item].status.Settled?)
  {
  }

  lemma CompletionKeepsClaimSide(s: Db, claim: Option<Id>, item: Id)
    requires ClaimSide(s) && item in s.items
    ensures var t := CompleteClaimIfDone(s, claim, item);
            ClaimSide(t) && t == s.(claims := t.claims, claimItems := t.claimItems)
  {
    hide Sum, CacheIsLiveSum, StatusesFit;
    var t := CompleteClaimIfDone(s, claim, item);
    if t != s {
      forall i | i in s.items
        ensures s.items[i].status.Fulfilled() || HasActiveClaim(t.claimItems, i) == HasActiveClaim(s.claimItems, i)
      {
        if (claim.value, i) in s.claimItems {
          assert s.items[i].status.Fulfilled();
        } else {
          ClaimsProofs.StatusChangeKeepsOthers(s, claim.value, Completed, i);
        }
      }
      SameRows(RecomputeBulk(t, {}).items, t.items);
      ClaimsProofs.ClaimChangeKeepsRows(s, t, {});
      ClaimsProofs.ClaimChangeKeepsStatuses(s, t, {});
    }
  }

  // ── The owed side ─────────────────────────────────────────────────────────

  /** One reimbursement row was rewritten and is still pending. */
  ghost predicate PendingWritten(s: Db, t: Db, k: Key) {
    && (k in s.reimbursements ==> s.reimbursements[k].status.Pending?)
    && k in t.reimbursements
    && t.reimbursements == s.reimbursements[k := t.reimbursements[k]]
    && t.reimbursements[k].status.Pending?
    && MoneyAddsUp(t.reimbursements[k])
  }

  lemma PaidAfterWrite(s: Db, t: Db, k: Key, f: Fulfillment)
    requires t.lists == s.lists && SameItems(s, t) && PendingWritten(s, t, k)
    requires f.item in s.items && s.items[f.item].list in s.lists
    ensures PayingKey(t, f) == PayingKey(s, f) && (IsPaidFor(t, f) <==> IsPaidFor(s, f))
  {
  }

  lemma OwedAfterWrite(s: Db, t: Db, k: Key, j: nat)
    requires OwedSide(s) && RowWritten(s, t, j)
    requires t.lists == s.lists && SameItems(s, t) && SettlesNothing(s, t) && PendingWritten(s, t, k)
    requires t.fulfillments[j].item in s.items && k == PayingKey(s, t.fulfillments[j])
    requires t.fulfillments[j].qty > 0 && t.fulfillments[j].unitPrice >= 0
    requires !t.fulfillments[j].reversed ==> !t.items[t.fulfillments[j].item].status.Settled?
    ensures OwedSide(t)
  {
    hide TotalsAddUp;
    forall i, n | i in t.items && t.items[i].status.Settled? && n in t.fulfillments && IsLiveOn(t.fulfillments[n], i)
      ensures t.items[i].list in t.lists && IsPaidFor(t, t.fulfillments[n])
    {
      assert FullyPaid(s, i);
      assert n != j;
      PaidAfterWrite(s, t, k, s.fulfillments[n]);
    }
    assert SettledIsPaid(t);
    TotalsAfterWrite(s, t, k);
  }

  lemma TotalsAfterWrite(s: Db, t: Db, k: Key)
    requires TotalsAddUp(s) && t.lists == s.lists && PendingWritten(s, t, k)
    ensures TotalsAddUp(t)
  {
  }

  lemma CoveredCostNonNegative(s: Db, k: Key)
    requires FulfillmentsRefer(s)
    ensures CoveredCost(s, k) >= 0
  {
    SumZeroIffAllZero(s.nextFulfillment, CoveredCostAt(s, k));
  }

  lemma UpsertWritesPending(s: Db, k: Key)
    requires k.list in s.lists && FulfillmentsRefer(s)
    requires 0.0 <= s.lists[k.list].tipPct
    requires k in s.reimbursements ==> s.reimbursements[k].status.Pending?
    ensures PendingWritten(s, UpsertReimbursement(s, k), k)
    ensures var t := UpsertReimbursement(s, k); t == s.(reimbursements := t.reimbursements)
  {
    hide Sum;
    CoveredCostNonNegative(s, k);
    TotalIsSubtotalPlusTip(CoveredCost(s, k), s.lists[k.list].tipPct);
  }

  lemma UpsertKeepsBindSide(s: Db, k: Key)
    requires BindSide(s) && k.list in s.lists
    ensures BindSide(UpsertReimbursement(s, k))
  {
  }

  // ── The handlers ──────────────────────────────────────────────────────────

  /** What the reimbursement is computed from: after the purchase is inserted, the item
      recomputed and the claim completed, the claim side holds and no debt changed. */
  ghost predicate Prepared(s: Db, u: Db, j: nat, f: Fulfillment) {
    && ClaimSide(u)
    && RowWritten(s, u, j) && u.fulfillments[j] == f
    && SameItems(s, u) && SettlesNothing(s, u)
    && u == s.(items := u.items, claims := u.claims, claimItems := u.claimItems,
               fulfillments := u.fulfillments, nextFulfillment := u.nextFulfillment)
    && f.item in u.items && !u.items[f.item].status.Settled?
  }

  lemma PurchaseIsPrepared(s: Db, f: Fulfillment)
    requires ClaimSide(s) && FulfillmentsRefer(s) && f.item in s.items
    requires s.items[f.item].qtyFulfilled < s.items[f.item].qtyRequested
    ensures var u := CompleteClaimIfDone(RecomputeItem(InsertFulfillment(s, f), f.item, Forbid), f.claim, f.item);
            Prepared(s, u, s.nextFulfillment, f)
  {
    hide Sum, HasActiveClaim, CacheIsLiveSum, RecomputeItem, CompleteClaimIfDone, ClaimsRefer, ClaimsExclusive;
    var j := s.nextFulfillment;
    var s1 := InsertFulfillment(s, f);
    assert OnlyRowWritten(s, s1, j);
    assert RowFits(s.items[f.item], HasActiveClaim(s.claimItems, f.item));
    WriteKeepsClaimSide(s, s1, j, Forbid);
    RecomputeSettlesNothing(s1, f.item, Forbid);
    CompletionKeepsClaimSide(RecomputeItem(s1, f.item, Forbid), f.claim, f.item);
  }

  lemma ReversalIsPrepared(s: Db, j: nat)
    requires ClaimSide(s) && FulfillmentsRefer(s) && j in s.fulfillments && s.fulfillments[j].item in s.items
    requires !s.items[s.fulfillments[j].item].status.Settled?
    ensures var f := s.fulfillments[j].(reversed := true);
            var u := RecomputeItem(s.(fulfillments := s.fulfillments[j := f]), f.item, Allow);
            Prepared(s, u, j, f)
  {
    hide Sum, HasActiveClaim, CacheIsLiveSum, RecomputeItem, ClaimSide;
    var f := s.fulfillments[j].(reversed := true);
    var s1 := s.(fulfillments := s.fulfillments[j := f]);
    assert OnlyRowWritten(s, s1, j);
    WriteKeepsClaimSide(s, s1, j, Allow);
    RecomputeSettlesNothing(s1, f.item, Allow);
  }

  lemma PreparedUpsertKeepsInv(s: Db, u: Db, j: nat, f: Fulfillment, k: Key)
    requires OwedSide(s) && BindSide(s) && Prepared(s, u, j, f)
    requires f.qty > 0 && f.unitPrice >= 0
    requires s.items[f.item].list in s.lists && k == PayingKey(s, f)
    requires k in s.reimbursements ==> s.reimbursements[k].status.Pending?
    ensures Inv(UpsertReimbursement(u, k))
  {
    hide Sum, ClaimSide, BindSide, UpsertReimbursement, EveryPurchaseOwed, SettledIsPaid;
    UpsertWritesPending(u, k);
    var t := UpsertReimbursement(u, k);
    OwedAfterWrite(s, t, k, j);
    BindSideKept(s, u);
    UpsertKeepsBindSide(u, k);
    ClaimSideKept(u, t);
  }

  lemma RecordBoughtKeepsInv(s: Db, k: Key, item: Id, f: Fulfillment)
    requires Inv(s) && item in s.items && s.items[item].list in s.lists
    requires f.item == item && !f.reversed && f.qty > 0 && f.unitPrice >= 0
    requires f.qty + s.items[item].qtyFulfilled <= s.items[item].qtyRequested
    requires k == PayingKey(s, f)
    requires k in s.reimbursements ==> s.reimbursements[k].status.Pending?
    ensures Inv(RecordBought(s, k, item, f))
  {
    hide Sum, Prepared, ClaimSide, BindSide, CompleteClaimIfDone, UpsertReimbursement;
    PurchaseIsPrepared(s, f);
    var u := CompleteClaimIfDone(RecomputeItem(InsertFulfillment(s, f), item, Forbid), f.claim, item);
    PreparedUpsertKeepsInv(s, u, s.nextFulfillment, f, k);
  }

  lemma RecordFulfillmentKeepsInv(s: Db, caller: Caller, list: Id, item: Id, p: Purchase)
    requires Inv(s) && RecordFulfillment(s, caller, list, item, p).Ok?
    ensures Inv(RecordFulfillment(s, caller, list, item, p).value)
  {
    hide Inv, RecordBought;
    var k := RecordChecks(s, caller, list, item, p).value;
    RecordBoughtKeepsInv(s, k, item,
      Fulfillment(item, ActiveClaimOf(s, item), caller.user, p.qty, ToCents(p.unitPriceIsk), false));
  }

  /** A settled item has only paid fulfilments, so an unpaid one is not on it. */
  lemma UnpaidIsNotSettled(s: Db, n: nat)
    requires SettledIsPaid(s) && n in s.fulfillments && !s.fulfillments[n].reversed
    requires s.fulfillments[n].item in s.items && s.items[s.fulfillments[n].item].list in s.lists
    requires !IsPaidFor(s, s.fulfillments[n])
    ensures !s.items[s.fulfillments[n].item].status.Settled?
  {
  }

  lemma ReversePurchaseKeepsInv(s: Db, k: Key, n: nat)
    requires Inv(s) && n in s.fulfillments && !s.fulfillments[n].reversed
    requires s.fulfillments[n].item in s.items && s.items[s.fulfillments[n].item].list in s.lists
    requires k == PayingKey(s, s.fulfillments[n])
    requires k in s.reimbursements ==> s.reimbursements[k].status.Pending?
    ensures Inv(ReversePurchase(s, k, n))
  {
    hide Prepared, ClaimSide, BindSide, RecomputeItem, UpsertReimbursement, SettledIsPaid;
    UnpaidIsNotSettled(s, n);
    ReversalIsPrepared(s, n);
    var f := s.fulfillments[n].(reversed := true);
    var u := RecomputeItem(s.(fulfillments := s.fulfillments[n := f]), f.item, Allow);
    assert PayingKey(s, f) == k;
    PreparedUpsertKeepsInv(s, u, n, f, k);
  }

  lemma ReverseFulfillmentKeepsInv(s: Db, caller: Caller, n: nat)
    requires Inv(s) && ReverseFulfillment(s, caller, n).Ok?
    ensures Inv(ReverseFulfillment(s, caller, n).value)
  {
    hide Inv, ReversePurchase;
    var f := s.fulfillments[n];
    ReversePurchaseKeepsInv(s, PayingKey(s, f), n);
  }

  lemma DeliveredFits(s: Db, item: Id)
    requires ClaimSide(s) && item in s.items && s.items[item].status.Bought?
    ensures ClaimSide(s.(items := s.items[item := s.items[item].(status := Delivered)]))
  {
    hide Sum, HasActiveClaim, ClaimsRefer, ClaimsExclusive;
    var t := s.(items := s.items[item := s.items[item].(status := Delivered)]);
    ClaimTablesKept(s, t);
    forall i | i in t.items
      ensures t.items[i].qtyFulfilled == LiveQty(t, i)
      ensures RowFits(t.items[i], HasActiveClaim(t.claimItems, i))
    {
      assert RowFits(s.items[i], HasActiveClaim(s.claimItems, i));
      assert LiveQty(t, i) == LiveQty(s, i);
    }
  }

  lemma MarkDeliveredKeepsInv(s: Db, caller: Caller, list: Id, item: Id, lastHauler: bool)
    requires Inv(s) && MarkDelivered(s, caller, list, item, lastHauler).Ok?
    ensures Inv(MarkDelivered(s, caller, list, item, lastHauler).value)
  {
    hide ClaimSide, OwedSide, BindSide;
    var t := MarkDelivered(s, caller, list, item, lastHauler).value;
    DeliveredFits(s, item);
    OwedSideKept(s, t);
    BindSideKept(s, t);
  }
}
