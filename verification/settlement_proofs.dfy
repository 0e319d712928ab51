/** Settling and unbinding keep the invariant: an item only turns settled when every
    one of its live fulfilments is paid for. */
module SettlementProofs {
  import opened Domain
  import opened Sums
  import opened Database
  import opened Settlement
  import opened Invariant
  import opened RecomputeProofs

  // ── Frames ────────────────────────────────────────────────────────────────

  /** Lists may close, but keep their payer and their tip. */
  ghost predicate ListsKept(s: Db, t: Db) {
    && t.lists.Keys == s.lists.Keys
    && forall l | l in s.lists ::
         t.lists[l].payerCorp == s.lists[l].payerCorp && t.lists[l].tipPct == s.lists[l].tipPct
  }

  /** Full items may turn settled; nothing else about an item changes. */
  ghost predicate OnlyFlips(s: Db, t: Db) {
    && t.items.Keys == s.items.Keys
    && forall i | i in s.items ::
         || t.items[i] == s.items[i]
         || (s.items[i].status.Fulfilled() && t.items[i] == s.items[i].(status := Settled))
  }

  /** Reimbursements keep their amounts, and a settled one stays settled. */
  ghost predicate OnlyPays(s: Db, t: Db) {
    && t.reimbursements.Keys == s.reimbursements.Keys
    && forall k | k in s.reimbursements ::
         && t.reimbursements[k].subtotal == s.reimbursements[k].subtotal
         && t.reimbursements[k].tip == s.reimbursements[k].tip
         && t.reimbursements[k].total == s.reimbursements[k].total
         && (s.reimbursements[k].status.Paid? ==> t.reimbursements[k].status.Paid?)
  }

  ghost predicate SettleStep(s: Db, t: Db) {
    && ListsKept(s, t) && OnlyFlips(s, t) && OnlyPays(s, t)
    && t.claims == s.claims && t.claimItems == s.claimItems
    && t.fulfillments == s.fulfillments && t.nextFulfillment == s.nextFulfillment
  }

  lemma FlipsKeepClaimSide(s: Db, t: Db)
    requires ClaimSide(s) && SettleStep(s, t)
    ensures ClaimSide(t)
  {
    hide Sum, HasActiveClaim, OnlyPays, ClaimsRefer, ClaimsExclusive;
    forall i | i in t.items
      ensures t.items[i].qtyFulfilled == LiveQty(t, i)
      ensures RowFits(t.items[i], HasActiveClaim(t.claimItems, i))
    {
      assert RowFits(s.items[i], HasActiveClaim(s.claimItems, i));
      assert LiveQty(t, i) == LiveQty(s, i);
    }
    ClaimTablesKept(s, t);
  }

  lemma KeyKept(s: Db, t: Db, f: Fulfillment)
    requires SettleStep(s, t)
    requires f.item in s.items && s.items[f.item].list in s.lists
    ensures f.item in t.items && t.items[f.item].list in t.lists
    ensures PayingKey(t, f) == PayingKey(s, f) && (IsPaidFor(s, f) ==> IsPaidFor(t, f))
  {
  }

  lemma PaysKeepOwedSide(s: Db, t: Db)
    requires OwedSide(s) && SettleStep(s, t)
    requires forall i | i in s.items && t.items[i] != s.items[i] :: FullyPaid(t, i)
    ensures OwedSide(t)
  {
    hide SettleStep, FullyPaid;
    SettledAfterPays(s, t);
    TablesAfterPays(s, t);
  }

  lemma SettledAfterPays(s: Db, t: Db)
    requires SettledIsPaid(s) && SettleStep(s, t)
    requires forall i | i in s.items && t.items[i] != s.items[i] :: FullyPaid(t, i)
    ensures SettledIsPaid(t)
  {
  }

  lemma TablesAfterPays(s: Db, t: Db)
    requires OwedSide(s) && SettleStep(s, t)
    ensures ItemsRefer(t) && FulfillmentsRefer(t) && ReimbursementsRefer(t)
    ensures EveryPurchaseOwed(t) && TotalsAddUp(t)
  {
    hide SettledIsPaid;
    forall n | n in t.fulfillments && !t.fulfillments[n].reversed
      ensures t.fulfillments[n].item in t.items && t.items[t.fulfillments[n].item].list in t.lists
      ensures PayingKey(t, t.fulfillments[n]) in t.reimbursements
    {
      KeyKept(s, t, s.fulfillments[n]);
    }
  }

  // ── Why a flipped item is fully paid ──────────────────────────────────────

  /** The guards of the flips are enough: once `k` is settled and no other hauler of the
      same requester waits for the item, all of the item's live fulfilments are paid. */
  lemma GuardMeansPaid(s: Db, k: Key, i: Id)
    requires ReimbursementsRefer(s) && EveryPurchaseOwed(s)
    requires k in s.reimbursements && s.reimbursements[k].status.Paid?
    requires i in s.items && InScope(k, s.items[i])
    requires !OtherHaulerPending(s, k, i)
    ensures FullyPaid(s, i)
  {
  }

  // ── Manual settlement ─────────────────────────────────────────────────────

  lemma ManualIsSettleStep(s: Db, k: Key, user: Id)
    requires SettleManual(s, k, user).Ok?
    ensures SettleStep(s, SettleManual(s, k, user).value)
  {
    hide InScope, HasLiveBy, OtherHaulerPending, AllItemsSettled;
  }

  lemma ManualFlipsArePaid(s: Db, k: Key, user: Id, i: Id)
    requires OwedSide(s) && SettleManual(s, k, user).Ok? && i in s.items
    requires SettleManual(s, k, user).value.items[i] != s.items[i]
    ensures FullyPaid(SettleManual(s, k, user).value, i)
  {
    hide HasLiveBy, SettledIsPaid, TotalsAddUp, SettleStep, FullyPaid, OtherHaulerPending, AllItemsSettled, OwesDelivery;
    var paid := s.(reimbursements := s.reimbursements[k := s.reimbursements[k].(status := Paid, settledBy := Some(user))]);
    var t := SettleManual(s, k, user).value;
    assert FlipsManually(paid, k, i);
    assert EveryPurchaseOwed(paid);
    GuardMeansPaid(paid, k, i);
    FlipAndCloseKeepPaid(paid, t, i);
  }

  lemma FlipAndCloseKeepPaid(s: Db, t: Db, i: Id)
    requires ListsKept(s, t) && OnlyFlips(s, t)
    requires t.reimbursements == s.reimbursements && t.fulfillments == s.fulfillments
    requires FullyPaid(s, i)
    ensures FullyPaid(t, i)
  {
  }

  lemma ManualKeepsBindSide(s: Db, k: Key, user: Id)
    requires BindSide(s) && SettleManual(s, k, user).Ok? && s.reimbursements[k].contract.None?
    ensures BindSide(SettleManual(s, k, user).value)
  {
    hide OwesDelivery, FlipsManually, AllItemsSettled;
  }

  lemma SettleReimbursementKeepsInv(s: Db, caller: Caller, k: Key)
    requires Inv(s) && SettleReimbursement(s, caller, k).Ok?
    ensures Inv(SettleReimbursement(s, caller, k).value)
  {
    hide ClaimSide, OwedSide, BindSide, SettleManual, FullyPaid, OnlyPays, ListsKept;
    var t := SettleManual(s, k, caller.user).value;
    ManualIsSettleStep(s, k, caller.user);
    forall i | i in s.items && t.items[i] != s.items[i]
      ensures FullyPaid(t, i)
    {
      ManualFlipsArePaid(s, k, caller.user, i);
    }
    FlipsKeepClaimSide(s, t);
    PaysKeepOwedSide(s, t);
    ManualKeepsBindSide(s, k, caller.user);
  }

  // ── Settlement through a contract ─────────────────────────────────────────

  lemma AutoCloseKeeps(s: Db, lists: set<Id>)
    ensures ListsKept(s, AutoClose(s, lists))
    ensures AutoClose(s, lists) == s.(lists := AutoClose(s, lists).lists)
  {
  }

  lemma PayBoundPays(s: Db, contract: Id)
    ensures OnlyPays(s, PayBound(s, contract))
    ensures PayBound(s, contract) == s.(reimbursements := PayBound(s, contract).reimbursements)
  {
  }

  lemma FlipByContractFlips(s: Db, contract: Id)
    ensures OnlyFlips(s, FlipByContract(s, contract))
    ensures FlipByContract(s, contract) == s.(items := FlipByContract(s, contract).items)
  {
  }

  /** The states that a contract settlement runs through. */
  lemma ContractStages(s: Db, contract: Id)
    requires contract in s.contracts && AnyPendingBound(s, contract)
    ensures var paid := PayBound(s, contract);
            var t := SettleViaContract(s, contract).value;
            && SettleStep(s, t) && OnlyFlips(paid, t) && ListsKept(paid, t)
            && t.items == FlipByContract(paid, contract).items
            && t.reimbursements == paid.reimbursements && t.fulfillments == paid.fulfillments
            && paid == s.(reimbursements := paid.reimbursements)
            && t.suggestions == s.suggestions && t.contracts.Keys == s.contracts.Keys
  {
    hide PayBound, FlipByContract, AutoClose, AnyPendingBound, ListsBound;
    var paid := PayBound(s, contract);
    PayBoundPays(s, contract);
    FlipByContractFlips(paid, contract);
    AutoCloseKeeps(WriteDelta(FlipByContract(paid, contract), contract), ListsBound(s, contract));
  }

  lemma ContractIsSettleStep(s: Db, contract: Id)
    requires SettleViaContract(s, contract).Ok?
    ensures SettleStep(s, SettleViaContract(s, contract).value)
  {
    hide PayBound, FlipByContract, AutoClose;
    if AnyPendingBound(s, contract) {
      ContractStages(s, contract);
    }
  }

  lemma PayBoundKeepsRefs(s: Db, contract: Id)
    requires ReimbursementsRefer(s) && EveryPurchaseOwed(s)
    ensures ReimbursementsRefer(PayBound(s, contract)) && EveryPurchaseOwed(PayBound(s, contract))
    ensures forall k | BoundTo(PayBound(s, contract), k, contract) ::
              PayBound(s, contract).reimbursements[k].status.Paid?
  {
  }

  /** The guard of the contract path is stronger than the manual one. */
  lemma ContractGuardMeansPaid(s: Db, k: Key, i: Id)
    requires ReimbursementsRefer(s) && EveryPurchaseOwed(s)
    requires k in s.reimbursements && s.reimbursements[k].status.Paid?
    requires i in s.items && FlipsFor(s, k, i)
    ensures FullyPaid(s, i)
  {
  }

  lemma ContractFlipsArePaid(s: Db, contract: Id, i: Id)
    requires OwedSide(s) && SettleViaContract(s, contract).Ok? && i in s.items
    requires SettleViaContract(s, contract).value.items[i] != s.items[i]
    ensures FullyPaid(SettleViaContract(s, contract).value, i)
  {
    hide SettledIsPaid, TotalsAddUp, SettleStep, FullyPaid, FlipsFor, EveryPurchaseOwed,
         PayBound, SettleViaContract, OnlyFlips, ListsKept;
    NoPendingChangesNothing(s, contract);
    ContractStages(s, contract);
    var paid := PayBound(s, contract);
    assert FlipsByContract(paid, contract, i);
    var k :| k in paid.reimbursements && BoundTo(paid, k, contract) && FlipsFor(paid, k, i);
    PayBoundKeepsRefs(s, contract);
    ContractGuardMeansPaid(paid, k, i);
    FlipAndCloseKeepPaid(paid, SettleViaContract(s, contract).value, i);
  }

  lemma NoPendingChangesNothing(s: Db, contract: Id)
    requires SettleViaContract(s, contract).Ok?
    ensures contract in s.contracts
    ensures !AnyPendingBound(s, contract) ==> SettleViaContract(s, contract) == Ok(s)
  {
  }

  lemma ContractKeepsBindSide(s: Db, contract: Id)
    requires BindSide(s) && SettleViaContract(s, contract).Ok?
    ensures BindSide(SettleViaContract(s, contract).value)
  {
    hide FlipsByContract, AllItemsSettled, ListsBound, AnyPendingBound;
  }

  lemma SettleViaContractKeepsInv(s: Db, contract: Id)
    requires Inv(s) && SettleViaContract(s, contract).Ok?
    ensures Inv(SettleViaContract(s, contract).value)
  {
    hide ClaimSide, OwedSide, BindSide, SettleViaContract, FullyPaid, OnlyPays, ListsKept;
    var t := SettleViaContract(s, contract).value;
    ContractIsSettleStep(s, contract);
    forall i | i in s.items && t.items[i] != s.items[i]
      ensures FullyPaid(t, i)
    {
      ContractFlipsArePaid(s, contract, i);
    }
    FlipsKeepClaimSide(s, t);
    PaysKeepOwedSide(s, t);
    ContractKeepsBindSide(s, contract);
  }
}
