/** What every reachable database satisfies, whatever the handlers are called with. */
module Invariant {
  import opened Domain
  import opened Database

  // ── References ────────────────────────────────────────────────────────────

  ghost predicate ItemsRefer(s: Db) {
    forall i | i in s.items :: s.items[i].list in s.lists && s.items[i].qtyRequested > 0
  }

  ghost predicate ClaimsRefer(s: Db) {
    && (forall c | c in s.claims :: s.claims[c].list in s.lists)
    && (forall p | p in s.claimItems :: p.0 in s.claims && p.1 in s.items)
  }

  ghost predicate FulfillmentsRefer(s: Db) {
    forall n | n in s.fulfillments ::
      && n < s.nextFulfillment
      && s.fulfillments[n].item in s.items
      && s.fulfillments[n].qty > 0
      && s.fulfillments[n].unitPrice >= 0
  }

  /** A reimbursement's requester is the one that its list's payer implies. */
  predicate RequesterFits(payerCorp: Option<Id>, requester: Principal) {
    match payerCorp
    case None => requester.UserPrincipal?
    case Some(corp) => requester == CorpPrincipal(corp)
  }

  ghost predicate ReimbursementsRefer(s: Db) {
    forall k | k in s.reimbursements :: k.list in s.lists && RequesterFits(s.lists[k.list].payerCorp, k.requester)
  }

  ghost predicate ContractsRefer(s: Db) {
    && (forall k | k in s.reimbursements ::
          s.reimbursements[k].contract.Some? ==> s.reimbursements[k].contract.value in s.contracts)
    && (forall p | p in s.suggestions :: p.0 in s.contracts && p.1 in s.reimbursements)
  }

  // ── Claims and statuses ───────────────────────────────────────────────────

  /** `active` says exactly that the claim is active, and no two claims hold one item. */
  ghost predicate ClaimsExclusive(s: Db) {
    && (forall p | p in s.claimItems && p.0 in s.claims :: s.claimItems[p] <==> s.claims[p.0].status.Active?)
    && (forall p, q | p in s.claimItems && q in s.claimItems && s.claimItems[p] && s.claimItems[q] && p.1 == q.1 ::
          p == q)
  }

  /** An open item is not claimed, a claimed one is and is not full yet, and the later
      statuses are only reached by full items. */
  predicate RowFits(row: ItemRow, claimed: bool) {
    match row.status
    case Open => !claimed
    case Claimed => claimed && row.qtyFulfilled < row.qtyRequested
    case _ => row.qtyFulfilled >= row.qtyRequested
  }

  ghost predicate StatusesFit(s: Db) {
    forall i | i in s.items :: RowFits(s.items[i], HasActiveClaim(s.claimItems, i))
  }

  ghost predicate CacheIsLiveSum(s: Db) {
    forall i | i in s.items :: s.items[i].qtyFulfilled == LiveQty(s, i)
  }

  // ── Reimbursements ────────────────────────────────────────────────────────

  /** The reimbursement that pays for `f`. */
  function PayingKey(s: Db, f: Fulfillment): Key
    requires f.item in s.items && s.items[f.item].list in s.lists
  {
    KeyFor(s, s.items[f.item].list, s.items[f.item].requestedBy, f.hauler)
  }

  predicate IsPaidFor(s: Db, f: Fulfillment)
    requires f.item in s.items && s.items[f.item].list in s.lists
  {
    PayingKey(s, f) in s.reimbursements && s.reimbursements[PayingKey(s, f)].status.Paid?
  }

  ghost predicate EveryPurchaseOwed(s: Db) {
    forall n | n in s.fulfillments && !s.fulfillments[n].reversed ::
      && s.fulfillments[n].item in s.items
      && s.items[s.fulfillments[n].item].list in s.lists
      && PayingKey(s, s.fulfillments[n]) in s.reimbursements
  }

  /** Every live fulfilment of `item` has a settled reimbursement. */
  ghost predicate FullyPaid(s: Db, item: Id) {
    forall n | n in s.fulfillments && IsLiveOn(s.fulfillments[n], item) ::
      item in s.items && s.items[item].list in s.lists && IsPaidFor(s, s.fulfillments[n])
  }

  ghost predicate SettledIsPaid(s: Db) {
    forall i | i in s.items && s.items[i].status.Settled? :: FullyPaid(s, i)
  }

  predicate MoneyAddsUp(r: Reimbursement) {
    && r.subtotal >= 0
    && r.tip >= 0
    && r.total == r.subtotal + r.tip
  }

  ghost predicate TotalsAddUp(s: Db) {
    && (forall k | k in s.reimbursements :: MoneyAddsUp(s.reimbursements[k]))
    && (forall l | l in s.lists :: 0.0 <= s.lists[l].tipPct <= 1.0)
  }

  // ── Binding to contracts ──────────────────────────────────────────────────

  predicate IsConfirmed(s: Db, contract: Id, k: Key) {
    (contract, k) in s.suggestions && s.suggestions[(contract, k)].Confirmed?
  }

  ghost predicate OneConfirmedPerReimbursement(s: Db) {
    forall p, q | p in s.suggestions && q in s.suggestions && p.1 == q.1
                  && s.suggestions[p].Confirmed? && s.suggestions[q].Confirmed? :: p == q
  }

  /** A pending reimbursement is bound only to a contract confirmed for it; a settled one
      was settled either through its contract or by a user, never both, never neither. */
  predicate BindingFits(s: Db, k: Key)
    requires k in s.reimbursements
  {
    var r := s.reimbursements[k];
    match r.status
    case Pending => r.settledBy.None? && (r.contract.Some? ==> IsConfirmed(s, r.contract.value, k))
    case Paid => r.contract.Some? <==> r.settledBy.None?
  }

  ghost predicate BindingsFit(s: Db) {
    forall k | k in s.reimbursements :: BindingFits(s, k)
  }

  // ── Together ──────────────────────────────────────────────────────────────

  ghost predicate ClaimSide(s: Db) {
    && ClaimsRefer(s)
    && ClaimsExclusive(s)
    && StatusesFit(s)
    && CacheIsLiveSum(s)
  }

  ghost predicate OwedSide(s: Db) {
    && ItemsRefer(s)
    && FulfillmentsRefer(s)
    && ReimbursementsRefer(s)
    && EveryPurchaseOwed(s)
    && SettledIsPaid(s)
    && TotalsAddUp(s)
  }

  ghost predicate BindSide(s: Db) {
    && ContractsRefer(s)
    && OneConfirmedPerReimbursement(s)
    && BindingsFit(s)
  }

  ghost predicate Inv(s: Db) {
    ClaimSide(s) && OwedSide(s) && BindSide(s)
  }
}
