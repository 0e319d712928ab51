/** Every refused call is refused for a reason that holds: what each error class says about the
    tables and the request. */
module Refusals {
  import opened Domain
  import opened Sums
  import opened Database
  import opened Recompute
  import opened Claims
  import opened Fulfillments
  import opened Settlement
  import opened Contracts
  import opened ListEdits
  import opened Invariant
  import opened ClaimsProofs
  import opened Runs
  import opened FulfillmentsRules
  import opened SettlementRules
  import opened ContractsRules
  import opened ListEditsRules

  predicate IsArchived(s: Db, list: Id) {
    list in s.lists && s.lists[list].status == ListArchived
  }

  predicate IsOn(s: Db, list: Id, item: Id) {
    list in s.lists && item in s.items && s.items[item].list == list
  }

  ghost predicate ClaimReason(s: Db, caller: Caller, claim: Id, e: Error) {
    match e
    case NotFound => claim !in s.claims
    case Conflict => claim in s.claims && (IsArchived(s, s.claims[claim].list) || s.claims[claim].status != Active)
    case Forbidden => claim in s.claims && s.claims[claim].hauler != caller.user && !caller.owner
    case _ => false
  }

  ghost predicate ItemsReason(s: Db, list: Id, ids: seq<Id>, e: Error) {
    match e
    case BadRequest => ids == [] || !Distinct(ids) || exists i | i in ids :: !IsOn(s, list, i)
    case Conflict => exists i | i in ids :: IsOn(s, list, i) && s.items[i].status != Open
    case _ => false
  }

  ghost predicate PurchaseReason(s: Db, caller: Caller, list: Id, item: Id, p: Purchase, e: Error) {
    match e
    case NotFound => !IsOn(s, list, item)
    case BadRequest =>
      || !(0 < p.qty <= 10_000_000) || p.unitPriceIsk < 0.0 || !p.placeGiven || !p.placeValid
      || exists c :: (c, item) in s.claimItems && s.claimItems[(c, item)] && p.claim.Some? && p.claim != Some(c)
    case Conflict =>
      || IsArchived(s, list)
      || (IsOn(s, list, item) && LiveQty(s, item) + p.qty > s.items[item].qtyRequested)
      || (IsOn(s, list, item) && IsSettled(s, DebtFor(s, item, caller.user)))
    case Forbidden =>
      && !caller.owner
      && exists c | c in s.claims :: (c, item) in s.claimItems && s.claimItems[(c, item)] && s.claims[c].hauler != caller.user
    case Internal => false
  }

  ghost predicate ReversalReason(s: Db, caller: Caller, n: nat, e: Error) {
    match e
    case NotFound => n !in s.fulfillments
    case BadRequest => n in s.fulfillments && s.fulfillments[n].reversed
    case Conflict =>
      && n in s.fulfillments && s.fulfillments[n].item in s.items && s.items[s.fulfillments[n].item].list in s.lists
      && (IsArchived(s, s.items[s.fulfillments[n].item].list)
          || IsSettled(s, DebtFor(s, s.fulfillments[n].item, s.fulfillments[n].hauler)))
    case Forbidden => n in s.fulfillments && s.fulfillments[n].hauler != caller.user && !caller.owner
    case Internal => false
  }

  ghost predicate LinkReason(s: Db, user: Id, member: bool, contract: Id, k: Key, e: Error) {
    match e
    case NotFound => contract !in s.contracts || k !in s.reimbursements
    case Conflict =>
      && contract in s.contracts && k in s.reimbursements
      && (!MayBind(s.contracts[contract], k, s.reimbursements[k])
          || exists c :: c != contract && (c, k) in s.suggestions && s.suggestions[(c, k)] == Confirmed)
    case Forbidden =>
      || user != k.hauler || !member
      || (contract in s.contracts && s.contracts[contract].issuerUser.Some? && s.contracts[contract].issuerUser != Some(user))
    case _ => false
  }

  ghost predicate EditReason(s: Db, list: Id, item: Id, e: Error) {
    match e
    case NotFound => !IsOn(s, list, item)
    case Conflict => IsArchived(s, list) || (IsOn(s, list, item) && s.items[item].status != Open)
    case _ => false
  }

  ghost predicate Reason(s: Db, step: Step, e: Error) {
    match step
    case DoCreateList(list, _, pct) =>
      (e == BadRequest && !(0.0 <= pct <= 1.0)) || (e == Internal && list in s.lists)
    case DoSetListStatus(caller, list, _) =>
      || (e == NotFound && list !in s.lists)
      || (e == Forbidden && list in s.lists && !caller.owner && caller.user != s.lists[list].createdBy)
    case DoPatchListPayer(caller, list, payer, linked) =>
      || (e == Forbidden && (list !in s.lists || !caller.owner))
      || (e == Conflict && exists k | k in s.reimbursements :: k.list == list)
      || (e == NotFound && payer.Some? && !linked)
    case DoSetListTip(caller, list, pct) =>
      || (e == NotFound && list !in s.lists)
      || (e == Conflict && IsArchived(s, list))
      || (e == BadRequest && !(0.0 <= pct <= 1.0))
      || (e == Forbidden && list in s.lists && !caller.owner
          && (caller.user != s.lists[list].createdBy || AnythingBought(s, list)))
    case DoAddItem(_, list, newItem, qty) =>
      || (e == NotFound && list !in s.lists)
      || (e == Conflict && list in s.lists && s.lists[list].status != ListOpen)
      || (e == BadRequest && qty <= 0)
      || (e == Internal && newItem in s.items)
    case DoPatchItem(list, item, qty) => EditReason(s, list, item, e) || (e == BadRequest && qty <= 0)
    case DoDeleteItem(list, item) => EditReason(s, list, item, e)
    case DoCreateClaim(_, list, ids, newClaim) =>
      || (e == NotFound && list !in s.lists)
      || (e == Conflict && list in s.lists && s.lists[list].status != ListOpen)
      || (list in s.lists && ItemsReason(s, list, ids, e))
      || (e == Internal && newClaim in s.claims)
    case DoAddClaimItems(caller, claim, ids) =>
      ClaimReason(s, caller, claim, e) || (claim in s.claims && ItemsReason(s, s.claims[claim].list, ids, e))
    case DoRemoveClaimItem(caller, claim, item) =>
      ClaimReason(s, caller, claim, e) || (e == NotFound && (claim, item) !in s.claimItems)
    case DoReleaseClaim(caller, claim) => ClaimReason(s, caller, claim, e)
    case DoRecord(caller, list, item, p) => PurchaseReason(s, caller, list, item, p, e)
    case DoReverse(caller, n) => ReversalReason(s, caller, n, e)
    case DoMarkDelivered(caller, list, item, lastHauler) =>
      || (e == NotFound && !IsOn(s, list, item))
      || (e == Conflict && IsArchived(s, list))
      || (e == BadRequest && IsOn(s, list, item) && s.items[item].status != Bought)
      || (e == Forbidden && !lastHauler && !caller.owner)
    case DoSettle(caller, k) =>
      || (e == NotFound && k !in s.reimbursements)
      || (e == Conflict && k in s.reimbursements
          && (s.reimbursements[k].status == Paid || s.reimbursements[k].contract.Some? || StillToDeliver(s, k)))
      || (e == Forbidden && !caller.owner && k.requester != UserPrincipal(caller.user))
    case DoConfirm(user, member, contract, k) =>
      || LinkReason(s, user, member, contract, k, e)
      || (e == NotFound && (contract, k) !in s.suggestions)
      || (e == Conflict && (contract, k) in s.suggestions && s.suggestions[(contract, k)] != Proposed)
    case DoManualLink(user, member, contract, k) => LinkReason(s, user, member, contract, k, e)
    case DoReject(user, member, contract, k) =>
      || (e == NotFound && (contract !in s.contracts || (contract, k) !in s.suggestions))
      || (e == Conflict && (contract, k) in s.suggestions && s.suggestions[(contract, k)] != Proposed)
      || (e == Forbidden && contract in s.contracts
          && (!member || user != match s.contracts[contract].issuerUser { case Some(issuer) => issuer case None => k.hauler }))
    case DoUnlink(contract, allowed, inside) =>
      || (e == NotFound && contract !in s.contracts)
      || (e == Forbidden && !(allowed && inside))
      || (e == Conflict && contract in s.contracts
          && s.contracts[contract].status in {Finished, FinishedIssuer, FinishedContractor})
    case DoPropose(contract, k) => e == NotFound && (contract !in s.contracts || k !in s.reimbursements)
    case DoUpsertContract(_, _) => false
    case DoContractTerminal(contract, status) =>
      e == NotFound && contract !in s.contracts && status in {Finished, FinishedIssuer, FinishedContractor}
  }

  lemma ListRefused(s: Db, step: Step)
    requires Apply(s, step).Err?
    requires step.DoCreateList? || step.DoSetListStatus? || step.DoPatchListPayer? || step.DoAddItem?
    ensures Reason(s, step, Apply(s, step).error)
  {
  }

  lemma EditRefused(s: Db, step: Step)
    requires Apply(s, step).Err?
    requires step.DoPatchItem? || step.DoDeleteItem? || step.DoMarkDelivered? || step.DoPropose? || step.DoUpsertContract?
             || step.DoReject?
    ensures Reason(s, step, Apply(s, step).error)
  {
  }

  lemma TipRefused(s: Db, caller: Caller, list: Id, pct: real)
    requires SetListTip(s, caller, list, pct).Err?
    ensures Reason(s, DoSetListTip(caller, list, pct), SetListTip(s, caller, list, pct).error)
  {
    assert HasLiveFulfillment(s, list) <==> AnythingBought(s, list);
  }

  lemma ClaimRefused(s: Db, caller: Caller, claim: Id)
    requires ClaimsRefer(s) && WritableClaim(s, caller, claim).Err?
    ensures ClaimReason(s, caller, claim, WritableClaim(s, caller, claim).error)
  {
  }

  lemma ItemsRefused(s: Db, list: Id, ids: seq<Id>)
    requires list in s.lists && ValidateClaimable(s, list, ids).Err?
    ensures ItemsReason(s, list, ids, ValidateClaimable(s, list, ids).error)
  {
    if Distinct(ids) && forall i | i in ids :: IsOn(s, list, i) {
      DistinctMatchAll(ids, MatchingItems(s, list, ids));
    }
  }

  lemma ClaimStepRefused(s: Db, step: Step)
    requires Inv(s) && Apply(s, step).Err?
    requires step.DoCreateClaim? || step.DoAddClaimItems? || step.DoRemoveClaimItem? || step.DoReleaseClaim?
    ensures Reason(s, step, Apply(s, step).error)
  {
    hide Sum, OwedSide, BindSide, ClaimsExclusive, StatusesFit, CacheIsLiveSum, ValidateClaimable, InsertClaimItems, WritableClaim,
         ItemsReason, ClaimReason, RecomputeBulk, RecomputedRow;
    match step
    case DoCreateClaim(caller, list, ids, newClaim) => CreateRefused(s, caller, list, ids, newClaim);
    case DoAddClaimItems(caller, claim, ids) => AddRefused(s, caller, claim, ids);
    case DoRemoveClaimItem(caller, claim, item) =>
      if WritableClaim(s, caller, claim).Err? {
        ClaimRefused(s, caller, claim);
      }
    case DoReleaseClaim(caller, claim) =>
      ClaimRefused(s, caller, claim);
  }

  lemma EmptyIsRefused(s: Db, list: Id)
    ensures ItemsReason(s, list, [], BadRequest)
  {
  }

  lemma CreateRefused(s: Db, caller: Caller, list: Id, ids: seq<Id>, newClaim: Id)
    requires Inv(s) && CreateClaim(s, caller, list, ids, newClaim).Err?
    ensures Reason(s, DoCreateClaim(caller, list, ids, newClaim), CreateClaim(s, caller, list, ids, newClaim).error)
  {
    hide Sum, OwedSide, BindSide, ValidateClaimable, InsertClaimItems, ItemsReason, ClaimsExclusive, StatusesFit, CacheIsLiveSum;
    EmptyIsRefused(s, list);
    if list in s.lists && ValidateClaimable(s, list, ids).Err? {
      ItemsRefused(s, list, ids);
    } else if list in s.lists && newClaim !in s.claims {
      InsertKeepsInv(s, s.claims[newClaim := ClaimRow(list, caller.user, Active)], list, newClaim, ids);
    }
  }

  lemma AddRefused(s: Db, caller: Caller, claim: Id, ids: seq<Id>)
    requires Inv(s) && AddClaimItems(s, caller, claim, ids).Err?
    ensures Reason(s, DoAddClaimItems(caller, claim, ids), AddClaimItems(s, caller, claim, ids).error)
  {
    hide Sum, OwedSide, BindSide, ValidateClaimable, InsertClaimItems, ItemsReason, ClaimReason, ClaimsExclusive, StatusesFit,
         CacheIsLiveSum;
    if WritableClaim(s, caller, claim).Err? {
      ClaimRefused(s, caller, claim);
    } else {
      var list := s.claims[claim].list;
      EmptyIsRefused(s, list);
      if ValidateClaimable(s, list, ids).Err? {
        ItemsRefused(s, list, ids);
      } else {
        IndexNeverFires(s, list, claim, ids);
      }
    }
  }

  lemma PurchaseRefused(s: Db, caller: Caller, list: Id, item: Id, p: Purchase)
    requires Inv(s) && RecordFulfillment(s, caller, list, item, p).Err?
    ensures PurchaseReason(s, caller, list, item, p, RecordFulfillment(s, caller, list, item, p).error)
  {
    hide Sum, LiveQty, OwedSide, BindSide, StatusesFit, ActiveClaimOf, RecordBought;
    HolderIsActiveRow(s, item);
  }

  lemma ReversalRefused(s: Db, caller: Caller, n: nat)
    requires Inv(s) && ReverseFulfillment(s, caller, n).Err?
    ensures ReversalReason(s, caller, n, ReverseFulfillment(s, caller, n).error)
  {
    hide ClaimSide, BindSide, EveryPurchaseOwed, SettledIsPaid, TotalsAddUp, ReimbursementsRefer, ReversePurchase;
  }

  lemma SettlementRefused(s: Db, caller: Caller, k: Key)
    requires SettleReimbursement(s, caller, k).Err?
    ensures Reason(s, DoSettle(caller, k), SettleReimbursement(s, caller, k).error)
  {
    hide StillToDeliver, OwesDelivery;
    DeliveredIffNothingBlocks(s, k);
  }

  lemma LinkRefused(s: Db, step: Step)
    requires Apply(s, step).Err? && (step.DoConfirm? || step.DoManualLink?)
    ensures Reason(s, step, Apply(s, step).error)
  {
    hide ConfirmAndBind;
    if step.contract in s.contracts && step.key in s.reimbursements {
      BindSucceedsIff(s, step.contract, step.key);
    }
  }

  lemma WorkerRefused(s: Db, step: Step)
    requires Apply(s, step).Err? && (step.DoUnlink? || step.DoContractTerminal?)
    ensures Reason(s, step, Apply(s, step).error)
  {
    hide SettleViaContract, ReleaseBound, SupersedeAll, ExpectedTotal;
    if step.DoContractTerminal? {
      SettlingPaysBound(s, step.contract);
      SettlementIsFound(s, step.contract);
    }
  }

  lemma SettlementIsFound(s: Db, contract: Id)
    requires contract !in s.contracts
    ensures SettleViaContract(s, contract) == Err(NotFound)
  {
  }

  /** No call is refused without cause: whatever is called in a consistent database, the error
      class names something that is indeed missing, malformed, forbidden or in conflict, and an
      internal error means that an identifier for a new row is taken. */
  lemma RefusalsTellTheTruth(s: Db, step: Step)
    requires Inv(s) && Apply(s, step).Err?
    ensures Reason(s, step, Apply(s, step).error)
  {
    hide Inv, PurchaseReason, ReversalReason, ItemsReason, ClaimReason, LinkReason, EditReason, RecordFulfillment,
         ReverseFulfillment, SettleReimbursement, SetListTip, CreateClaim, AddClaimItems, RemoveClaimItem, ReleaseClaim;
    match step
    case DoSetListTip(caller, list, pct) => TipRefused(s, caller, list, pct);
    case DoCreateClaim(_, _, _, _) => ClaimStepRefused(s, step);
    case DoAddClaimItems(_, _, _) => ClaimStepRefused(s, step);
    case DoRemoveClaimItem(_, _, _) => ClaimStepRefused(s, step);
    case DoReleaseClaim(_, _) => ClaimStepRefused(s, step);
    case DoRecord(caller, list, item, p) => PurchaseRefused(s, caller, list, item, p);
    case DoReverse(caller, n) => ReversalRefused(s, caller, n);
    case DoSettle(caller, k) => SettlementRefused(s, caller, k);
    case DoConfirm(_, _, _, _) => LinkRefused(s, step);
    case DoManualLink(_, _, _, _) => LinkRefused(s, step);
    case DoUnlink(_, _, _) => WorkerRefused(s, step);
    case DoContractTerminal(_, _) => WorkerRefused(s, step);
    case DoCreateList(_, _, _) => ListRefused(s, step);
    case DoSetListStatus(_, _, _) => ListRefused(s, step);
    case DoPatchListPayer(_, _, _, _) => ListRefused(s, step);
    case DoAddItem(_, _, _, _) => ListRefused(s, step);
    case _ => EditRefused(s, step);
  }
}
