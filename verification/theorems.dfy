/** What holds in every database that the program can reach from empty tables, whatever
    is called in whatever order. */
module Theorems {
  import opened Domain
  import opened Sums
  import opened Database
  import opened Recompute
  import opened Claims
  import opened Fulfillments
  import opened Settlement
  import opened Contracts
  import opened Invariant
  import opened RecomputeProofs
  import opened FulfillmentsProofs
  import opened SettlementProofs
  import opened ClaimsProofs
  import opened ClaimsRules
  import opened Runs
  import opened Quantities
  import opened Ledger
  import opened Finality
  import Completeness

  // ── Statuses, claims and quantities ───────────────────────────────────────

  /** `p` is an active claim row of `item`, and the only one. */
  ghost predicate IsOnlyActiveRow(s: Db, p: (Id, Id), item: Id) {
    && p in s.claimItems && s.claimItems[p] && p.1 == item
    && forall q | q in s.claimItems && s.claimItems[q] && q.1 == item :: q == p
  }

  /** An item's status tells the truth about its claims and its live fulfilments. */
  lemma StatusTellsTheTruth(s: Db, i: Id)
    requires Reachable(s) && i in s.items
    ensures s.items[i].qtyFulfilled == LiveQty(s, i)
    ensures s.items[i].status.Open? ==> !HasActiveClaim(s.claimItems, i)
    ensures s.items[i].status.Claimed? ==>
              LiveQty(s, i) < s.items[i].qtyRequested && exists p :: IsOnlyActiveRow(s, p, i)
    ensures s.items[i].status.Fulfilled() ==> LiveQty(s, i) >= s.items[i].qtyRequested
  {
    hide Sum, Run, OwedSide, BindSide, ClaimsRefer;
    ReachableIsConsistent(s);
    assert RowFits(s.items[i], HasActiveClaim(s.claimItems, i));
    if s.items[i].status.Claimed? {
      var p :| p in s.claimItems && p.1 == i && s.claimItems[p];
      assert IsOnlyActiveRow(s, p, i);
    }
  }

  /** A claim row is active exactly when its claim is. */
  lemma ActiveFlagFollowsClaim(s: Db, p: (Id, Id))
    requires Reachable(s) && p in s.claimItems
    ensures p.0 in s.claims && (s.claimItems[p] <==> s.claims[p.0].status.Active?)
  {
    hide Run, OwedSide, BindSide, StatusesFit, CacheIsLiveSum;
    ReachableIsConsistent(s);
  }

  /** The identifiers name distinct open items of the list. */
  predicate AllClaimable(s: Db, list: Id, ids: seq<Id>) {
    Distinct(ids) && forall i | i in ids :: i in s.items && s.items[i].list == list && s.items[i].status.Open?
  }

  lemma ValidIffAllClaimable(s: Db, list: Id, ids: seq<Id>)
    ensures ValidateClaimable(s, list, ids).Ok? <==> AllClaimable(s, list, ids)
  {
    if AllClaimable(s, list, ids) {
      DistinctMatchAll(ids, MatchingItems(s, list, ids));
    }
    if ValidateClaimable(s, list, ids).Ok? {
      ValidatedAreOpen(s, list, ids);
    }
  }

  /** Claiming succeeds exactly when the list is open and the request names distinct open
      items of it: the index that allows one active claim per item never refuses. */
  lemma ClaimSucceedsIffClaimable(s: Db, caller: Caller, list: Id, ids: seq<Id>, newClaim: Id)
    requires Reachable(s) && newClaim !in s.claims
    ensures CreateClaim(s, caller, list, ids, newClaim).Ok? <==>
            && list in s.lists && s.lists[list].status.ListOpen?
            && ids != [] && AllClaimable(s, list, ids)
  {
    hide Run, OwedSide, BindSide, StatusesFit, CacheIsLiveSum, ValidateClaimable, InsertClaimItems, AllClaimable, ClaimsExclusive;
    ReachableIsConsistent(s);
    ValidIffAllClaimable(s, list, ids);
    if list in s.lists && ValidateClaimable(s, list, ids).Ok? {
      InsertAfterNewClaim(s, caller, list, ids, newClaim);
    }
  }

  lemma InsertAfterNewClaim(s: Db, caller: Caller, list: Id, ids: seq<Id>, newClaim: Id)
    requires Inv(s) && newClaim !in s.claims && list in s.lists && ValidateClaimable(s, list, ids).Ok?
    ensures InsertClaimItems(s.(claims := s.claims[newClaim := ClaimRow(list, caller.user, Active)]), newClaim, ids).Ok?
  {
    hide Sum, OwedSide, BindSide, StatusesFit, CacheIsLiveSum, ValidateClaimable, InsertClaimItems;
    InsertKeepsInv(s, s.claims[newClaim := ClaimRow(list, caller.user, Active)], list, newClaim, ids);
  }

  /** The same for adding items to a claim, which must be one that the caller may change. */
  lemma AddingSucceedsIffClaimable(s: Db, caller: Caller, claim: Id, ids: seq<Id>)
    requires Reachable(s)
    ensures AddClaimItems(s, caller, claim, ids).Ok? <==>
            Writable(s, caller, claim) && ids != [] && AllClaimable(s, s.claims[claim].list, ids)
  {
    hide Run, OwedSide, BindSide, CacheIsLiveSum, ClaimsRefer, ClaimsExclusive, StatusesFit, ValidateClaimable, InsertClaimItems,
         AllClaimable;
    if Writable(s, caller, claim) {
      ReachableIsConsistent(s);
      ValidIffAllClaimable(s, s.claims[claim].list, ids);
      if ValidateClaimable(s, s.claims[claim].list, ids).Ok? {
        IndexNeverFires(s, s.claims[claim].list, claim, ids);
      }
    }
  }

  /** Recomputing a set of items in one statement equals recomputing them one by one, in
      any order and with any repetitions. */
  lemma BulkEqualsEachInAnyOrder(s: Db, ids: seq<Id>, reordered: seq<Id>)
    requires Reachable(s) && IdSet(ids) == IdSet(reordered)
    ensures RecomputeEach(s, reordered) == RecomputeEach(s, ids) == RecomputeBulk(s, IdSet(ids))
  {
    hide Run, OwedSide, BindSide, CacheIsLiveSum, RecomputeBulk, RecomputeEach, StatusesFit;
    ReachableIsConsistent(s);
    BulkEqualsEach(s, ids);
    BulkEqualsEach(s, reordered);
  }

  // ── Over-fulfilment and finality ──────────────────────────────────────────

  /** An item is never over-fulfilled, as long as the accepted patches of this very item ask for
      at least what is bought of it. */
  lemma NeverOverFulfilled(steps: seq<Step>, i: Id)
    requires RunPatchesAtLeastBought(EMPTY_DB, steps, i) && i in Run(EMPTY_DB, steps).items
    ensures LiveQty(Run(EMPTY_DB, steps), i) <= Run(EMPTY_DB, steps).items[i].qtyRequested
  {
    hide Sum, LiveQty, Run, RunPatchesAtLeastBought, OwedSide, BindSide, ClaimsRefer, ClaimsExclusive, StatusesFit;
    EmptyIsConsistent();
    RunIsWithin(EMPTY_DB, steps, i);
    EveryReachableDbIsConsistent(steps);
  }

  lemma EmptyIsConsistent()
    ensures Inv(EMPTY_DB) && forall i :: WithinAt(EMPTY_DB, i) && Balanced(EMPTY_DB, i)
  {
  }

  lemma {:induction false} RunInTwoParts(s: Db, before: seq<Step>, after: seq<Step>)
    ensures Run(s, before + after) == Run(Run(s, before), after)
    decreases |before|
  {
    hide Next;
    if before == [] {
      assert before + after == after;
    } else {
      assert (before + after)[1..] == before[1..] + after;
      RunInTwoParts(Next(s, before[0]), before[1..], after);
    }
  }

  /** Once settled, an item keeps its row and its live fulfilments for the rest of the run. */
  lemma SettledItemsNeverChange(before: seq<Step>, after: seq<Step>, i: Id)
    requires i in Run(EMPTY_DB, before).items && Run(EMPTY_DB, before).items[i].status.Settled?
    ensures var s, t := Run(EMPTY_DB, before), Run(EMPTY_DB, before + after);
            && i in t.items && t.items[i] == s.items[i] && LiveRows(t, i) == LiveRows(s, i)
  {
    hide Run, Inv, LiveRows;
    EveryReachableDbIsConsistent(before);
    RunInTwoParts(EMPTY_DB, before, after);
    SettledIsFinal(Run(EMPTY_DB, before), after);
  }

  /** Once settled, a reimbursement keeps its amounts, its contract and its settling user. */
  lemma SettledAmountsNeverChange(before: seq<Step>, after: seq<Step>, k: Key)
    requires k in Run(EMPTY_DB, before).reimbursements && Run(EMPTY_DB, before).reimbursements[k].status.Paid?
    ensures k in Run(EMPTY_DB, before + after).reimbursements
    ensures Run(EMPTY_DB, before + after).reimbursements[k] == Run(EMPTY_DB, before).reimbursements[k]
  {
    hide Run, Inv, LiveRows, ItemsFrozen;
    EveryReachableDbIsConsistent(before);
    RunInTwoParts(EMPTY_DB, before, after);
    SettledIsFinal(Run(EMPTY_DB, before), after);
  }

  /** Why: nobody can buy more of a settled item, and nobody can reverse one of its live
      fulfilments, whoever asks. */
  lemma SettledItemRefuses(s: Db, i: Id, caller: Caller, list: Id, p: Purchase, n: nat)
    requires Reachable(s) && i in s.items && s.items[i].status.Settled?
    ensures RecordFulfillment(s, caller, list, i, p).Err?
    ensures n in s.fulfillments && IsLiveOn(s.fulfillments[n], i) ==> ReverseFulfillment(s, caller, n).Err?
  {
    hide Sum, Run, HasActiveClaim, BindSide, ClaimsRefer, ClaimsExclusive, CacheIsLiveSum, RecordBought, ReversePurchase;
    ReachableIsConsistent(s);
    assert RowFits(s.items[i], HasActiveClaim(s.claimItems, i));
    if n in s.fulfillments && IsLiveOn(s.fulfillments[n], i) && ReverseFulfillment(s, caller, n).Ok? {
      UnpaidIsNotSettled(s, n);
    }
  }

  // ── Settling by hand ──────────────────────────────────────────────────────

  lemma ManualChanges(s: Db, k: Key, user: Id, i: Id)
    requires SettleManual(s, k, user).Ok? && i in s.items
    ensures i in SettleManual(s, k, user).value.items
    ensures SettleManual(s, k, user).value.items[i].status.Settled? && !s.items[i].status.Settled? ==>
              s.items[i].status.Delivered? && InScope(k, s.items[i]) && HasLiveBy(s, i, k.hauler)
  {
    hide InScope, HasLiveBy, OtherHaulerPending, AllItemsSettled, OwesDelivery;
    var paid := s.(reimbursements := s.reimbursements[k := s.reimbursements[k].(status := Paid, settledBy := Some(user))]);
    assert HasLiveBy(paid, i, k.hauler) == HasLiveBy(s, i, k.hauler) by {
      SameLive(s, paid, i, k.hauler);
    }
  }

  lemma SameLive(s: Db, t: Db, i: Id, hauler: Id)
    requires t.fulfillments == s.fulfillments
    ensures HasLiveBy(t, i, hauler) == HasLiveBy(s, i, hauler)
  {
  }

  /** Settling by hand promotes exactly the delivered items of the reimbursement for which
      everybody has been paid now, although its guard only looks for other haulers. */
  lemma ManualPromotesExactlyThePaid(s: Db, caller: Caller, k: Key, i: Id)
    requires Reachable(s) && SettleReimbursement(s, caller, k).Ok? && i in s.items
    ensures var t := SettleReimbursement(s, caller, k).value;
            && i in t.items
            && (t.items[i].status.Settled? <==>
                  || s.items[i].status.Settled?
                  || (s.items[i].status.Delivered? && InScope(k, s.items[i]) && HasLiveBy(s, i, k.hauler) && FullyPaid(t, i)))
  {
    hide Run, Inv, SettleManual, InScope, HasLiveBy, FullyPaid, SettleStep;
    ReachableIsConsistent(s);
    var t := SettleReimbursement(s, caller, k).value;
    SettleReimbursementKeepsInv(s, caller, k);
    ManualChanges(s, k, caller.user, i);
    ManualIsSettleStep(s, k, caller.user);
    SettledStays(s, t, i);
    if t.items[i].status.Settled? {
      Completeness.SettledMeansFullAndPaid(t, i);
    } else if s.items[i].status.Delivered? && InScope(k, s.items[i]) && HasLiveBy(s, i, k.hauler) && FullyPaid(t, i) {
      RefersOf(s);
      Completeness.ManualFlips(s, k, caller.user, i);
    }
  }

  lemma SettledStays(s: Db, t: Db, i: Id)
    requires SettleStep(s, t) && i in s.items
    ensures i in t.items && (s.items[i].status.Settled? ==> t.items[i].status.Settled?)
  {
  }

  lemma RefersOf(s: Db)
    requires Inv(s)
    ensures ReimbursementsRefer(s)
  {
  }

  /** Every item of the list is settled. */
  ghost predicate EveryItemSettled(s: Db, list: Id) {
    forall i | i in s.items && s.items[i].list == list :: s.items[i].status == Settled
  }

  /** It closes the reimbursement's list exactly when the list was open and all of its items
      are settled then, and it touches no other list. */
  lemma ManualClosesCompleteLists(s: Db, caller: Caller, k: Key, l: Id)
    requires SettleReimbursement(s, caller, k).Ok? && l in s.lists
    ensures var t := SettleReimbursement(s, caller, k).value;
            && l in t.lists
            && t.lists[l] == if l == k.list && s.lists[l].status == ListOpen && EveryItemSettled(t, l)
                             then s.lists[l].(status := ListClosed) else s.lists[l]
  {
    hide FlipsManually, OwesDelivery;
  }

  /** A contract settlement that pays anybody closes exactly the open lists with a reimbursement
      bound to the contract whose items are all settled then. */
  lemma ContractClosesCompleteLists(s: Db, contract: Id, l: Id)
    requires SettleViaContract(s, contract).Ok? && l in s.lists
    ensures var t := SettleViaContract(s, contract).value;
            && l in t.lists
            && var closes := && (exists k | k in s.reimbursements ::
                                   s.reimbursements[k].status == Pending && s.reimbursements[k].contract == Some(contract))
                             && (exists k | k in s.reimbursements :: k.list == l && s.reimbursements[k].contract == Some(contract))
                             && s.lists[l].status == ListOpen && EveryItemSettled(t, l);
               t.lists[l] == if closes then s.lists[l].(status := ListClosed) else s.lists[l]
  {
    hide FlipsByContract, AllItemsSettled, EveryItemSettled, ListsBound, AnyPendingBound;
    PendingBoundIff(s, contract);
    BoundListIff(s, contract, l);
    SettledIff(SettleViaContract(s, contract).value, l);
    if AnyPendingBound(s, contract) {
      ClosingOf(s, contract, l);
    }
  }

  lemma ClosingOf(s: Db, contract: Id, l: Id)
    requires contract in s.contracts && AnyPendingBound(s, contract) && l in s.lists
    ensures SettleViaContract(s, contract).Ok?
    ensures var t := SettleViaContract(s, contract).value;
            && l in t.lists
            && t.lists[l] == if l in ListsBound(s, contract) && s.lists[l].status.ListOpen? && AllItemsSettled(t, l)
                             then s.lists[l].(status := ListClosed) else s.lists[l]
  {
    hide FlipsByContract, AnyPendingBound, ListsBound;
  }

  lemma PendingBoundIff(s: Db, contract: Id)
    ensures AnyPendingBound(s, contract) <==>
            exists k | k in s.reimbursements ::
              s.reimbursements[k].status == Pending && s.reimbursements[k].contract == Some(contract)
  {
    if k :| k in s.reimbursements && s.reimbursements[k].status == Pending && s.reimbursements[k].contract == Some(contract) {
      assert BoundTo(s, k, contract);
    }
  }

  lemma BoundListIff(s: Db, contract: Id, l: Id)
    ensures l in ListsBound(s, contract) <==>
            exists k | k in s.reimbursements :: k.list == l && s.reimbursements[k].contract == Some(contract)
  {
  }

  lemma SettledIff(s: Db, l: Id)
    ensures AllItemsSettled(s, l) <==> EveryItemSettled(s, l)
  {
  }

  // ── Money ─────────────────────────────────────────────────────────────────

  /** The three amounts of a reimbursement agree to the cent. */
  lemma TotalIsExact(s: Db, k: Key)
    requires Reachable(s) && k in s.reimbursements
    ensures s.reimbursements[k].total == s.reimbursements[k].subtotal + s.reimbursements[k].tip
    ensures s.reimbursements[k].subtotal >= 0 && s.reimbursements[k].tip >= 0
  {
    hide Run, ClaimSide, BindSide;
    ReachableIsConsistent(s);
  }

  /** Conservation on a list: every subtotal is the cost of what it pays for, and together the
      subtotals are the cost of all that is bought, as long as the accepted deletions on this
      very list take along nothing that costs. */
  lemma EveryListOwesWhatWasBought(steps: seq<Step>, list: Id)
    requires RunDeletesOnlyFree(EMPTY_DB, steps, list)
    ensures var s := Run(EMPTY_DB, steps);
            && (forall k | k in s.reimbursements && k.list == list :: s.reimbursements[k].subtotal == CoveredCost(s, k))
            && SetSum(KeysOfList(s, list), SubtotalAt(s)) == Sum(s.nextFulfillment, ListCostAt(s, list))
  {
    hide Run, RunDeletesOnlyFree, Inv, SetSum, Sum;
    EmptyIsConsistent();
    EveryReachableDbIsConsistent(steps);
    RunKeepsBalance(EMPTY_DB, steps, list);
    ListOwesWhatWasBought(Run(EMPTY_DB, steps), list);
  }

  // ── Binding to contracts ──────────────────────────────────────────────────

  /** `c` has a confirmed suggestion for `k`, and it is the only confirmed one of `k`. */
  ghost predicate IsOnlyConfirmed(s: Db, c: Id, k: Key) {
    && IsConfirmed(s, c, k)
    && forall p | p in s.suggestions && p.1 == k && s.suggestions[p].Confirmed? :: p.0 == c
  }

  /** A pending reimbursement is bound only to the one contract confirmed for it; a settled
      one was settled by its contract or by a user, and never by both. */
  lemma BindingProtocol(s: Db, k: Key)
    requires Reachable(s) && k in s.reimbursements
    ensures var r := s.reimbursements[k];
            && (r.contract.Some? ==> r.contract.value in s.contracts)
            && (r.status.Pending? && r.contract.Some? ==> IsOnlyConfirmed(s, r.contract.value, k))
            && (r.status.Paid? ==> (r.contract.Some? <==> r.settledBy.None?))
            && (r.status.Pending? ==> r.settledBy.None?)
  {
    hide Run, ClaimSide, OwedSide;
    ReachableIsConsistent(s);
    assert BindingFits(s, k);
  }

  function TotalAt(s: Db): Key -> int {
    (k: Key) => if k in s.reimbursements then s.reimbursements[k].total else 0
  }

  /** The sum of the totals bound to `contract`; nothing bound is not a total of zero. */
  ghost predicate ExpectsBoundTotals(s: Db, contract: Id)
    requires contract in s.contracts
  {
    s.contracts[contract].expectedTotal ==
    if BoundKeys(s, contract) == {} then None else Some(SetSum(BoundKeys(s, contract), TotalAt(s)))
  }

  lemma BindExpects(s: Db, contract: Id, k: Key)
    requires TotalsAddUp(s) && contract in s.contracts && k in s.reimbursements
    ensures var b := Bind(s, contract, k);
            contract in b.contracts && k in BoundKeys(b, contract) && ExpectsBoundTotals(b, contract)
            && TotalsAddUp(b)
  {
    hide SetSum;
    var b := Bind(s, contract, k);
    var linked := s.(suggestions := b.suggestions, reimbursements := b.reimbursements);
    assert BoundKeys(b, contract) == BoundKeys(linked, contract);
    assert k in BoundKeys(b, contract);
    SetSumOfEqual(BoundKeys(b, contract), OwedAt(linked), TotalAt(b));
  }

  lemma PayKeepsBound(s: Db, contract: Id)
    ensures BoundKeys(PayBound(s, contract), contract) == BoundKeys(s, contract)
  {
  }

  lemma SettleWritesDelta(s: Db, contract: Id)
    requires contract in s.contracts && AnyPendingBound(s, contract)
    ensures SettleViaContract(s, contract).Ok?
    ensures SettleViaContract(s, contract).value.reimbursements == PayBound(s, contract).reimbursements
    ensures SettleViaContract(s, contract).value.contracts == WriteDelta(s, contract).contracts
  {
  }

  /** Settling keeps what the contract expects, and records the difference to its price. */
  lemma SettleKeepsExpected(s: Db, contract: Id)
    requires contract in s.contracts && AnyPendingBound(s, contract)
    ensures SettleViaContract(s, contract).Ok?
    ensures var t := SettleViaContract(s, contract).value;
            && contract in t.contracts && t.contracts[contract] == WriteDelta(s, contract).contracts[contract]
            && BoundKeys(t, contract) == BoundKeys(s, contract)
            && SetSum(BoundKeys(t, contract), TotalAt(t)) == SetSum(BoundKeys(s, contract), TotalAt(s))
  {
    hide AnyPendingBound, BoundTo, SettleViaContract, PayBound, SetSum;
    SettleWritesDelta(s, contract);
    PayKeepsBound(s, contract);
    PayBoundPays(s, contract);
    SetSumOfEqual(BoundKeys(s, contract), TotalAt(s), TotalAt(SettleViaContract(s, contract).value));
  }

  /** Right after a link the contract expects exactly the totals bound to it, and one that
      had already finished records by how much its price differs from them. */
  lemma LinkedContractExpectsBoundTotals(s: Db, contract: Id, k: Key)
    requires Reachable(s) && contract in s.contracts && k in s.reimbursements
    requires s.reimbursements[k].status.Pending? && ConfirmAndBind(s, contract, k).Ok?
    ensures var t := ConfirmAndBind(s, contract, k).value;
            && contract in t.contracts && ExpectsBoundTotals(t, contract) && k in BoundKeys(t, contract)
            && (s.contracts[contract].status in {Finished, FinishedIssuer, FinishedContractor} ==>
                  t.contracts[contract].settlementDelta
                  == Some(s.contracts[contract].price - SetSum(BoundKeys(t, contract), TotalAt(t))))
  {
    hide Run, ClaimSide, BindSide, SetSum, SettleViaContract, ConfirmedElsewhere, Bind;
    ReachableIsConsistent(s);
    BindExpects(s, contract, k);
    var b := Bind(s, contract, k);
    BindKeepsRow(s, contract, k);
    if s.contracts[contract].status.IsTerminalSuccess() {
      SettleKeepsExpected(b, contract);
    }
  }

  lemma BindKeepsRow(s: Db, contract: Id, k: Key)
    requires contract in s.contracts && k in s.reimbursements && s.reimbursements[k].status.Pending?
    ensures var b := Bind(s, contract, k);
            && AnyPendingBound(b, contract)
            && b.contracts[contract].price == s.contracts[contract].price
            && BoundKeys(b, contract) != {}
  {
    hide SetSum, ExpectedTotal;
    var b := Bind(s, contract, k);
    assert BoundTo(b, k, contract);
    assert k in BoundKeys(b, contract);
  }

  /** After an unlink the contract expects what is still bound to it: the settled rows. */
  lemma UnlinkedContractExpectsBoundTotals(s: Db, contract: Id, allowed: bool, insideGroups: bool)
    requires Reachable(s) && Unlink(s, contract, allowed, insideGroups).Ok?
    ensures var t := Unlink(s, contract, allowed, insideGroups).value;
            && contract in t.contracts && ExpectsBoundTotals(t, contract)
            && forall k | k in BoundKeys(t, contract) :: t.reimbursements[k].status.Paid?
  {
    hide Run, ClaimSide, BindSide, SetSum;
    ReachableIsConsistent(s);
    var t := Unlink(s, contract, allowed, insideGroups).value;
    var released := ReleaseBound(s, contract).(suggestions := SupersedeAll(s.suggestions, contract, Confirmed));
    assert BoundKeys(t, contract) == BoundKeys(released, contract);
    SetSumOfEqual(BoundKeys(t, contract), OwedAt(released), TotalAt(t));
  }

  /** A failed contract releases its pending reimbursements but leaves their suggestions
      confirmed: such a reimbursement cannot be linked to any other contract... */
  lemma UnboundCannotLinkElsewhere(s: Db, contract: Id, k: Key, other: Id, user: Id, member: bool)
    requires Reachable(s) && k in s.reimbursements && s.reimbursements[k].status.Pending?
    requires s.reimbursements[k].contract == Some(contract) && other != contract
    ensures var t := UnbindContract(s, contract);
            && t.reimbursements[k].contract.None?
            && ManualLink(t, user, member, other, k).Err?
            && ConfirmSuggestion(t, user, member, other, k).Err?
  {
    hide Run, ClaimSide, OwedSide, ValidateLink, Bind, SettleViaContract;
    ReachableIsConsistent(s);
    var t := UnbindContract(s, contract);
    assert BindingFits(s, k);
    assert (contract, k) in t.suggestions && t.suggestions[(contract, k)].Confirmed?;
    assert ConfirmedElsewhere(t, other, k);
  }

  /** ...until the failed contract is unlinked as well: then a link is refused only for what
      its guards refuse. */
  lemma UnlinkingFreesTheReimbursement(s: Db, contract: Id, k: Key, other: Id, user: Id, member: bool)
    requires Reachable(s) && k in s.reimbursements && s.reimbursements[k].status.Pending?
    requires s.reimbursements[k].contract == Some(contract) && other in s.contracts
    requires contract in s.contracts && s.contracts[contract].status !in {Finished, FinishedIssuer, FinishedContractor}
    ensures Unlink(UnbindContract(s, contract), contract, true, true).Ok?
    ensures var t := Unlink(UnbindContract(s, contract), contract, true, true).value;
            && other in t.contracts && k in t.reimbursements
            && (ManualLink(t, user, member, other, k).Ok? <==> ValidateLink(t, user, member, other, k).Ok?)
  {
    hide Run, ClaimSide, OwedSide, SetSum, ExpectedTotal, ValidateLink, SettleViaContract;
    ReachableIsConsistent(s);
    BindingProtocol(s, k);
    var t := Unlink(UnbindContract(s, contract), contract, true, true).value;
    assert !ConfirmedElsewhere(t, other, k);
    SettleAnswers(Bind(t, other, k), other);
  }

  lemma SettleAnswers(s: Db, contract: Id)
    requires contract in s.contracts
    ensures SettleViaContract(s, contract).Ok?
  {
    hide PayBound, FlipByContract, AutoClose, AnyPendingBound;
  }
}
