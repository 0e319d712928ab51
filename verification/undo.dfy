/** What one call does, another undoes: releasing a claim, unlinking a contract and
    reversing a purchase, and exactly when each restores what was there before. */
module Undo {
  import opened Domain
  import opened Sums
  import opened Money
  import opened Database
  import opened Recompute
  import opened Claims
  import opened Fulfillments
  import opened Settlement
  import opened Contracts
  import opened Invariant
  import opened RecomputeProofs
  import opened FulfillmentsProofs
  import opened ClaimsProofs
  import opened ClaimsRules
  import opened ClaimLists
  import opened Runs
  import opened Ledger
  import opened Finality

  // ── Claiming and releasing ────────────────────────────────────────────────

  /** After claiming, the claim is active and holds exactly the given items. */
  lemma ClaimHolds(s: Db, caller: Caller, list: Id, ids: seq<Id>, newClaim: Id)
    requires Inv(s) && CreateClaim(s, caller, list, ids, newClaim).Ok?
    ensures var t := CreateClaim(s, caller, list, ids, newClaim).value;
            && t.claims == s.claims[newClaim := ClaimRow(list, caller.user, Active)]
            && t.claimItems == s.claimItems + ActiveRows(newClaim, ids)
            && ItemsOfClaim(t, newClaim) == IdSet(ids)
            && t.lists == s.lists && t.fulfillments == s.fulfillments && t.nextFulfillment == s.nextFulfillment
            && t.items == RecomputeBulk(t.(items := s.items), IdSet(ids)).items
  {
    hide Sum, OwedSide, BindSide, ClaimsExclusive, StatusesFit, CacheIsLiveSum, HasActiveClaim, ValidateClaimable, BulkRow;
    var t := CreateClaim(s, caller, list, ids, newClaim).value;
    forall i
      ensures i in ItemsOfClaim(t, newClaim) <==> i in IdSet(ids)
    {
      assert (newClaim, i) !in s.claimItems;
      assert (newClaim, i) in t.claimItems <==> i in ids;
    }
  }

  lemma ReleaseRestoresActive(s: Db, ids: seq<Id>, newClaim: Id, after: map<(Id, Id), bool>, i: Id)
    requires forall p | p in s.claimItems :: p.0 != newClaim
    requires forall p :: p in after <==> p in s.claimItems + ActiveRows(newClaim, ids)
    requires forall p | p in after :: after[p] == (p.0 != newClaim && s.claimItems[p])
    ensures HasActiveClaim(after, i) == HasActiveClaim(s.claimItems, i)
  {
    if HasActiveClaim(s.claimItems, i) {
      var p :| p in s.claimItems && p.1 == i && s.claimItems[p];
      assert p in after && after[p];
    }
  }

  lemma ReleasedTables(t: Db, caller: Caller, claim: Id)
    requires ReleaseClaim(t, caller, claim).Ok?
    ensures var u := ReleaseClaim(t, caller, claim).value;
            && u.fulfillments == t.fulfillments && u.nextFulfillment == t.nextFulfillment
            && u.items == RecomputeBulk(t.(claimItems := u.claimItems),
                                        ItemsOfClaim(t, claim)).items
            && u.claimItems.Keys == t.claimItems.Keys
            && forall p | p in t.claimItems :: u.claimItems[p] == if p.0 == claim then false else t.claimItems[p]
  {
  }

  /** Claimed and recomputed, released and recomputed. */
  lemma RowThereAndBack(row: ItemRow, wasClaimed: bool)
    requires row.status.Open?
    ensures BulkRowAfter(BulkRowAfter(row, row.qtyFulfilled, wasClaimed), row.qtyFulfilled, false) == row
            <==> row.qtyFulfilled < row.qtyRequested
  {
  }

  /** `t` is `s` with new claim rows, `u` is `t` without them; both recomputed `ids`. */
  ghost predicate ThereAndBack(s: Db, t: Db, u: Db, ids: seq<Id>) {
    && t.fulfillments == s.fulfillments && t.nextFulfillment == s.nextFulfillment
    && t.items == RecomputeBulk(t.(items := s.items), IdSet(ids)).items
    && u.items == RecomputeBulk(t.(claimItems := u.claimItems), IdSet(ids)).items
  }

  lemma ItemThereAndBack(s: Db, t: Db, u: Db, ids: seq<Id>, i: Id)
    requires ThereAndBack(s, t, u, ids) && i in s.items && s.items[i].qtyFulfilled == LiveQty(s, i)
    requires i in ids ==> s.items[i].status.Open? && !HasActiveClaim(u.claimItems, i)
    ensures i in u.items
    ensures u.items[i] == s.items[i] <==> (i in ids ==> s.items[i].qtyFulfilled < s.items[i].qtyRequested)
  {
    hide Sum, HasActiveClaim, BulkRowAfter;
    if i in ids {
      RowThereAndBack(s.items[i], HasActiveClaim(t.claimItems, i));
    }
  }

  /** Releasing a claim that was just created is allowed, and it restores the items exactly
      when none of them was full: an open item that is full turns bought on the way. */
  lemma ReleaseUndoesClaimIffShort(s: Db, caller: Caller, list: Id, ids: seq<Id>, newClaim: Id)
    requires Inv(s) && CreateClaim(s, caller, list, ids, newClaim).Ok?
    ensures var t := CreateClaim(s, caller, list, ids, newClaim).value;
            && ReleaseClaim(t, caller, newClaim).Ok?
            && (ReleaseClaim(t, caller, newClaim).value.items == s.items
                <==> forall i | i in ids && i in s.items :: s.items[i].qtyFulfilled < s.items[i].qtyRequested)
  {
    hide Sum, HasActiveClaim, OwedSide, BindSide, CreateClaim, LiveQty, ReleaseClaim, RecomputeBulk;
    ClaimHolds(s, caller, list, ids, newClaim);
    CreatedIsOpen(s, caller, list, ids, newClaim);
    var t := CreateClaim(s, caller, list, ids, newClaim).value;
    OwnClaimIsReleasable(t, caller, newClaim);
    var u := ReleaseClaim(t, caller, newClaim).value;
    ReleasedTables(t, caller, newClaim);
    assert ThereAndBack(s, t, u, ids);
    forall i | i in s.items
      ensures i in u.items && (u.items[i] == s.items[i] <==> (i in ids ==> s.items[i].qtyFulfilled < s.items[i].qtyRequested))
    {
      ReleaseRestoresActive(s, ids, newClaim, u.claimItems, i);
      assert RowFits(s.items[i], HasActiveClaim(s.claimItems, i));
      ItemThereAndBack(s, t, u, ids, i);
    }
    SameItemKeys(s, t, u, ids);
    if forall i | i in s.items :: u.items[i] == s.items[i] {
      SameRows(u.items, s.items);
    }
  }

  lemma SameItemKeys(s: Db, t: Db, u: Db, ids: seq<Id>)
    requires ThereAndBack(s, t, u, ids)
    ensures u.items.Keys == s.items.Keys
  {
    hide BulkRow;
  }

  lemma OwnClaimIsReleasable(t: Db, caller: Caller, claim: Id)
    requires claim in t.claims && t.claims[claim].status.Active? && t.claims[claim].hauler == caller.user
    requires t.claims[claim].list in t.lists && !t.lists[t.claims[claim].list].status.ListArchived?
    ensures ReleaseClaim(t, caller, claim).Ok?
  {
  }

  lemma CreatedIsOpen(s: Db, caller: Caller, list: Id, ids: seq<Id>, newClaim: Id)
    requires CreateClaim(s, caller, list, ids, newClaim).Ok?
    ensures list in s.lists && s.lists[list].status.ListOpen? && newClaim !in s.claims
    ensures forall i | i in ids :: i in s.items && s.items[i].status.Open?
  {
    hide InsertClaimItems;
    ValidatedAreOpen(s, list, ids);
  }

  // ── Removing and adding ───────────────────────────────────────────────────

  /** Putting an item back on its claim restores every table exactly when the item is short; a
      full one is not open, so that adding it is a conflict. */
  lemma AddingUndoesRemovalIffShort(s: Db, caller: Caller, claim: Id, item: Id)
    requires Reachable(s) && RemoveClaimItem(s, caller, claim, item).Ok?
    ensures item in s.items
    ensures AddClaimItems(RemoveClaimItem(s, caller, claim, item).value, caller, claim, [item]) ==
            if s.items[item].qtyFulfilled < s.items[item].qtyRequested then Ok(s) else Err(Conflict)
  {
    hide Inv, HoldsOwnItems, RemoveClaimItem, AddClaimItems, Run;
    ReachableIsConsistent(s);
    ReachableHoldsOwnItems(s);
    RemoveWrites(s, caller, claim, item);
    Refers(s);
    RemoveSucceedsIff(s, caller, claim, item);
    OwnItem(s, caller, claim, item);
    AddingAgainUndoesRemovalIffShort(s, caller, claim, item);
  }

  lemma Refers(s: Db)
    requires Inv(s)
    ensures ClaimsRefer(s)
  {
  }

  lemma OwnItem(s: Db, caller: Caller, claim: Id, item: Id)
    requires HoldsOwnItems(s) && (claim, item) in s.claimItems && claim in s.claims && item in s.items
    ensures s.items[item].list == s.claims[claim].list
  {
  }

  // ── Linking and unlinking ─────────────────────────────────────────────────

  /** Unlinking right after a link restores the reimbursements exactly when none was bound
      and pending before: an unlink releases all of them. */
  lemma UnlinkUndoesLinkIffFirst(s: Db, contract: Id, k: Key)
    requires contract in s.contracts && s.contracts[contract].status !in {Finished, FinishedIssuer, FinishedContractor}
    requires k in s.reimbursements && s.reimbursements[k].status.Pending? && s.reimbursements[k].contract.None?
    requires ConfirmAndBind(s, contract, k).Ok?
    ensures var t := ConfirmAndBind(s, contract, k).value;
            && Unlink(t, contract, true, true).Ok?
            && (Unlink(t, contract, true, true).value.reimbursements == s.reimbursements <==> !AnyPendingBound(s, contract))
  {
    hide ConfirmedElsewhere, ExpectedTotal, SupersedeAll;
    var t := ConfirmAndBind(s, contract, k).value;
    var u := Unlink(t, contract, true, true).value;
    forall r | r in s.reimbursements
      ensures r in u.reimbursements
      ensures u.reimbursements[r] == s.reimbursements[r] <==> !(BoundTo(s, r, contract) && s.reimbursements[r].status.Pending?)
    {
    }
    if !AnyPendingBound(s, contract) {
      SameRows(u.reimbursements, s.reimbursements);
    }
  }

  // ── Buying and reversing ──────────────────────────────────────────────────

  /** `u` has the purchases of `s` and one more, which is reversed. */
  ghost predicate OneReversedMore(s: Db, u: Db) {
    && u.nextFulfillment == s.nextFulfillment + 1
    && s.nextFulfillment in u.fulfillments && u.fulfillments[s.nextFulfillment].reversed
    && forall n | n != s.nextFulfillment ::
         && (n in u.fulfillments <==> n in s.fulfillments)
         && (n in s.fulfillments ==> u.fulfillments[n] == s.fulfillments[n])
  }

  lemma ReversedCountsNothing(s: Db, u: Db, i: Id)
    requires FulfillmentsRefer(s) && OneReversedMore(s, u)
    ensures LiveQty(u, i) == LiveQty(s, i) && LiveRows(u, i) == LiveRows(s, i)
  {
    SumOfEqual(s.nextFulfillment, QtyAt(s.fulfillments, i), QtyAt(u.fulfillments, i));
    SameRows(LiveRows(u, i), LiveRows(s, i));
  }

  lemma ReversedCostsNothing(s: Db, u: Db, k: Key)
    requires FulfillmentsRefer(s) && OneReversedMore(s, u) && SameItems(s, u)
    ensures CoveredCost(u, k) == CoveredCost(s, k)
  {
    SumOfEqual(s.nextFulfillment, CoveredCostAt(s, k), CoveredCostAt(u, k));
  }

  /** What a purchase does to the tables that its reversal looks at. */
  lemma BoughtTables(s: Db, caller: Caller, list: Id, item: Id, p: Purchase)
    requires Inv(s) && RecordFulfillment(s, caller, list, item, p).Ok?
    ensures var t, n := RecordFulfillment(s, caller, list, item, p).value, s.nextFulfillment;
            && t.lists == s.lists && list in s.lists && !s.lists[list].status.ListArchived?
            && SameItems(s, t) && item in s.items && s.items[item].list == list
            && t.items == s.items[item := t.items[item]]
            && t.nextFulfillment == n + 1 && n in t.fulfillments && !t.fulfillments[n].reversed
            && t.fulfillments[n].item == item && t.fulfillments[n].hauler == caller.user
            && (forall m | m != n :: (m in t.fulfillments <==> m in s.fulfillments)
                                     && (m in s.fulfillments ==> t.fulfillments[m] == s.fulfillments[m]))
            && var k := KeyFor(s, list, s.items[item].requestedBy, caller.user);
               && k in t.reimbursements && t.reimbursements[k].status.Pending?
               && s.reimbursements.Keys <= t.reimbursements.Keys
               && forall r | r in s.reimbursements && r.list != list :: t.reimbursements[r] == s.reimbursements[r]
  {
    hide Sum, LiveQty, HasActiveClaim, ClaimSide, BindSide, CompleteClaimIfDone, RowAfter, CoveredCost, TipOf, TotalOf;
    var k := RecordChecks(s, caller, list, item, p).value;
    var f := Fulfillment(item, ActiveClaimOf(s, item), caller.user, p.qty, ToCents(p.unitPriceIsk), false);
    var s2 := RecomputeItem(InsertFulfillment(s, f), item, Forbid);
    RecomputeSettlesNothing(InsertFulfillment(s, f), item, Forbid);
    CompletionKeepsItems(s2, f.claim, item);
    assert RecordFulfillment(s, caller, list, item, p).value == UpsertReimbursement(CompleteClaimIfDone(s2, f.claim, item), k);
    FulfillmentsReferOf(s);
  }

  lemma ReversedTables(t: Db, caller: Caller, n: nat)
    requires ReverseFulfillment(t, caller, n).Ok?
    ensures var u := ReverseFulfillment(t, caller, n).value;
            && u.lists == t.lists && u.claims == t.claims && u.claimItems == t.claimItems && SameItems(t, u)
            && u.items == t.items[t.fulfillments[n].item := u.items[t.fulfillments[n].item]]
            && u.nextFulfillment == t.nextFulfillment
            && u.fulfillments == t.fulfillments[n := t.fulfillments[n].(reversed := true)]
            && t.reimbursements.Keys <= u.reimbursements.Keys
            && forall r | r in t.reimbursements && r.list != t.items[t.fulfillments[n].item].list ::
                 u.reimbursements[r] == t.reimbursements[r]
  {
    hide Sum, LiveQty, HasActiveClaim, RowAfter, CoveredCost, TipOf, TotalOf;
    var f := t.fulfillments[n];
    RecomputeSettlesNothing(t.(fulfillments := t.fulfillments[n := f.(reversed := true)]), f.item, Allow);
  }

  /** A buyer may reverse a purchase at once. Then every quantity, all live fulfilments and
      every subtotal are what they were before. */
  lemma ReversalUndoesPurchase(s: Db, caller: Caller, list: Id, item: Id, p: Purchase)
    requires Inv(s) && Balanced(s, list) && RecordFulfillment(s, caller, list, item, p).Ok?
    ensures var t := RecordFulfillment(s, caller, list, item, p).value;
            && ReverseFulfillment(t, caller, s.nextFulfillment).Ok?
            && var u := ReverseFulfillment(t, caller, s.nextFulfillment).value;
               && (forall i | i in s.items ::
                     i in u.items && u.items[i].qtyFulfilled == s.items[i].qtyFulfilled && LiveRows(u, i) == LiveRows(s, i))
               && (forall k | k in s.reimbursements ::
                     k in u.reimbursements && u.reimbursements[k].subtotal == s.reimbursements[k].subtotal)
  {
    hide Sum, LiveQty, LiveRows, CoveredCost, Inv, Balanced, RecordFulfillment, ReverseFulfillment;
    var t, n := RecordFulfillment(s, caller, list, item, p).value, s.nextFulfillment;
    BoughtTables(s, caller, list, item, p);
    OwnPurchaseIsReversible(t, caller, list, item, n);
    RecordFulfillmentKeepsInv(s, caller, list, item, p);
    RecordKeepsBalance(s, caller, list, item, p, list);
    ReversedTables(t, caller, n);
    ReverseFulfillmentKeepsInv(t, caller, n);
    ReverseKeepsBalance(t, caller, n, list);
    var u := ReverseFulfillment(t, caller, n).value;
    FitsOf(s);
    FitsOf(u);
    forall i | i in s.items
      ensures i in u.items && u.items[i].qtyFulfilled == s.items[i].qtyFulfilled && LiveRows(u, i) == LiveRows(s, i)
    {
      ReversedCountsNothing(s, u, i);
    }
    forall k | k in s.reimbursements
      ensures k in u.reimbursements && u.reimbursements[k].subtotal == s.reimbursements[k].subtotal
    {
      if k.list == list {
        ReversedCostsNothing(s, u, k);
        BalancedAt(s, k);
        BalancedAt(u, k);
      }
    }
  }

  lemma OwnPurchaseIsReversible(t: Db, caller: Caller, list: Id, item: Id, n: nat)
    requires n in t.fulfillments && !t.fulfillments[n].reversed && t.fulfillments[n].hauler == caller.user
    requires t.fulfillments[n].item == item && item in t.items && t.items[item].list == list
    requires list in t.lists && !t.lists[list].status.ListArchived?
    requires IsPendingOrNew(t, KeyFor(t, list, t.items[item].requestedBy, caller.user))
    ensures ReverseFulfillment(t, caller, n).Ok?
  {
    hide ReversePurchase;
  }

  predicate IsPendingOrNew(s: Db, k: Key) {
    k in s.reimbursements ==> s.reimbursements[k].status.Pending?
  }

  lemma FitsOf(s: Db)
    requires Inv(s)
    ensures CacheIsLiveSum(s) && StatusesFit(s) && FulfillmentsRefer(s)
  {
  }

  lemma BalancedAt(s: Db, k: Key)
    requires Balanced(s, k.list) && k in s.reimbursements
    ensures s.reimbursements[k].subtotal == CoveredCost(s, k)
  {
  }

  /** A purchase leaves the claims alone, or completes the claim that holds the item. */
  lemma BoughtClaims(s: Db, caller: Caller, list: Id, item: Id, p: Purchase)
    requires Inv(s) && RecordFulfillment(s, caller, list, item, p).Ok?
    ensures var t := RecordFulfillment(s, caller, list, item, p).value;
            && s.items[item].qtyFulfilled < s.items[item].qtyRequested
            && (t.claims == s.claims ==> t.claimItems == s.claimItems)
            && (t.claims != s.claims ==> HasActiveClaim(s.claimItems, item) && !HasActiveClaim(t.claimItems, item))
  {
    hide Sum, LiveQty, OwedSide, BindSide, StatusesFit, CacheIsLiveSum, AllItemsDone, RowAfter, CoveredCost, TipOf, TotalOf,
         KeyFor;
  }

  /** The items themselves come back exactly when the purchase did not complete a claim:
      a completed claim stays completed, and its item is open afterwards. */
  lemma ReversalRestoresItemsIffClaimKept(s: Db, caller: Caller, list: Id, item: Id, p: Purchase)
    requires Inv(s) && Balanced(s, list) && RecordFulfillment(s, caller, list, item, p).Ok?
    ensures var t := RecordFulfillment(s, caller, list, item, p).value;
            && ReverseFulfillment(t, caller, s.nextFulfillment).Ok?
            && (ReverseFulfillment(t, caller, s.nextFulfillment).value.items == s.items <==> t.claims == s.claims)
  {
    hide Sum, LiveQty, LiveRows, CoveredCost, Inv, Balanced, RecordFulfillment, ReverseFulfillment, HasActiveClaim;
    var t, n := RecordFulfillment(s, caller, list, item, p).value, s.nextFulfillment;
    ReversalUndoesPurchase(s, caller, list, item, p);
    BoughtTables(s, caller, list, item, p);
    BoughtClaims(s, caller, list, item, p);
    ReversedTables(t, caller, n);
    RecordFulfillmentKeepsInv(s, caller, list, item, p);
    ReverseFulfillmentKeepsInv(t, caller, n);
    var u := ReverseFulfillment(t, caller, n).value;
    FitsOf(s);
    FitsOf(u);
    ShortStatus(s, item);
    ShortStatus(u, item);
    assert u.items[item] == s.items[item] <==> u.items[item].status == s.items[item].status;
    if u.items[item] == s.items[item] {
      SameRows(u.items, s.items);
    }
  }
}
