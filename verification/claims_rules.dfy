/** Who may change a claim, and what claiming, removing and releasing write, in terms of the
    columns alone. */
module ClaimsRules {
  import opened Domain
  import opened Sums
  import opened Database
  import opened Recompute
  import opened Claims
  import opened Invariant
  import opened ClaimsProofs

  /** An active claim on a list that is not archived, asked for by its hauler or an owner. */
  predicate Writable(s: Db, caller: Caller, claim: Id) {
    && claim in s.claims && s.claims[claim].status.Active?
    && (caller.owner || caller.user == s.claims[claim].hauler)
    && s.claims[claim].list in s.lists && !s.lists[s.claims[claim].list].status.ListArchived?
  }

  /** An item that is short of what is requested is claimed or open, as its claim rows say. */
  lemma ShortStatus(s: Db, item: Id)
    requires StatusesFit(s) && item in s.items && s.items[item].qtyFulfilled < s.items[item].qtyRequested
    ensures s.items[item].status == if HasActiveClaim(s.claimItems, item) then Claimed else Open
  {
    hide HasActiveClaim;
    assert RowFits(s.items[item], HasActiveClaim(s.claimItems, item));
  }

  // ── Claim rows and their flags ────────────────────────────────────────────

  /** The claim has the status, its rows are active exactly when the status says so, and so
      an ended claim holds nothing; every other claim and row is as it was. */
  ghost predicate StatusChanged(s: Db, t: Db, claim: Id, status: ClaimStatus)
    requires claim in s.claims
  {
    && t == s.(claims := t.claims, claimItems := t.claimItems)
    && t.claims == s.claims[claim := s.claims[claim].(status := status)]
    && t.claimItems.Keys == s.claimItems.Keys
    && (forall p | p in s.claimItems :: t.claimItems[p] <==> if p.0 == claim then status.Active? else s.claimItems[p])
    && (!status.Active? ==> ClaimsExclusive(t))
  }

  lemma FlaggedRows(claimItems: map<(Id, Id), bool>, claim: Id, active: bool)
    ensures forall p :: p in Flagged(claimItems, claim, active) <==> p in claimItems
    ensures forall p | p in claimItems ::
              Flagged(claimItems, claim, active)[p] <==> if p.0 == claim then active else claimItems[p]
  {
  }

  lemma EndedClaimHoldsNothing(s: Db, t: Db, claim: Id, status: ClaimStatus)
    requires claim in s.claims && ClaimsExclusive(s) && !status.Active?
    requires t.claims == s.claims[claim := s.claims[claim].(status := status)]
    requires forall p :: p in t.claimItems <==> p in s.claimItems
    requires forall p | p in s.claimItems :: t.claimItems[p] <==> p.0 != claim && s.claimItems[p]
    ensures ClaimsExclusive(t)
  {
  }

  lemma FlagsFollowStatus(s: Db, claim: Id, status: ClaimStatus)
    requires claim in s.claims
    ensures ClaimsExclusive(s) ==> StatusChanged(s, SetClaimStatus(s, claim, status), claim, status)
  {
    if !ClaimsExclusive(s) {
      return;
    }
    var t := SetClaimStatus(s, claim, status);
    FlaggedRows(s.claimItems, claim, status.Active?);
    if !status.Active? {
      EndedClaimHoldsNothing(s, t, claim, status);
    }
  }

  /** The rows that a claim change leaves, given which items are held before and after: a short
      item is claimed or open accordingly, and an open one that is full turns bought. */
  ghost predicate RowsFollowClaims(s: Db, t: Db, touched: set<Id>) {
    && t.items.Keys == s.items.Keys
    && forall i | i in s.items ::
         t.items[i] ==
         if i !in touched then s.items[i]
         else if s.items[i].qtyFulfilled < s.items[i].qtyRequested
         then s.items[i].(status := if HasActiveClaim(t.claimItems, i) then Claimed else Open)
         else s.items[i].(status := if s.items[i].status.Open? then Bought else s.items[i].status)
  }

  lemma ChangedRowFollowsClaims(s: Db, t: Db, touched: set<Id>, i: Id)
    requires CacheIsLiveSum(s) && StatusesFit(s) && ClaimChange(s, t, touched) && i in s.items
    ensures i in t.items
    ensures t.items[i] ==
            if i !in touched then s.items[i]
            else if s.items[i].qtyFulfilled < s.items[i].qtyRequested
            then s.items[i].(status := if HasActiveClaim(t.claimItems, i) then Claimed else Open)
            else s.items[i].(status := if s.items[i].status.Open? then Bought else s.items[i].status)
  {
    hide Sum, HasActiveClaim;
    assert RowFits(s.items[i], HasActiveClaim(s.claimItems, i));
  }

  lemma ClaimChangeFollowsClaims(s: Db, t: Db, touched: set<Id>)
    requires CacheIsLiveSum(s) && StatusesFit(s) && ClaimChange(s, t, touched)
    ensures RowsFollowClaims(s, t, touched)
    ensures t == s.(items := t.items, claims := t.claims, claimItems := t.claimItems)
  {
    hide Sum, HasActiveClaim, CacheIsLiveSum, StatusesFit, BulkRow;
    forall i | i in s.items
      ensures i in t.items
      ensures t.items[i] ==
              if i !in touched then s.items[i]
              else if s.items[i].qtyFulfilled < s.items[i].qtyRequested
              then s.items[i].(status := if HasActiveClaim(t.claimItems, i) then Claimed else Open)
              else s.items[i].(status := if s.items[i].status.Open? then Bought else s.items[i].status)
    {
      ChangedRowFollowsClaims(s, t, touched, i);
    }
  }

  // ── Claiming ──────────────────────────────────────────────────────────────

  /** `t` has the claim rows of `s` and an active one of the claim for each identifier, and every
      one of these items is claimed, or bought when it was full. */
  ghost predicate ItemsClaimed(s: Db, t: Db, claim: Id, ids: seq<Id>) {
    && (forall p :: p in t.claimItems <==> p in s.claimItems || (p.0 == claim && p.1 in ids))
    && (forall p | p in t.claimItems :: t.claimItems[p] <==> (p.0 == claim && p.1 in ids) || (p in s.claimItems && s.claimItems[p]))
    && t.items.Keys == s.items.Keys
    && (forall i | i in s.items ::
          t.items[i] ==
          if i !in ids then s.items[i]
          else s.items[i].(status := if s.items[i].qtyFulfilled < s.items[i].qtyRequested then Claimed else Bought))
    && t == s.(items := t.items, claims := t.claims, claimItems := t.claimItems)
  }

  lemma InsertClaims(s: Db, claims: map<Id, ClaimRow>, list: Id, claim: Id, ids: seq<Id>)
    requires CacheIsLiveSum(s) && StatusesFit(s) && ValidateClaimable(s, list, ids).Ok?
    requires InsertClaimItems(s.(claims := claims), claim, ids).Ok?
    ensures ItemsClaimed(s, InsertClaimItems(s.(claims := claims), claim, ids).value, claim, ids)
    ensures InsertClaimItems(s.(claims := claims), claim, ids).value.claims == claims
  {
    hide Sum, CacheIsLiveSum, StatusesFit, HasActiveClaim, BulkRow, ValidateClaimable;
    ValidatedAreOpen(s, list, ids);
    var t := InsertClaimItems(s.(claims := claims), claim, ids).value;
    assert ClaimChange(s, t, IdSet(ids));
    ClaimChangeFollowsClaims(s, t, IdSet(ids));
    InsertedRows(s, claim, ids);
    forall i | i in s.items && i in ids
      ensures HasActiveClaim(t.claimItems, i)
    {
      RowIsActive(t.claimItems, claim, i);
    }
  }

  lemma RowIsActive(claimItems: map<(Id, Id), bool>, claim: Id, item: Id)
    requires (claim, item) in claimItems && claimItems[(claim, item)]
    ensures HasActiveClaim(claimItems, item)
  {
  }

  /** Inserting claim rows is refused exactly for an item that somebody holds, a repeated item or
      one that is already on the claim. */
  lemma InsertSucceedsIff(s: Db, claim: Id, ids: seq<Id>)
    ensures InsertClaimItems(s, claim, ids).Ok? <==>
            && (forall i, j | 0 <= i < j < |ids| :: ids[i] != ids[j])
            && forall i | i in ids :: !HasActiveClaim(s.claimItems, i) && (claim, i) !in s.claimItems
  {
    hide HasActiveClaim, RecomputeBulk;
  }

  lemma InsertedRows(s: Db, claim: Id, ids: seq<Id>)
    ensures var rows := s.claimItems + ActiveRows(claim, ids);
            && (forall p :: p in rows <==> p in s.claimItems || (p.0 == claim && p.1 in ids))
            && (forall p | p in rows :: rows[p] <==> (p.0 == claim && p.1 in ids) || (p in s.claimItems && s.claimItems[p]))
  {
  }

  /** A new claim is active and its hauler is the caller; it holds the items asked for. */
  lemma CreateWrites(s: Db, caller: Caller, list: Id, ids: seq<Id>, newClaim: Id)
    requires Inv(s) && CreateClaim(s, caller, list, ids, newClaim).Ok?
    ensures var t := CreateClaim(s, caller, list, ids, newClaim).value;
            && newClaim !in s.claims && t.claims == s.claims[newClaim := ClaimRow(list, caller.user, Active)]
            && ItemsClaimed(s, t, newClaim, ids)
  {
    hide Sum, OwedSide, BindSide, ClaimsRefer, ClaimsExclusive, StatusesFit, CacheIsLiveSum, ValidateClaimable, InsertClaimItems,
         ItemsClaimed;
    InsertClaims(s, s.claims[newClaim := ClaimRow(list, caller.user, Active)], list, newClaim, ids);
  }

  /** Adding items leaves all claims as they are and makes this one hold the items. */
  lemma AddWrites(s: Db, caller: Caller, claim: Id, ids: seq<Id>)
    requires Inv(s) && AddClaimItems(s, caller, claim, ids).Ok?
    ensures var t := AddClaimItems(s, caller, claim, ids).value;
            t.claims == s.claims && ItemsClaimed(s, t, claim, ids)
  {
    hide Sum, OwedSide, BindSide, ClaimsRefer, ClaimsExclusive, StatusesFit, CacheIsLiveSum, ValidateClaimable, InsertClaimItems,
         ItemsClaimed;
    assert s.(claims := s.claims) == s;
    InsertClaims(s, s.claims, s.claims[claim].list, claim, ids);
  }

  // ── Removing an item ──────────────────────────────────────────────────────

  /** An item may be removed exactly from a writable claim that holds it. */
  lemma RemoveSucceedsIff(s: Db, caller: Caller, claim: Id, item: Id)
    requires ClaimsRefer(s)
    ensures RemoveClaimItem(s, caller, claim, item).Ok? <==> Writable(s, caller, claim) && (claim, item) in s.claimItems
  {
    hide RecomputeItem;
  }

  lemma RemovedRowWasTheOnlyOne(s: Db, claim: Id, item: Id)
    requires ClaimsExclusive(s) && (claim, item) in s.claimItems && s.claimItems[(claim, item)]
    ensures !HasActiveClaim(s.claimItems - {(claim, item)}, item)
  {
  }

  /** The row is gone, nobody holds the item any more, and it is open again if it is short. All
      claims, other rows and other items are as they were. */
  lemma RemoveWrites(s: Db, caller: Caller, claim: Id, item: Id)
    requires Inv(s) && RemoveClaimItem(s, caller, claim, item).Ok?
    ensures var t := RemoveClaimItem(s, caller, claim, item).value;
            && item in s.items && (claim, item) in s.claimItems && s.claimItems[(claim, item)]
            && t == s.(items := t.items, claimItems := s.claimItems - {(claim, item)})
            && !HasActiveClaim(t.claimItems, item)
            && t.items == s.items[item := s.items[item].(
                 status := if s.items[item].qtyFulfilled < s.items[item].qtyRequested then Open else s.items[item].status)]
  {
    hide Sum, LiveQty, OwedSide, BindSide, StatusesFit, CacheIsLiveSum, RecomputedRow, HasActiveClaim, RowsFollowClaims;
    RemoveSucceedsIff(s, caller, claim, item);
    RemovedRowWasTheOnlyOne(s, claim, item);
    RemoveIsClaimChange(s, claim, item);
    var t := RemoveClaimItem(s, caller, claim, item).value;
    ClaimChangeFollowsClaims(s, t, {item});
    HeldIsNotOpen(s, claim, item);
    OnlyRowOf(s, t, item);
  }

  lemma HeldIsNotOpen(s: Db, claim: Id, item: Id)
    requires StatusesFit(s) && item in s.items && (claim, item) in s.claimItems && s.claimItems[(claim, item)]
    ensures !s.items[item].status.Open?
  {
    assert RowFits(s.items[item], HasActiveClaim(s.claimItems, item));
  }

  lemma OnlyRowOf(s: Db, t: Db, item: Id)
    requires RowsFollowClaims(s, t, {item}) && item in s.items && !HasActiveClaim(t.claimItems, item)
    requires !s.items[item].status.Open?
    ensures t.items == s.items[item := s.items[item].(
              status := if s.items[item].qtyFulfilled < s.items[item].qtyRequested then Open else s.items[item].status)]
  {
    hide HasActiveClaim;
  }

  /** Adding the item again restores every table when the item is short, and is a conflict when
      it is full: then it is not open. */
  lemma AddingAgainUndoesRemovalIffShort(s: Db, caller: Caller, claim: Id, item: Id)
    requires Inv(s) && RemoveClaimItem(s, caller, claim, item).Ok?
    requires item in s.items && claim in s.claims ==> s.items[item].list == s.claims[claim].list
    ensures AddClaimItems(RemoveClaimItem(s, caller, claim, item).value, caller, claim, [item]) ==
            if item in s.items && s.items[item].qtyFulfilled < s.items[item].qtyRequested then Ok(s) else Err(Conflict)
  {
    hide Sum, OwedSide, BindSide, StatusesFit, CacheIsLiveSum, RemoveClaimItem, AddClaimItems, ItemsClaimed;
    RemoveWrites(s, caller, claim, item);
    RemoveSucceedsIff(s, caller, claim, item);
    var t := RemoveClaimItem(s, caller, claim, item).value;
    RemoveClaimItemKeepsInv(s, caller, claim, item);
    OneIsClaimable(t, caller, claim, item);
    HeldIsNotOpen(s, claim, item);
    if s.items[item].qtyFulfilled < s.items[item].qtyRequested {
      AddWrites(t, caller, claim, [item]);
      ShortStatus(s, item);
      RowIsActive(s.claimItems, claim, item);
      RestoredTables(s, t, AddClaimItems(t, caller, claim, [item]).value, claim, item);
    }
  }

  lemma OneIsValid(t: Db, list: Id, item: Id)
    requires item in t.items && t.items[item].list == list
    ensures ValidateClaimable(t, list, [item]) == if t.items[item].status.Open? then Ok(()) else Err(Conflict)
  {
    assert MatchingItems(t, list, [item]) == {item};
  }

  lemma OneIsClaimable(t: Db, caller: Caller, claim: Id, item: Id)
    requires Inv(t) && Writable(t, caller, claim)
    requires item in t.items && t.items[item].list == t.claims[claim].list
    ensures AddClaimItems(t, caller, claim, [item]).Ok? <==> t.items[item].status.Open?
    ensures AddClaimItems(t, caller, claim, [item]).Err? ==> AddClaimItems(t, caller, claim, [item]) == Err(Conflict)
  {
    hide Sum, OwedSide, BindSide, ClaimsRefer, ClaimsExclusive, StatusesFit, CacheIsLiveSum, ValidateClaimable, InsertClaimItems;
    OneIsValid(t, t.claims[claim].list, item);
    if t.items[item].status.Open? {
      IndexNeverFires(t, t.claims[claim].list, claim, [item]);
    }
  }

  lemma RestoredTables(s: Db, t: Db, u: Db, claim: Id, item: Id)
    requires t == s.(items := t.items, claimItems := s.claimItems - {(claim, item)})
    requires item in s.items && t.items == s.items[item := s.items[item].(status := Open)]
    requires s.items[item].status.Claimed? && s.items[item].qtyFulfilled < s.items[item].qtyRequested
    requires (claim, item) in s.claimItems && s.claimItems[(claim, item)]
    requires ItemsClaimed(t, u, claim, [item]) && u.claims == t.claims
    ensures u == s
  {
    SameRows(u.items, s.items);
    assert forall p :: p in u.claimItems <==> p in s.claimItems;
    SameRows(u.claimItems, s.claimItems);
  }

  // ── Releasing ─────────────────────────────────────────────────────────────

  /** Exactly a writable claim may be released. */
  lemma ReleaseSucceedsIff(s: Db, caller: Caller, claim: Id)
    ensures ReleaseClaim(s, caller, claim).Ok? <==> Writable(s, caller, claim)
  {
    hide RecomputeBulk, SetClaimStatus;
  }

  /** The claim is released and holds nothing, so that its short items are open again; no other
      claim, row or item changes. */
  lemma ReleaseWrites(s: Db, caller: Caller, claim: Id)
    requires Inv(s) && ReleaseClaim(s, caller, claim).Ok?
    ensures var t := ReleaseClaim(s, caller, claim).value;
            && claim in s.claims && StatusChanged(s, t.(items := s.items), claim, Released)
            && t.items.Keys == s.items.Keys
            && (forall i | i in s.items ::
                  t.items[i] ==
                  if (claim, i) in s.claimItems && s.items[i].qtyFulfilled < s.items[i].qtyRequested
                  then s.items[i].(status := Open) else s.items[i])
            && t == s.(items := t.items, claims := t.claims, claimItems := t.claimItems)
  {
    hide Sum, OwedSide, BindSide, StatusesFit, CacheIsLiveSum, BulkRow, HasActiveClaim, SetClaimStatus, ClaimsExclusive;
    FlagsFollowStatus(s, claim, Released);
    var u := SetClaimStatus(s, claim, Released);
    var t := ReleaseClaim(s, caller, claim).value;
    assert ClaimChange(s, t, ItemsOfClaim(s, claim));
    ClaimChangeFollowsClaims(s, t, ItemsOfClaim(s, claim));
    forall i | i in s.items
      ensures i in ItemsOfClaim(s, claim) <==> (claim, i) in s.claimItems
      ensures (claim, i) in s.claimItems ==> !s.items[i].status.Open? && !HasActiveClaim(t.claimItems, i)
    {
      HeldByClaim(s, claim, i);
      if (claim, i) in s.claimItems {
        ReleasedHoldsNothing(s, u, claim, i);
        HeldIsNotOpen(s, claim, i);
      }
    }
  }

  lemma HeldByClaim(s: Db, claim: Id, i: Id)
    ensures i in ItemsOfClaim(s, claim) <==> (claim, i) in s.claimItems
  {
  }

  lemma ReleasedHoldsNothing(s: Db, t: Db, claim: Id, i: Id)
    requires ClaimsExclusive(s) && claim in s.claims && s.claims[claim].status.Active?
    requires (claim, i) in s.claimItems && StatusChanged(s, t, claim, Released)
    ensures s.claimItems[(claim, i)] && !HasActiveClaim(t.claimItems, i)
  {
  }
}
