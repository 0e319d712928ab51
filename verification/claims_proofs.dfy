/** Claim changes keep the invariant, and the one-active-claim index never fires. */
module ClaimsProofs {
  import opened Domain
  import opened Sums
  import opened Database
  import opened Recompute
  import opened Claims
  import opened Invariant
  import opened RecomputeProofs

  // ── Validation ────────────────────────────────────────────────────────────

  /** As many matching items as identifiers means that every identifier matches and
      that none is repeated. */
  lemma {:induction false} AllMatchAndDistinct(ids: seq<Id>, matching: set<Id>)
    requires forall i | i in matching :: i in ids
    ensures |matching| <= |ids|
    ensures |matching| == |ids| ==> Distinct(ids) && forall i | i in ids :: i in matching
    decreases |ids|
  {
    if ids == [] {
      assert matching == {};
    } else if ids[0] in ids[1..] || ids[0] !in matching {
      AllMatchAndDistinct(ids[1..], matching);
    } else {
      AllMatchAndDistinct(ids[1..], matching - {ids[0]});
      assert ids == [ids[0]] + ids[1..];
    }
  }

  lemma {:induction false} DistinctMatchAll(ids: seq<Id>, matching: set<Id>)
    requires Distinct(ids) && forall i :: i in matching <==> i in ids
    ensures |matching| == |ids|
    decreases |ids|
  {
    if ids == [] {
      assert matching == {};
    } else {
      assert ids == [ids[0]] + ids[1..];
      DistinctMatchAll(ids[1..], matching - {ids[0]});
    }
  }

  lemma ValidatedAreOpen(s: Db, list: Id, ids: seq<Id>)
    requires ValidateClaimable(s, list, ids).Ok?
    ensures Distinct(ids)
    ensures forall i | i in ids :: i in s.items && s.items[i].list == list && s.items[i].status.Open?
  {
    AllMatchAndDistinct(ids, MatchingItems(s, list, ids));
  }

  /** After validation neither the one-active-claim index nor the primary key can refuse
      the insert: open items have no active row, and an active claim has only active rows. */
  lemma IndexNeverFires(s: Db, list: Id, claim: Id, ids: seq<Id>)
    requires ClaimsRefer(s) && ClaimsExclusive(s) && StatusesFit(s)
    requires ValidateClaimable(s, list, ids).Ok?
    requires claim in s.claims ==> s.claims[claim].status.Active?
    ensures InsertClaimItems(s, claim, ids).Ok?
  {
    ValidatedAreOpen(s, list, ids);
    forall i | i in ids
      ensures !HasActiveClaim(s.claimItems, i) && (claim, i) !in s.claimItems
    {
      assert RowFits(s.items[i], HasActiveClaim(s.claimItems, i));
    }
  }

  // ── Keeping the invariant ─────────────────────────────────────────────────

  lemma BulkRowFits(row: ItemRow, claimedBefore: bool, claimed: bool)
    requires RowFits(row, claimedBefore)
    ensures RowFits(BulkRowAfter(row, row.qtyFulfilled, claimed), claimed)
  {
  }

  /** `t` is `s` after a change of claims, with the items in `touched` recomputed. */
  ghost predicate ClaimChange(s: Db, t: Db, touched: set<Id>) {
    t == RecomputeBulk(s.(claims := t.claims, claimItems := t.claimItems), touched)
  }

  lemma ClaimChangeKeepsRows(s: Db, t: Db, touched: set<Id>)
    requires CacheIsLiveSum(s) && ClaimChange(s, t, touched)
    ensures SameItems(s, t) && SettlesNothing(s, t)
    ensures CacheIsLiveSum(t)
  {
    hide Sum, HasActiveClaim;
  }

  lemma ClaimChangeKeepsStatuses(s: Db, t: Db, touched: set<Id>)
    requires CacheIsLiveSum(s) && StatusesFit(s) && ClaimChange(s, t, touched)
    requires forall i | i in s.items && i !in touched ::
               s.items[i].status.Fulfilled() || HasActiveClaim(t.claimItems, i) == HasActiveClaim(s.claimItems, i)
    ensures StatusesFit(t)
  {
    hide Sum, HasActiveClaim;
    forall i | i in t.items
      ensures RowFits(t.items[i], HasActiveClaim(t.claimItems, i))
    {
      var claimedBefore, claimed := HasActiveClaim(s.claimItems, i), HasActiveClaim(t.claimItems, i);
      assert RowFits(s.items[i], claimedBefore);
      BulkRowFits(s.items[i], claimedBefore, claimed);
    }
  }

  lemma ClaimChangeKeepsInv(s: Db, t: Db, touched: set<Id>)
    requires Inv(s) && ClaimChange(s, t, touched)
    requires forall i | i in s.items && i !in touched ::
               s.items[i].status.Fulfilled() || HasActiveClaim(t.claimItems, i) == HasActiveClaim(s.claimItems, i)
    requires ClaimsRefer(t) && ClaimsExclusive(t)
    ensures Inv(t)
  {
    hide ClaimsRefer, ClaimsExclusive, OwedSide, BindSide;
    ClaimChangeKeepsRows(s, t, touched);
    ClaimChangeKeepsStatuses(s, t, touched);
    OwedSideKept(s, t);
    BindSideKept(s, t);
  }

  lemma InsertKeepsExclusive(s: Db, claims: map<Id, ClaimRow>, claim: Id, ids: seq<Id>, t: Db)
    requires ClaimsRefer(s) && ClaimsExclusive(s)
    requires forall c | c in s.claims :: c in claims && claims[c] == s.claims[c]
    requires claim in claims && claims[claim].status.Active?
    requires forall c | c in claims :: claims[c].list in s.lists
    requires forall i | i in ids :: i in s.items && !HasActiveClaim(s.claimItems, i) && (claim, i) !in s.claimItems
    requires t.claims == claims && t.claimItems == s.claimItems + ActiveRows(claim, ids)
    requires t.items.Keys == s.items.Keys && t.lists == s.lists
    ensures ClaimsRefer(t) && ClaimsExclusive(t)
  {
  }

  lemma InsertKeepsOthers(s: Db, claim: Id, ids: seq<Id>, i: Id)
    requires i !in ids
    ensures HasActiveClaim(s.claimItems + ActiveRows(claim, ids), i) == HasActiveClaim(s.claimItems, i)
  {
  }

  lemma InsertKeepsInv(s: Db, claims: map<Id, ClaimRow>, list: Id, claim: Id, ids: seq<Id>)
    requires Inv(s)
    requires forall c | c in s.claims :: c in claims && claims[c] == s.claims[c]
    requires claim in claims && claims[claim].status.Active?
    requires forall c | c in claims :: claims[c].list in s.lists
    requires ValidateClaimable(s, list, ids).Ok?
    ensures InsertClaimItems(s.(claims := claims), claim, ids).Ok?
    ensures Inv(InsertClaimItems(s.(claims := claims), claim, ids).value)
  {
    hide Sum, OwedSide, BindSide, StatusesFit, CacheIsLiveSum;
    IndexNeverFires(s, list, claim, ids);
    ValidatedAreOpen(s, list, ids);
    var t := InsertClaimItems(s.(claims := claims), claim, ids).value;
    assert ClaimChange(s, t, IdSet(ids));
    InsertKeepsExclusive(s, claims, claim, ids, t);
    forall i | i in s.items && i !in IdSet(ids)
      ensures HasActiveClaim(t.claimItems, i) == HasActiveClaim(s.claimItems, i)
    {
      InsertKeepsOthers(s, claim, ids, i);
    }
    ClaimChangeKeepsInv(s, t, IdSet(ids));
  }

  lemma CreateClaimKeepsInv(s: Db, caller: Caller, list: Id, ids: seq<Id>, newClaim: Id)
    requires Inv(s) && CreateClaim(s, caller, list, ids, newClaim).Ok?
    ensures Inv(CreateClaim(s, caller, list, ids, newClaim).value)
  {
    hide Sum, OwedSide, BindSide, StatusesFit, CacheIsLiveSum, InsertClaimItems;
    InsertKeepsInv(s, s.claims[newClaim := ClaimRow(list, caller.user, Active)], list, newClaim, ids);
  }

  lemma AddClaimItemsKeepsInv(s: Db, caller: Caller, claim: Id, ids: seq<Id>)
    requires Inv(s) && AddClaimItems(s, caller, claim, ids).Ok?
    ensures Inv(AddClaimItems(s, caller, claim, ids).value)
  {
    assert s.(claims := s.claims) == s;
    InsertKeepsInv(s, s.claims, s.claims[claim].list, claim, ids);
  }

  lemma RemoveIsClaimChange(s: Db, claim: Id, item: Id)
    requires CacheIsLiveSum(s) && item in s.items
    ensures var cut := s.(claimItems := s.claimItems - {(claim, item)});
            ClaimChange(s, RecomputeItem(cut, item, Forbid), {item})
  {
    hide Sum, HasActiveClaim;
    var cut := s.(claimItems := s.claimItems - {(claim, item)});
    SingleIsBulkRow(cut, item);
    SameRows(RecomputeItem(cut, item, Forbid).items, RecomputeBulk(cut, {item}).items);
  }

  lemma RemovalKeepsOthers(claimItems: map<(Id, Id), bool>, claim: Id, item: Id, i: Id)
    requires i != item
    ensures HasActiveClaim(claimItems - {(claim, item)}, i) == HasActiveClaim(claimItems, i)
  {
  }

  lemma RemovalKeepsExclusive(s: Db, t: Db, p: (Id, Id))
    requires ClaimsRefer(s) && ClaimsExclusive(s)
    requires t.claims == s.claims && t.claimItems == s.claimItems - {p}
    requires t.items.Keys == s.items.Keys && t.lists == s.lists
    ensures ClaimsRefer(t) && ClaimsExclusive(t)
  {
  }

  lemma RemoveClaimItemKeepsInv(s: Db, caller: Caller, claim: Id, item: Id)
    requires Inv(s) && RemoveClaimItem(s, caller, claim, item).Ok?
    ensures Inv(RemoveClaimItem(s, caller, claim, item).value)
  {
    hide Sum, OwedSide, BindSide, ClaimsRefer, ClaimsExclusive, StatusesFit, HasActiveClaim, CacheIsLiveSum, LiveQty;
    var t := RemoveClaimItem(s, caller, claim, item).value;
    assert item in s.items && t == RecomputeItem(s.(claimItems := s.claimItems - {(claim, item)}), item, Forbid);
    RemovalKeepsExclusive(s, t, (claim, item));
    RemoveIsClaimChange(s, claim, item);
    forall i | i in s.items && i != item
      ensures HasActiveClaim(t.claimItems, i) == HasActiveClaim(s.claimItems, i)
    {
      RemovalKeepsOthers(s.claimItems, claim, item, i);
    }
    ClaimChangeKeepsInv(s, t, {item});
  }

  lemma StatusChangeKeepsOthers(s: Db, claim: Id, status: ClaimStatus, i: Id)
    requires claim in s.claims && s.claims[claim].status.Active? && !status.Active?
    requires (claim, i) !in s.claimItems
    ensures HasActiveClaim(SetClaimStatus(s, claim, status).claimItems, i) == HasActiveClaim(s.claimItems, i)
  {
  }

  lemma ReleaseClaimKeepsInv(s: Db, caller: Caller, claim: Id)
    requires Inv(s) && ReleaseClaim(s, caller, claim).Ok?
    ensures Inv(ReleaseClaim(s, caller, claim).value)
  {
    hide Sum, OwedSide, BindSide, StatusesFit, CacheIsLiveSum;
    var t := ReleaseClaim(s, caller, claim).value;
    var touched := ItemsOfClaim(s, claim);
    forall i | i in s.items && i !in touched
      ensures HasActiveClaim(t.claimItems, i) == HasActiveClaim(s.claimItems, i)
    {
      assert (claim, i) !in s.claimItems;
      StatusChangeKeepsOthers(s, claim, Released, i);
    }
    assert ClaimChange(s, t, touched);
    ClaimChangeKeepsInv(s, t, touched);
  }
}
