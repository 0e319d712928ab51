/** What recomputing keeps, and why the set-based form equals single recomputes. */
module RecomputeProofs {
  import opened Domain
  import opened Database
  import opened Sums
  import opened Recompute
  import opened Invariant

  /** `t` has the items of `s`, each with its list, requester and requested quantity. */
  ghost predicate SameItems(s: Db, t: Db) {
    && t.items.Keys == s.items.Keys
    && forall i | i in s.items ::
         && t.items[i].list == s.items[i].list
         && t.items[i].requestedBy == s.items[i].requestedBy
         && t.items[i].qtyRequested == s.items[i].qtyRequested
  }

  ghost predicate SettlesNothing(s: Db, t: Db)
    requires SameItems(s, t)
  {
    forall i | i in s.items && t.items[i].status.Settled? :: s.items[i].status.Settled?
  }

  lemma SettledKept(s: Db, t: Db)
    requires t == s.(items := t.items, claims := t.claims, claimItems := t.claimItems)
    requires SameItems(s, t) && SettlesNothing(s, t)
    requires SettledIsPaid(s)
    ensures SettledIsPaid(t)
  {
  }

  lemma OwedKept(s: Db, t: Db)
    requires t == s.(items := t.items, claims := t.claims, claimItems := t.claimItems)
    requires SameItems(s, t)
    requires EveryPurchaseOwed(s)
    ensures EveryPurchaseOwed(t)
  {
  }

  /** The owed side of the invariant does not look at claims, and looks at statuses
      only to see which items are settled. */
  lemma OwedSideKept(s: Db, t: Db)
    requires OwedSide(s)
    requires t == s.(items := t.items, claims := t.claims, claimItems := t.claimItems)
    requires SameItems(s, t) && SettlesNothing(s, t)
    ensures OwedSide(t)
  {
    SettledKept(s, t);
    OwedKept(s, t);
  }

  lemma ClaimTablesKept(s: Db, t: Db)
    requires ClaimsRefer(s) && ClaimsExclusive(s)
    requires t.claims == s.claims && t.claimItems == s.claimItems
    requires s.items.Keys <= t.items.Keys && s.lists.Keys <= t.lists.Keys
    ensures ClaimsRefer(t) && ClaimsExclusive(t)
  {
  }

  lemma ClaimSideKept(s: Db, t: Db)
    requires ClaimSide(s)
    requires t.items == s.items && t.claims == s.claims && t.claimItems == s.claimItems
    requires t.fulfillments == s.fulfillments && t.nextFulfillment == s.nextFulfillment
    requires s.lists.Keys <= t.lists.Keys
    ensures ClaimSide(t)
  {
  }

  lemma BindSideKept(s: Db, t: Db)
    requires BindSide(s)
    requires t.reimbursements == s.reimbursements && t.suggestions == s.suggestions
    requires s.contracts.Keys <= t.contracts.Keys
    ensures BindSide(t)
  {
  }

  /** In a database whose cached quantities are right, a single recompute that may not
      demote writes exactly the row that the set-based statement writes. */
  lemma SingleIsBulkRow(s: Db, item: Id)
    requires CacheIsLiveSum(s) && item in s.items
    ensures RecomputedRow(s, item, Forbid) == BulkRow(s, item)
  {
  }

  lemma RecomputeKeepsCache(s: Db, item: Id)
    requires CacheIsLiveSum(s) && item in s.items
    ensures CacheIsLiveSum(RecomputeItem(s, item, Forbid))
  {
  }

  lemma BulkRowAfterSingle(s: Db, item: Id, rest: set<Id>, i: Id)
    requires item in s.items && s.items[item].qtyFulfilled == LiveQty(s, item) && i in s.items
    ensures RecomputeBulk(RecomputeItem(s, item, Forbid), rest).items[i] == RecomputeBulk(s, rest + {item}).items[i]
  {
  }

  lemma BulkAfterSingle(s: Db, item: Id, rest: set<Id>)
    requires item in s.items && s.items[item].qtyFulfilled == LiveQty(s, item)
    ensures RecomputeBulk(RecomputeItem(s, item, Forbid), rest) == RecomputeBulk(s, rest + {item})
  {
    hide Sum, HasActiveClaim, CacheIsLiveSum;
    var left, right := RecomputeBulk(RecomputeItem(s, item, Forbid), rest), RecomputeBulk(s, rest + {item});
    forall i | i in s.items
      ensures left.items[i] == right.items[i]
    {
      BulkRowAfterSingle(s, item, rest, i);
    }
    SameRows(left.items, right.items);
  }

  lemma BulkSkipsMissing(s: Db, rest: set<Id>, all: set<Id>)
    requires forall i | i in s.items :: i in rest <==> i in all
    ensures RecomputeBulk(s, rest) == RecomputeBulk(s, all)
  {
  }

  lemma IdSetOfCons(ids: seq<Id>)
    requires ids != []
    ensures IdSet(ids) == IdSet(ids[1..]) + {ids[0]}
  {
  }

  /** The set-based recompute gives the item table that single recomputes give, in
      whatever order and however often the identifiers are visited. */
  lemma {:induction false} BulkEqualsEach(s: Db, ids: seq<Id>)
    requires CacheIsLiveSum(s)
    ensures RecomputeEach(s, ids) == RecomputeBulk(s, IdSet(ids))
    decreases |ids|
  {
    if ids == [] {
      SameRows(RecomputeBulk(s, IdSet(ids)).items, s.items);
    } else {
      IdSetOfCons(ids);
      if ids[0] in s.items {
        RecomputeKeepsCache(s, ids[0]);
        BulkEqualsEach(RecomputeItem(s, ids[0], Forbid), ids[1..]);
        BulkAfterSingle(s, ids[0], IdSet(ids[1..]));
      } else {
        BulkEqualsEach(s, ids[1..]);
        BulkSkipsMissing(s, IdSet(ids[1..]), IdSet(ids));
      }
    }
  }
}
