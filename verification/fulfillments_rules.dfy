/** Who may buy, reverse and deliver, and what these write, in terms of the columns alone. */
module FulfillmentsRules {
  import opened Domain
  import opened Sums
  import opened Money
  import opened Database
  import opened Recompute
  import opened Fulfillments
  import opened Invariant
  import opened RecomputeProofs
  import opened FulfillmentsProofs
  import opened ClaimsRules

  // ── Sums after one row changed ────────────────────────────────────────────

  function LiveQtyOf(f: Fulfillment): int {
    if f.reversed then 0 else f.qty
  }

  function LiveCostOf(f: Fulfillment): int {
    if f.reversed then 0 else f.qty * f.unitPrice
  }

  /** Inserting fulfilment `j` adds its quantity to what is live, and reversing it takes it away. */
  lemma LiveQtyAfterWrite(s: Db, t: Db, j: nat)
    requires RowWritten(s, t, j) && FulfillmentsRefer(s)
    requires j in s.fulfillments ==> s.fulfillments[j].item == t.fulfillments[j].item
    ensures var item := t.fulfillments[j].item;
            LiveQty(t, item) == LiveQty(s, item) + LiveQtyOf(t.fulfillments[j])
                                - (if j in s.fulfillments then LiveQtyOf(s.fulfillments[j]) else 0)
  {
    hide Sum;
    var item := t.fulfillments[j].item;
    var before, after := QtyAt(s.fulfillments, item), QtyAt(t.fulfillments, item);
    assert forall n: nat | n != j :: before(n) == after(n);
    WriteChangesSum(s, t, j, before, after);
  }

  lemma WriteChangesSum(s: Db, t: Db, j: nat, before: nat -> int, after: nat -> int)
    requires RowWritten(s, t, j)
    requires forall n: nat | n != j :: before(n) == after(n)
    ensures Sum(t.nextFulfillment, after) ==
            Sum(s.nextFulfillment, before) + after(j) - (if j < s.nextFulfillment then before(j) else 0)
  {
    if j == s.nextFulfillment {
      SumOfEqual(j, before, after);
    } else {
      SumOfUpdate(s.nextFulfillment, before, after, j);
    }
  }

  /** The same for what a reimbursement has to cover. */
  lemma CostAfterWrite(s: Db, t: Db, j: nat, k: Key)
    requires RowWritten(s, t, j) && FulfillmentsRefer(s) && SameItems(s, t)
    requires t.fulfillments[j].item in s.items && InScope(k, s.items[t.fulfillments[j].item])
    requires t.fulfillments[j].hauler == k.hauler
    requires j in s.fulfillments ==> s.fulfillments[j].item == t.fulfillments[j].item
                                     && s.fulfillments[j].hauler == k.hauler
    ensures CoveredCost(t, k) == CoveredCost(s, k) + LiveCostOf(t.fulfillments[j])
                                 - (if j in s.fulfillments then LiveCostOf(s.fulfillments[j]) else 0)
  {
    hide Sum;
    var before, after := CoveredCostAt(s, k), CoveredCostAt(t, k);
    forall n: nat | n != j
      ensures before(n) == after(n)
    {
      CoversSame(s, t, j, k, n);
    }
    WriteChangesSum(s, t, j, before, after);
  }

  lemma CoversSame(s: Db, t: Db, j: nat, k: Key, n: nat)
    requires RowWritten(s, t, j) && SameItems(s, t) && n != j
    ensures CoveredCostAt(s, k)(n) == CoveredCostAt(t, k)(n)
  {
  }

  // ── Buying ────────────────────────────────────────────────────────────────

  /** The reimbursement that pays a hauler for the item: the corporation that pays for the list
      owes it, or else the user who asked for the item. */
  function DebtFor(s: Db, item: Id, hauler: Id): Key
    requires item in s.items && s.items[item].list in s.lists
  {
    var row := s.items[item];
    Key(row.list,
        match s.lists[row.list].payerCorp
          case None => UserPrincipal(row.requestedBy)
          case Some(corp) => CorpPrincipal(corp),
        hauler)
  }

  predicate IsSettled(s: Db, k: Key) {
    k in s.reimbursements && s.reimbursements[k].status.Paid?
  }

  /** The list is not archived, the request makes sense, what was bought and not reversed
      leaves room for it, and the reimbursement that is to pay for it is not settled. */
  ghost predicate PurchaseFits(s: Db, caller: Caller, list: Id, item: Id, p: Purchase) {
    && list in s.lists && !s.lists[list].status.ListArchived?
    && 0 < p.qty <= 10_000_000 && p.unitPriceIsk >= 0.0 && p.placeGiven && p.placeValid
    && item in s.items && s.items[item].list == list
    && LiveQty(s, item) + p.qty <= s.items[item].qtyRequested
    && !IsSettled(s, DebtFor(s, item, caller.user))
  }

  /** Whoever holds an active claim on the item is the caller, unless the caller is an owner, and
      a claim that the request names is that one. */
  ghost predicate ClaimAllows(s: Db, caller: Caller, item: Id, p: Purchase) {
    forall c | (c, item) in s.claimItems && s.claimItems[(c, item)] && c in s.claims ::
      && (caller.owner || s.claims[c].hauler == caller.user)
      && (p.claim.None? || p.claim == Some(c))
  }

  /** The holder is the claim of the one active row, if there is one. */
  lemma HolderIsActiveRow(s: Db, item: Id)
    requires ClaimsExclusive(s)
    ensures var holder := ActiveClaimOf(s, item);
            && (forall c | (c, item) in s.claimItems && s.claimItems[(c, item)] :: holder == Some(c))
            && (holder.Some? ==> (holder.value, item) in s.claimItems && s.claimItems[(holder.value, item)])
  {
    if HasActiveClaim(s.claimItems, item) {
      var p :| p in s.claimItems && p.1 == item && s.claimItems[p] && ActiveClaimOf(s, item) == Some(p.0);
      assert p == (p.0, item);
    }
  }

  lemma ChecksPassIffFits(s: Db, caller: Caller, list: Id, item: Id, p: Purchase)
    requires CacheIsLiveSum(s)
    ensures RecordChecks(s, caller, list, item, p).Ok? <==> PurchaseFits(s, caller, list, item, p)
    ensures PurchaseFits(s, caller, list, item, p) ==>
              RecordChecks(s, caller, list, item, p).value == DebtFor(s, item, caller.user)
  {
    hide Sum;
  }

  /** A purchase succeeds exactly if it fits and the claim on the item allows it: the hauler of an
      active claim, and nobody else but an owner, buys what it holds. */
  lemma RecordSucceedsIff(s: Db, caller: Caller, list: Id, item: Id, p: Purchase)
    requires Inv(s)
    ensures RecordFulfillment(s, caller, list, item, p).Ok? <==>
            PurchaseFits(s, caller, list, item, p) && ClaimAllows(s, caller, item, p)
  {
    hide Sum, LiveQty, OwedSide, BindSide, StatusesFit, CacheIsLiveSum, PurchaseFits, RecordChecks, ActiveClaimOf, RecordBought;
    ChecksPassIffFits(s, caller, list, item, p);
    HolderIsActiveRow(s, item);
  }

  /** What the caller submitted, at the nearest cent, under the claim that holds the item. */
  ghost predicate IsPurchase(s: Db, f: Fulfillment, caller: Caller, item: Id, p: Purchase) {
    && f.item == item && f.hauler == caller.user && f.qty == p.qty && !f.reversed
    && IsNearest(f.unitPrice, p.unitPriceIsk * 100.0)
    && (forall c | (c, item) in s.claimItems && s.claimItems[(c, item)] :: f.claim == Some(c))
    && (f.claim.Some? ==> (f.claim.value, item) in s.claimItems && s.claimItems[(f.claim.value, item)])
  }

  /** The row that `RecordFulfillment` inserts. */
  ghost function Inserted(s: Db, caller: Caller, item: Id, p: Purchase): Fulfillment
    requires p.unitPriceIsk >= 0.0
  {
    Fulfillment(item, ActiveClaimOf(s, item), caller.user, p.qty, ToCents(p.unitPriceIsk), false)
  }

  lemma PriceIsGiven(s: Db, caller: Caller, list: Id, item: Id, p: Purchase)
    requires PurchaseFits(s, caller, list, item, p)
    ensures p.unitPriceIsk >= 0.0
  {
  }

  lemma RecordStages(s: Db, caller: Caller, list: Id, item: Id, p: Purchase)
    requires Inv(s) && RecordFulfillment(s, caller, list, item, p).Ok?
    ensures PurchaseFits(s, caller, list, item, p)
    ensures var f := Inserted(s, caller, item, p);
            && RecordFulfillment(s, caller, list, item, p).value == RecordBought(s, DebtFor(s, item, caller.user), item, f)
            && IsPurchase(s, f, caller, item, p)
  {
    hide Sum, LiveQty, OwedSide, BindSide, StatusesFit, CacheIsLiveSum, PurchaseFits, RecordChecks, ActiveClaimOf, RecordBought;
    ChecksPassIffFits(s, caller, list, item, p);
    HolderIsActiveRow(s, item);
    PriceIsGiven(s, caller, list, item, p);
    RoundsToNearest(p.unitPriceIsk * 100.0);
  }

  /** The database before the reimbursement is written: the row is inserted, the item
      recomputed, and its claim completed. */
  ghost function AfterPurchase(s: Db, f: Fulfillment): Db
    requires f.item in s.items
  {
    CompleteClaimIfDone(RecomputeItem(InsertFulfillment(s, f), f.item, Forbid), f.claim, f.item)
  }

  lemma BoughtTables(s: Db, f: Fulfillment)
    requires f.item in s.items
    ensures var u := AfterPurchase(s, f);
            && u.fulfillments == s.fulfillments[s.nextFulfillment := f] && u.nextFulfillment == s.nextFulfillment + 1
            && u.lists == s.lists && u.reimbursements == s.reimbursements
            && u.contracts == s.contracts && u.suggestions == s.suggestions
            && u.items == RecomputeItem(InsertFulfillment(s, f), f.item, Forbid).items
            && SameItems(s, u)
  {
    hide Sum, RowAfter, AllItemsDone;
    RecomputeSettlesNothing(InsertFulfillment(s, f), f.item, Forbid);
  }

  /** What a purchase writes about the item: its quantity goes up by what was bought, and it turns
      bought exactly when that makes it full. */
  ghost predicate ItemBought(s: Db, t: Db, item: Id, qty: int)
    requires item in s.items
  {
    t.items == s.items[item :=
      s.items[item].(qtyFulfilled := s.items[item].qtyFulfilled + qty,
                     status := if s.items[item].qtyFulfilled + qty >= s.items[item].qtyRequested then Bought
                               else s.items[item].status)]
  }

  lemma ShortStatus(s: Db, item: Id)
    requires StatusesFit(s) && item in s.items && s.items[item].qtyFulfilled < s.items[item].qtyRequested
    ensures s.items[item].status == if HasActiveClaim(s.claimItems, item) then Claimed else Open
  {
    hide HasActiveClaim;
    assert RowFits(s.items[item], HasActiveClaim(s.claimItems, item));
  }

  lemma RecomputedAfterPurchase(s: Db, f: Fulfillment)
    requires ClaimSide(s) && FulfillmentsRefer(s) && f.item in s.items && !f.reversed
    requires s.items[f.item].qtyFulfilled < s.items[f.item].qtyRequested
    ensures ItemBought(s, RecomputeItem(InsertFulfillment(s, f), f.item, Forbid), f.item, f.qty)
  {
    hide Sum, LiveQty, HasActiveClaim, ClaimsRefer, ClaimsExclusive;
    var s1 := InsertFulfillment(s, f);
    assert RowWritten(s, s1, s.nextFulfillment);
    LiveQtyAfterWrite(s, s1, s.nextFulfillment);
    ShortStatus(s, f.item);
  }

  /** A purchase inserts what the caller submitted and counts it on its item, and touches no other
      fulfilment, item, list, contract or suggestion. */
  lemma RecordWrites(s: Db, caller: Caller, list: Id, item: Id, p: Purchase)
    requires Inv(s) && RecordFulfillment(s, caller, list, item, p).Ok?
    ensures var t, n := RecordFulfillment(s, caller, list, item, p).value, s.nextFulfillment;
            && item in s.items && n in t.fulfillments && IsPurchase(s, t.fulfillments[n], caller, item, p)
            && t.fulfillments == s.fulfillments[n := t.fulfillments[n]] && t.nextFulfillment == n + 1
            && ItemBought(s, t, item, p.qty)
            && t == s.(items := t.items, fulfillments := t.fulfillments, nextFulfillment := t.nextFulfillment,
                       claims := t.claims, claimItems := t.claimItems, reimbursements := t.reimbursements)
  {
    hide Sum, LiveQty, HasActiveClaim, ClaimsRefer, ClaimsExclusive, BindSide, ActiveClaimOf, IsPurchase, RecomputeItem,
         CompleteClaimIfDone, UpsertReimbursement, RecordFulfillment, RecordChecks;
    RecordStages(s, caller, list, item, p);
    var f := Inserted(s, caller, item, p);
    BoughtTables(s, f);
    RecomputedAfterPurchase(s, f);
    UpsertWrites(AfterPurchase(s, f), DebtFor(s, item, caller.user));
  }

  // ── Completing claims ─────────────────────────────────────────────────────

  /** Every item on the claim is bought, delivered or settled. */
  ghost predicate NothingLeftToBuy(s: Db, claim: Id) {
    forall i | (claim, i) in s.claimItems && i in s.items ::
      s.items[i].status.Bought? || s.items[i].status.Delivered? || s.items[i].status.Settled?
  }

  lemma DoneIffNothingLeft(s: Db, claim: Id)
    ensures AllItemsDone(s, claim) <==> NothingLeftToBuy(s, claim)
  {
    if NothingLeftToBuy(s, claim) {
      forall p | p in s.claimItems && p.0 == claim && p.1 in s.items
        ensures s.items[p.1].status.Fulfilled()
      {
        assert (claim, p.1) in s.claimItems;
      }
    }
  }

  /** The claim ends up complete exactly if it was, or was active with nothing left to buy when
      the item was found bought or settled; a claim completed now holds nothing any more. */
  ghost predicate CompletionChecked(s: Db, t: Db, claim: Option<Id>, item: Id)
    requires item in s.items
  {
    if claim.None? || claim.value !in s.claims then t == s else
      var was, bought := s.claims[claim.value].status, s.items[item].status.Bought? || s.items[item].status.Settled?;
      && claim.value in t.claims
      && (t.claims[claim.value].status.Completed? <==>
            was.Completed? || (was.Active? && bought && NothingLeftToBuy(s, claim.value)))
      && (t != s ==> t.claims[claim.value].status.Completed? && StatusChanged(s, t, claim.value, Completed))
  }

  lemma CompletesIffDone(s: Db, claim: Option<Id>, item: Id)
    requires item in s.items && ClaimsExclusive(s)
    ensures CompletionChecked(s, CompleteClaimIfDone(s, claim, item), claim, item)
  {
    hide AllItemsDone, NothingLeftToBuy;
    if claim.Some? && claim.value in s.claims {
      DoneIffNothingLeft(s, claim.value);
      FlagsFollowStatus(s, claim.value, Completed);
    }
  }

  /** What completing the claim that holds the item does to claim `c` and its rows. */
  lemma CompletionOf(s: Db, claim: Option<Id>, item: Id, c: Id)
    requires ClaimsExclusive(s) && item in s.items && !s.items[item].status.Settled? && c in s.claims
    requires claim == Some(c) <==> (c, item) in s.claimItems && s.claimItems[(c, item)]
    ensures var t := CompleteClaimIfDone(s, claim, item);
            && t.claims.Keys == s.claims.Keys && t.claimItems.Keys == s.claimItems.Keys
            && var done := claim == Some(c) && s.items[item].status.Bought? && NothingLeftToBuy(s, c);
               && t.claims[c] == (if done then s.claims[c].(status := Completed) else s.claims[c])
               && forall i | (c, i) in s.claimItems :: t.claimItems[(c, i)] <==> !done && s.claimItems[(c, i)]
  {
    hide NothingLeftToBuy, CompleteClaimIfDone;
    CompletesIffDone(s, claim, item);
    if claim == Some(c) {
      assert s.claims[c].status.Active?;
    }
  }

  /** A purchase completes the claim that holds its item exactly when it leaves nothing on that
      claim to buy; a completed claim holds nothing, and all others are as they were. */
  lemma RecordCompletes(s: Db, caller: Caller, list: Id, item: Id, p: Purchase, c: Id)
    requires Inv(s) && RecordFulfillment(s, caller, list, item, p).Ok? && c in s.claims
    ensures var t := RecordFulfillment(s, caller, list, item, p).value;
            && t.claims.Keys == s.claims.Keys && t.claimItems.Keys == s.claimItems.Keys
            && var done := (c, item) in s.claimItems && s.claimItems[(c, item)] && item in t.items && t.items[item].status.Bought?
                           && NothingLeftToBuy(s.(items := t.items), c);
               && t.claims[c] == (if done then s.claims[c].(status := Completed) else s.claims[c])
               && forall i | (c, i) in s.claimItems :: t.claimItems[(c, i)] <==> !done && s.claimItems[(c, i)]
  {
    hide Sum, LiveQty, HasActiveClaim, OwedSide, BindSide, StatusesFit, CacheIsLiveSum, ClaimsExclusive, ActiveClaimOf, RowAfter,
         CompleteClaimIfDone, UpsertReimbursement, RecordFulfillment, RecordChecks, NothingLeftToBuy;
    RecordStages(s, caller, list, item, p);
    RecordWrites(s, caller, list, item, p);
    var f := Inserted(s, caller, item, p);
    var u := InsertFulfillment(s, f);
    var r := RecomputeItem(u, item, Forbid);
    BoughtTables(s, f);
    UpsertWrites(AfterPurchase(s, f), DebtFor(s, item, caller.user));
    ExclusiveKept(s, r);
    NotYetSettled(s, caller, list, item, p);
    CompletionOf(r, f.claim, item, c);
    NothingLeftSame(r, s.(items := r.items), c);
  }

  /** No purchase adds or removes a claim or a claim row, or moves a claim to another list. */
  lemma RecordKeepsClaims(s: Db, caller: Caller, list: Id, item: Id, p: Purchase)
    requires Inv(s) && RecordFulfillment(s, caller, list, item, p).Ok?
    ensures var t := RecordFulfillment(s, caller, list, item, p).value;
            && t.claims.Keys == s.claims.Keys && t.claimItems.Keys == s.claimItems.Keys
            && forall c | c in s.claims :: t.claims[c] == s.claims[c].(status := t.claims[c].status)
  {
    hide Sum, LiveQty, HasActiveClaim, OwedSide, BindSide, StatusesFit, CacheIsLiveSum, ClaimsExclusive, ActiveClaimOf, RowAfter,
         CompleteClaimIfDone, UpsertReimbursement, RecordFulfillment, RecordChecks, PurchaseFits;
    RecordStages(s, caller, list, item, p);
    PurchaseIsOn(s, caller, list, item, p);
    var f := Inserted(s, caller, item, p);
    BoughtTables(s, f);
    UpsertKeepsClaims(AfterPurchase(s, f), DebtFor(s, item, caller.user));
    CompletionKeepsClaims(RecomputeItem(InsertFulfillment(s, f), item, Forbid), f.claim, item);
  }

  lemma PurchaseIsOn(s: Db, caller: Caller, list: Id, item: Id, p: Purchase)
    requires PurchaseFits(s, caller, list, item, p)
    ensures item in s.items && list in s.lists && s.items[item].list == list && p.unitPriceIsk >= 0.0
  {
  }

  lemma UpsertKeepsClaims(s: Db, k: Key)
    ensures k.list in s.lists ==>
              var t := UpsertReimbursement(s, k); t.claims == s.claims && t.claimItems == s.claimItems
  {
    hide CoveredCost, TipOf, TotalOf;
  }

  lemma CompletionKeepsClaims(s: Db, claim: Option<Id>, item: Id)
    requires item in s.items
    ensures var t := CompleteClaimIfDone(s, claim, item);
            && t.claims.Keys == s.claims.Keys && t.claimItems.Keys == s.claimItems.Keys
            && forall c | c in s.claims :: t.claims[c] == s.claims[c].(status := t.claims[c].status)
  {
    hide AllItemsDone;
  }

  lemma ExclusiveKept(s: Db, t: Db)
    requires ClaimsExclusive(s) && t.claims == s.claims && t.claimItems == s.claimItems
    ensures ClaimsExclusive(t)
  {
  }

  lemma NothingLeftSame(s: Db, t: Db, c: Id)
    requires t.claimItems == s.claimItems && t.items == s.items
    ensures NothingLeftToBuy(t, c) == NothingLeftToBuy(s, c)
  {
  }

  lemma NotYetSettled(s: Db, caller: Caller, list: Id, item: Id, p: Purchase)
    requires Inv(s) && RecordFulfillment(s, caller, list, item, p).Ok?
    ensures var t := RecordFulfillment(s, caller, list, item, p).value;
            item in t.items && !t.items[item].status.Settled?
  {
    hide Sum, LiveQty, HasActiveClaim, OwedSide, BindSide, ClaimsRefer, ClaimsExclusive, RecordFulfillment, IsPurchase;
    RecordWrites(s, caller, list, item, p);
    RecordStages(s, caller, list, item, p);
    assert s.items[item].qtyFulfilled < s.items[item].qtyRequested;
    ShortStatus(s, item);
  }

  // ── Reimbursements ────────────────────────────────────────────────────────

  /** `t` is `s` with the pending row of `k` covering `cost` at the rate of its list. */
  ghost predicate Owes(s: Db, t: Db, k: Key, cost: int) {
    && k in t.reimbursements && t.reimbursements == s.reimbursements[k := t.reimbursements[k]]
    && k.list in s.lists
    && var r := t.reimbursements[k];
       && r.subtotal == cost && AmountsAtRate(r.subtotal, r.tip, r.total, s.lists[k.list].tipPct)
       && r.status.Pending?
       && (if k in s.reimbursements
           then r.settledBy == s.reimbursements[k].settledBy && r.contract == s.reimbursements[k].contract
           else r.settledBy.None? && r.contract.None?)
  }

  /** Writing a reimbursement that is not settled makes it what it covers, with the tip to the
      nearest cent; a settled one is left alone. */
  lemma UpsertWrites(s: Db, k: Key)
    requires k.list in s.lists
    ensures var t := UpsertReimbursement(s, k);
            && t == s.(reimbursements := t.reimbursements)
            && (k in s.reimbursements && s.reimbursements[k].status.Paid? ==> t == s)
            && (!(k in s.reimbursements && s.reimbursements[k].status.Paid?) && FulfillmentsRefer(s)
                && s.lists[k.list].tipPct >= 0.0 ==>
                  Owes(s, t, k, CoveredCost(s, k)))
  {
    hide Sum, TipOf, TotalOf, AmountsAtRate;
    if FulfillmentsRefer(s) && s.lists[k.list].tipPct >= 0.0 {
      CoveredCostNonNegative(s, k);
      AmountsAreAtRate(CoveredCost(s, k), s.lists[k.list].tipPct);
    }
  }

  /** A purchase adds what it costs to the reimbursement that pays for it. */
  lemma RecordOwes(s: Db, caller: Caller, list: Id, item: Id, p: Purchase)
    requires Inv(s) && RecordFulfillment(s, caller, list, item, p).Ok?
    ensures var t, n := RecordFulfillment(s, caller, list, item, p).value, s.nextFulfillment;
            && n in t.fulfillments && list in s.lists && item in s.items
            && s.items[item].list == list
            && var k := DebtFor(s, item, caller.user);
               Owes(s, t, k, CoveredCost(s, k) + p.qty * t.fulfillments[n].unitPrice)
  {
    hide Sum, LiveQty, HasActiveClaim, ClaimSide, BindSide, ActiveClaimOf, IsPurchase, RecomputeItem, CoveredCost,
         CompleteClaimIfDone, UpsertReimbursement, RecordFulfillment, RecordChecks, Owes, EveryPurchaseOwed, SettledIsPaid;
    RecordStages(s, caller, list, item, p);
    var f := Inserted(s, caller, item, p);
    var u, k := AfterPurchase(s, f), DebtFor(s, item, caller.user);
    BoughtTables(s, f);
    UpsertWrites(u, k);
    assert RowWritten(s, u, s.nextFulfillment);
    CostAfterWrite(s, u, s.nextFulfillment, k);
    assert Owes(u, UpsertReimbursement(u, k), k, CoveredCost(u, k));
    OwesFrom(s, u, UpsertReimbursement(u, k), k, CoveredCost(u, k));
  }

  lemma OwesFrom(s: Db, u: Db, t: Db, k: Key, cost: int)
    requires Owes(u, t, k, cost) && u.reimbursements == s.reimbursements && u.lists == s.lists
    ensures Owes(s, t, k, cost)
  {
  }

  // ── Reversing ─────────────────────────────────────────────────────────────

  /** A live fulfilment may be reversed by its hauler or an owner, on a list that is not archived
      and while the reimbursement that pays for it is not settled. */
  lemma ReverseSucceedsIff(s: Db, caller: Caller, n: nat)
    requires Inv(s)
    ensures ReverseFulfillment(s, caller, n).Ok? <==>
            && n in s.fulfillments && !s.fulfillments[n].reversed
            && (caller.owner || caller.user == s.fulfillments[n].hauler)
            && var item := s.fulfillments[n].item;
               && item in s.items && s.items[item].list in s.lists && !s.lists[s.items[item].list].status.ListArchived?
               && !IsSettled(s, DebtFor(s, item, s.fulfillments[n].hauler))
    ensures n in s.fulfillments && !s.fulfillments[n].reversed && !caller.owner && caller.user != s.fulfillments[n].hauler
            && !s.lists[s.items[s.fulfillments[n].item].list].status.ListArchived? ==>
              ReverseFulfillment(s, caller, n) == Err(Forbidden)
  {
    hide ClaimSide, BindSide, EveryPurchaseOwed, SettledIsPaid, TotalsAddUp, ReimbursementsRefer, ReversePurchase;
  }

  /** What a reversal leaves of its item: the quantity goes down by what is reversed. An item that
      stays full keeps being delivered or bought; a short one is claimed or open again. */
  ghost predicate ItemReversed(s: Db, t: Db, item: Id, qty: int)
    requires item in s.items
  {
    var row := s.items[item];
    t.items == s.items[item := row.(
      qtyFulfilled := row.qtyFulfilled - qty,
      status := if row.qtyFulfilled - qty >= row.qtyRequested then (if row.status.Delivered? then Delivered else Bought)
                else if HasActiveClaim(s.claimItems, item) then Claimed else Open)]
  }

  /** The tables before the reimbursement is written. */
  ghost function AfterReversal(s: Db, n: nat): Db
    requires n in s.fulfillments && s.fulfillments[n].item in s.items
  {
    RecomputeItem(s.(fulfillments := s.fulfillments[n := s.fulfillments[n].(reversed := true)]), s.fulfillments[n].item, Allow)
  }

  lemma ReversedTables(s: Db, n: nat)
    requires CacheIsLiveSum(s) && FulfillmentsRefer(s) && n in s.fulfillments && !s.fulfillments[n].reversed
    requires !s.items[s.fulfillments[n].item].status.Settled?
    ensures var u, f := AfterReversal(s, n), s.fulfillments[n];
            && ItemReversed(s, u, f.item, f.qty) && SameItems(s, u)
            && u == s.(items := u.items, fulfillments := s.fulfillments[n := f.(reversed := true)])
            && RowWritten(s, u, n)
  {
    hide Sum, LiveQty, HasActiveClaim;
    var f := s.fulfillments[n];
    var s1 := s.(fulfillments := s.fulfillments[n := f.(reversed := true)]);
    assert RowWritten(s, s1, n);
    LiveQtyAfterWrite(s, s1, n);
  }

  /** A reversal takes its quantity off the item and its cost off the reimbursement that pays for
      it, and touches no other fulfilment, item, claim, list, contract or suggestion. */
  lemma ReverseWrites(s: Db, caller: Caller, n: nat)
    requires Inv(s) && ReverseFulfillment(s, caller, n).Ok?
    ensures var t := ReverseFulfillment(s, caller, n).value;
            && n in s.fulfillments && s.fulfillments[n].item in s.items && s.items[s.fulfillments[n].item].list in s.lists
            && var f := s.fulfillments[n];
               && ItemReversed(s, t, f.item, f.qty)
               && t == s.(items := t.items, fulfillments := s.fulfillments[n := f.(reversed := true)],
                          reimbursements := t.reimbursements)
               && var k := DebtFor(s, f.item, f.hauler);
                  Owes(s, t, k, CoveredCost(s, k) - f.qty * f.unitPrice)
  {
    hide Sum, LiveQty, HasActiveClaim, ClaimsRefer, ClaimsExclusive, StatusesFit, BindSide, EveryPurchaseOwed, CoveredCost,
         RecomputeItem, UpsertReimbursement, Owes, ItemReversed;
    var f := s.fulfillments[n];
    var k := DebtFor(s, f.item, f.hauler);
    assert k == PayingKey(s, f);
    UnpaidIsNotSettled(s, n);
    ReversedTables(s, n);
    var u := AfterReversal(s, n);
    UpsertWrites(u, k);
    CostAfterWrite(s, u, n, k);
    OwesFrom(s, u, UpsertReimbursement(u, k), k, CoveredCost(u, k));
    ReversedFrom(s, u, UpsertReimbursement(u, k), f.item, f.qty);
  }

  lemma ReversedFrom(s: Db, u: Db, t: Db, item: Id, qty: int)
    requires item in s.items && ItemReversed(s, u, item, qty) && t.items == u.items
    ensures ItemReversed(s, t, item, qty)
  {
  }

  // ── Delivering ────────────────────────────────────────────────────────────

  /** A bought item of a list that is not archived may be marked delivered by whoever bought it
      last or an owner; nothing else about the item or any other table changes. */
  lemma DeliverRule(s: Db, caller: Caller, list: Id, item: Id, lastHauler: bool)
    ensures MarkDelivered(s, caller, list, item, lastHauler).Ok? <==>
            && list in s.lists && !s.lists[list].status.ListArchived?
            && item in s.items && s.items[item].list == list && s.items[item].status == Bought
            && (lastHauler || caller.owner)
    ensures MarkDelivered(s, caller, list, item, lastHauler).Ok? ==>
              MarkDelivered(s, caller, list, item, lastHauler).value
              == s.(items := s.items[item := s.items[item].(status := Delivered)])
  {
  }
}
