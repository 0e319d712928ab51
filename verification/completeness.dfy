/** When an item turns settled: exactly when it is full and every reimbursement of its live
    fulfilments is settled, in runs whose steps leave no item of the list behind. On a list
    whose debts all have one requester no settlement does. */
module Completeness {
  import opened Domain
  import opened Sums
  import opened Money
  import opened Database
  import opened Recompute
  import opened Fulfillments
  import opened Settlement
  import opened Contracts
  import opened ListEdits
  import opened Invariant
  import opened RecomputeProofs
  import opened FulfillmentsProofs
  import opened SettlementProofs
  import opened Runs
  import opened StepKinds
  import opened Quantities

  /** The item is full and all that was bought of it is paid for. */
  ghost predicate Due(s: Db, item: Id)
    requires item in s.items
  {
    s.items[item].qtyFulfilled >= s.items[item].qtyRequested && FullyPaid(s, item)
  }

  ghost predicate Complete(s: Db, list: Id) {
    forall i | i in s.items && s.items[i].list == list && Due(s, i) :: s.items[i].status.Settled?
  }

  /** All reimbursements of the list have the same requester. */
  ghost predicate OneDebtor(s: Db, list: Id) {
    forall k, r | k in s.reimbursements && r in s.reimbursements && k.list == list && r.list == list ::
      k.requester == r.requester
  }

  /** An item that is due after a step was due before it, and no less settled. */
  ghost predicate DueBefore(s: Db, t: Db, i: Id) {
    i in t.items && Due(t, i) ==>
      && i in s.items && s.items[i].list == t.items[i].list && Due(s, i)
      && (s.items[i].status.Settled? ==> t.items[i].status.Settled?)
  }

  lemma CompleteKept(s: Db, t: Db, list: Id)
    requires Complete(s, list)
    requires forall i | i in t.items :: DueBefore(s, t, i)
    ensures Complete(t, list)
  {
  }

  // ── Steps that pay nothing ────────────────────────────────────────────────

  lemma ClaimChangeKeepsDue(s: Db, t: Db, touched: set<Id>, i: Id)
    requires CacheIsLiveSum(s) && ClaimsProofs.ClaimChange(s, t, touched)
    ensures DueBefore(s, t, i)
  {
    hide Sum, HasActiveClaim;
  }

  lemma ClaimChangeKeepsComplete(s: Db, t: Db, touched: set<Id>, list: Id)
    requires CacheIsLiveSum(s) && Complete(s, list) && ClaimsProofs.ClaimChange(s, t, touched)
    ensures Complete(t, list)
  {
    hide Sum, HasActiveClaim, Complete, DueBefore, CacheIsLiveSum, ClaimsProofs.ClaimChange;
    forall i | i in t.items
      ensures DueBefore(s, t, i)
    {
      ClaimChangeKeepsDue(s, t, touched, i);
    }
    CompleteKept(s, t, list);
  }

  lemma ListEditKeepsComplete(s: Db, t: Db, list: Id)
    requires EveryPurchaseOwed(s) && ListEditsProofs.ListsEdited(s, t) && Complete(s, list)
    ensures Complete(t, list)
  {
  }

  lemma TipKeepsComplete(s: Db, caller: Caller, list: Id, pct: real, l: Id)
    requires SetListTip(s, caller, list, pct).Ok? && Complete(s, l)
    ensures Complete(SetListTip(s, caller, list, pct).value, l)
  {
  }

  lemma ItemEditKeepsComplete(s: Db, t: Db, item: Id, l: Id)
    requires Complete(s, l) && t == s.(items := t.items)
    requires item in t.items && t.items == s.items[item := t.items[item]]
    requires item in s.items ==> t.items[item].list == s.items[item].list
                                 && t.items[item].requestedBy == s.items[item].requestedBy
    requires t.items[item].qtyFulfilled < t.items[item].qtyRequested
             || (item in s.items && t.items[item] == s.items[item].(status := t.items[item].status)
                 && !s.items[item].status.Settled?)
    ensures Complete(t, l)
  {
  }

  lemma ListStepKeepsComplete(s: Db, step: Step, l: Id)
    requires OwedSide(s) && Complete(s, l)
    requires step.DoCreateList? || step.DoSetListStatus? || step.DoPatchListPayer?
    ensures Complete(Next(s, step), l)
  {
    hide Complete, ReimbursementsRefer, EveryPurchaseOwed, SettledIsPaid, FulfillmentsRefer, StoredTipPct, ItemsRefer;
    if Apply(s, step).Ok? {
      if step.DoCreateList? {
        ListEditsProofs.StoredTipInRange(step.tipPct);
      }
      ListEditKeepsComplete(s, Next(s, step), l);
    }
  }

  lemma ItemStepKeepsComplete(s: Db, step: Step, l: Id)
    requires Complete(s, l) && (step.DoAddItem? || step.DoMarkDelivered?)
    ensures Complete(Next(s, step), l)
  {
    hide Complete;
    var t := Next(s, step);
    if Apply(s, step).Ok? {
      match step
      case DoAddItem(caller, list, newItem, qty) => ItemEditKeepsComplete(s, t, newItem, l);
      case DoMarkDelivered(caller, list, item, last) => ItemEditKeepsComplete(s, t, item, l);
    }
  }

  /** A patch looks at the status only. It keeps its list complete exactly when it asks for more
      than is bought or something of that is not paid for: the item stays open. */
  lemma PatchKeepsCompleteIff(s: Db, list: Id, item: Id, qty: int, l: Id)
    requires Complete(s, l) && PatchItem(s, list, item, qty).Ok?
    ensures Complete(PatchItem(s, list, item, qty).value, l)
            <==> list != l || qty > s.items[item].qtyFulfilled || !FullyPaid(s, item)
  {
    hide FullyPaid;
    var t := PatchItem(s, list, item, qty).value;
    forall i | i in s.items
      ensures FullyPaid(t, i) <==> FullyPaid(s, i)
    {
      PaidAfterPatch(s, t, i);
    }
    assert t.items[item].list == list && !t.items[item].status.Settled?;
    assert Due(t, item) <==> qty <= s.items[item].qtyFulfilled && FullyPaid(s, item);
  }

  lemma PaidAfterPatch(s: Db, t: Db, i: Id)
    requires t == s.(items := t.items) && SameOwners(s, t)
    ensures FullyPaid(t, i) <==> FullyPaid(s, i)
  {
  }

  ghost predicate SameOwners(s: Db, t: Db) {
    && t.items.Keys == s.items.Keys
    && forall i | i in s.items :: t.items[i].list == s.items[i].list && t.items[i].requestedBy == s.items[i].requestedBy
  }

  lemma EditKeepsComplete(s: Db, step: Step, l: Id)
    requires Inv(s) && Complete(s, l) && IsEditStep(step) && !step.DoPatchItem?
    ensures Complete(Next(s, step), l)
  {
    hide Complete, OwedSide, BindSide, ClaimsRefer, ClaimsExclusive, CacheIsLiveSum, StatusesFit, SetListTip;
    if step.DoSetListTip? {
      if Apply(s, step).Ok? {
        TipKeepsComplete(s, step.caller, step.list, step.pct, l);
      }
    } else if step.DoAddItem? || step.DoMarkDelivered? {
      ItemStepKeepsComplete(s, step, l);
    } else {
      ListStepKeepsComplete(s, step, l);
    }
  }

  // ── Purchases, reversals, deletions ───────────────────────────────────────

  /** After a write for the pending reimbursement `k`, items other than the written one are due
      only if they were. */
  lemma WriteKeepsCompleteIff(s: Db, t: Db, k: Key, j: nat, item: Id, l: Id)
    requires Complete(s, l)
    requires RowWritten(s, t, j) && t.lists == s.lists && PendingWritten(s, t, k)
    requires t.fulfillments[j].item == item && (j in s.fulfillments ==> s.fulfillments[j].item == item)
    requires item in s.items && item in t.items && t.items == s.items[item := t.items[item]]
    requires t.items[item].list == s.items[item].list
    requires Due(t, item) ==> !t.items[item].status.Settled?
    ensures Complete(t, l) <==> s.items[item].list != l || !Due(t, item)
  {
  }

  lemma RecordKeepsComplete(s: Db, caller: Caller, list: Id, item: Id, p: Purchase, l: Id)
    requires Inv(s) && Complete(s, l) && RecordFulfillment(s, caller, list, item, p).Ok?
    ensures Complete(RecordFulfillment(s, caller, list, item, p).value, l)
  {
    hide Sum, HasActiveClaim, Complete, BindSide, ClaimSide, CompleteClaimIfDone, UpsertReimbursement,
         RecomputedRow, EveryPurchaseOwed, SettledIsPaid, ReimbursementsRefer, ItemsRefer, PendingWritten;
    var k := RecordChecks(s, caller, list, item, p).value;
    var t := RecordFulfillment(s, caller, list, item, p).value;
    var f := Fulfillment(item, ActiveClaimOf(s, item), caller.user, p.qty, ToCents(p.unitPriceIsk), false);
    var s1 := InsertFulfillment(s, f);
    var s2 := RecomputeItem(s1, item, Forbid);
    Finality.CompletionKeepsItems(s2, f.claim, item);
    var s3 := CompleteClaimIfDone(s2, f.claim, item);
    RecomputeSettlesNothing(s1, item, Forbid);
    UpsertWritesPending(s3, k);
    assert t == UpsertReimbursement(s3, k);
    PendingIsNotPaid(s3, t, k, s.nextFulfillment, item);
    PendingWrittenFrom(s, s3, t, k);
    WriteKeepsCompleteIff(s, t, k, s.nextFulfillment, item, l);
  }

  lemma PendingIsNotPaid(s: Db, t: Db, k: Key, j: nat, item: Id)
    requires PendingWritten(s, t, k) && t == s.(reimbursements := t.reimbursements)
    requires j in s.fulfillments && IsLiveOn(s.fulfillments[j], item)
    requires item in s.items && s.items[item].list in s.lists && k == PayingKey(s, s.fulfillments[j])
    ensures !FullyPaid(t, item)
  {
  }

  lemma PendingWrittenFrom(s: Db, u: Db, t: Db, k: Key)
    requires PendingWritten(u, t, k) && u.reimbursements == s.reimbursements
    ensures PendingWritten(s, t, k)
  {
  }

  /** Without fulfilment `n` its item would still be full, and all the rest of it is paid for. */
  ghost predicate FullAndPaidWithout(s: Db, n: nat)
    requires n in s.fulfillments && s.fulfillments[n].item in s.items
  {
    var item := s.fulfillments[n].item;
    && s.items[item].qtyFulfilled - s.fulfillments[n].qty >= s.items[item].qtyRequested
    && forall m | m in s.fulfillments && m != n && IsLiveOn(s.fulfillments[m], item) ::
         s.items[item].list in s.lists && IsPaidFor(s, s.fulfillments[m])
  }

  lemma PaidAfterReversal(s: Db, t: Db, k: Key, n: nat)
    requires n in s.fulfillments && s.fulfillments[n].item in s.items
    requires t.fulfillments == s.fulfillments[n := s.fulfillments[n].(reversed := true)]
    requires t.lists == s.lists && SameItems(s, t) && PendingWritten(s, t, k)
    ensures var item := s.fulfillments[n].item;
            FullyPaid(t, item) <==>
            forall m | m in s.fulfillments && m != n && IsLiveOn(s.fulfillments[m], item) ::
              s.items[item].list in s.lists && IsPaidFor(s, s.fulfillments[m])
  {
    hide PendingWritten, PayingKey;
    var item := s.fulfillments[n].item;
    forall m | m in s.fulfillments
      ensures m != n ==> t.fulfillments[m] == s.fulfillments[m]
      ensures !IsLiveOn(t.fulfillments[n], item)
      ensures s.fulfillments[m].item == item && s.items[item].list in s.lists ==>
                (IsPaidFor(t, s.fulfillments[m]) <==> IsPaidFor(s, s.fulfillments[m]))
    {
      if s.fulfillments[m].item == item && s.items[item].list in s.lists {
        PaidAfterWrite(s, t, k, s.fulfillments[m]);
      }
    }
    assert t.items[item].list == s.items[item].list && t.fulfillments.Keys == s.fulfillments.Keys;
    if FullyPaid(t, item) {
      forall m | m in s.fulfillments && m != n && IsLiveOn(s.fulfillments[m], item)
        ensures s.items[item].list in s.lists && IsPaidFor(s, s.fulfillments[m])
      {
        assert IsLiveOn(t.fulfillments[m], item);
      }
    }
  }

  /** A reversal keeps its list complete exactly when it does not leave an over-fulfilled item
      full and paid: the item is bought then, and nothing promotes it. */
  lemma ReverseKeepsCompleteIff(s: Db, caller: Caller, n: nat, l: Id)
    requires Inv(s) && Complete(s, l) && ReverseFulfillment(s, caller, n).Ok?
    ensures Complete(ReverseFulfillment(s, caller, n).value, l)
            <==> s.items[s.fulfillments[n].item].list != l || !FullAndPaidWithout(s, n)
  {
    hide Sum, HasActiveClaim, Complete, BindSide, ClaimSide, UpsertReimbursement,
         RecomputedRow, EveryPurchaseOwed, SettledIsPaid, ReimbursementsRefer, ItemsRefer, PendingWritten, FullyPaid;
    var f := s.fulfillments[n];
    var k := PayingKey(s, f);
    var t := ReverseFulfillment(s, caller, n).value;
    var s1 := s.(fulfillments := s.fulfillments[n := f.(reversed := true)]);
    var s2 := RecomputeItem(s1, f.item, Allow);
    RecomputeSettlesNothing(s1, f.item, Allow);
    ReverseRecomputes(s, caller, n);
    UpsertWritesPending(s2, k);
    PendingWrittenFrom(s, s2, t, k);
    PaidAfterReversal(s, t, k, n);
    WriteKeepsCompleteIff(s, t, k, n, f.item, l);
  }

  lemma DeleteKeepsComplete(s: Db, list: Id, item: Id, l: Id)
    requires Complete(s, l) && DeleteItem(s, list, item).Ok?
    ensures Complete(DeleteItem(s, list, item).value, l)
  {
    hide Complete;
    var t := DeleteItem(s, list, item).value;
    forall i | i in t.items
      ensures DueBefore(s, t, i)
    {
      if Due(t, i) {
        forall n | n in s.fulfillments && IsLiveOn(s.fulfillments[n], i)
          ensures s.items[i].list in s.lists && IsPaidFor(s, s.fulfillments[n])
        {
          assert IsPaidFor(t, t.fulfillments[n]);
        }
      }
    }
    CompleteKept(s, t, l);
  }

  // ── Settlement ────────────────────────────────────────────────────────────

  /** Settling steps that pay nothing keep completeness. */
  lemma UnpaidStepKeepsComplete(s: Db, t: Db, l: Id)
    requires Complete(s, l) && SettleStep(s, t)
    requires forall k | k in t.reimbursements && t.reimbursements[k].status.Paid? :: s.reimbursements[k].status.Paid?
    ensures Complete(t, l)
  {
  }

  /** If an item becomes fully paid, one of the newly paid reimbursements covers it. */
  lemma NewlyPaid(s: Db, t: Db, i: Id) returns (k: Key)
    requires EveryPurchaseOwed(s) && SettleStep(s, t)
    requires FullyPaid(t, i) && !FullyPaid(s, i) && i in s.items
    ensures k in s.reimbursements && s.reimbursements[k].status.Pending? && t.reimbursements[k].status.Paid?
    ensures InScope(k, s.items[i]) && HasLiveBy(s, i, k.hauler)
  {
    var n :| && n in s.fulfillments && IsLiveOn(s.fulfillments[n], i)
             && !(s.items[i].list in s.lists && IsPaidFor(s, s.fulfillments[n]));
    k := PayingKey(s, s.fulfillments[n]);
    KeyKept(s, t, s.fulfillments[n]);
    assert IsPaidFor(t, t.fulfillments[n]);
  }

  lemma ManualFlips(s: Db, k: Key, user: Id, i: Id)
    requires ReimbursementsRefer(s) && SettleManual(s, k, user).Ok?
    requires i in s.items && s.items[i].status.Fulfilled() && InScope(k, s.items[i]) && HasLiveBy(s, i, k.hauler)
    requires FullyPaid(SettleManual(s, k, user).value, i)
    ensures SettleManual(s, k, user).value.items[i].status.Settled?
  {
  }

  lemma ManualKeepsComplete(s: Db, k: Key, user: Id, l: Id)
    requires Inv(s) && Complete(s, l) && SettleManual(s, k, user).Ok?
    ensures Complete(SettleManual(s, k, user).value, l)
  {
    hide ClaimSide, BindSide, SettleManual, FullyPaid, HasLiveBy, InScope,
         EveryPurchaseOwed, SettledIsPaid, TotalsAddUp, ItemsRefer, FulfillmentsRefer, ReimbursementsRefer;
    var t := SettleManual(s, k, user).value;
    ManualIsSettleStep(s, k, user);
    forall i | i in t.items && t.items[i].list == l && Due(t, i)
      ensures t.items[i].status.Settled?
    {
      if !FullyPaid(s, i) {
        var paid := NewlyPaid(s, t, i);
        ManualPaysOnly(s, k, user, paid);
        NothingOwed(s, k, user, i);
        ManualFlips(s, k, user, i);
      }
    }
  }

  /** The guard of the manual path: what the hauler bought in scope is delivered. */
  lemma NothingOwed(s: Db, k: Key, user: Id, i: Id)
    requires SettleManual(s, k, user).Ok? && i in s.items && InScope(k, s.items[i]) && HasLiveBy(s, i, k.hauler)
    ensures s.items[i].status.Fulfilled()
  {
  }

  lemma ManualPaysOnly(s: Db, k: Key, user: Id, r: Key)
    requires SettleManual(s, k, user).Ok? && r in s.reimbursements && s.reimbursements[r].status.Pending?
    requires SettleManual(s, k, user).value.reimbursements[r].status.Paid?
    ensures r == k
  {
  }

  // ── Settlement through a contract ─────────────────────────────────────────

  /** Another hauler of the item still waits for money, from whichever requester. */
  ghost predicate OthersWait(s: Db, contract: Id, k: Key, i: Id) {
    exists r | r in s.reimbursements ::
      && r.list == k.list
      && r.hauler != k.hauler
      && s.reimbursements[r].status.Pending?
      && !BoundTo(s, r, contract)
      && HasLiveBy(s, i, r.hauler)
  }

  ghost predicate PaidOrBound(s: Db, contract: Id, f: Fulfillment)
    requires f.item in s.items && s.items[f.item].list in s.lists
  {
    IsPaidFor(s, f) || BoundTo(s, PayingKey(s, f), contract)
  }

  /** Once the contract settles, all that was bought of the full item is paid for. */
  ghost predicate DueThen(s: Db, contract: Id, i: Id)
    requires i in s.items
  {
    && s.items[i].qtyFulfilled >= s.items[i].qtyRequested
    && forall n | n in s.fulfillments && IsLiveOn(s.fulfillments[n], i) ::
         s.items[i].list in s.lists && PaidOrBound(s, contract, s.fulfillments[n])
  }

  /** The contract would make the item due, but the item is open, or each of the contract's
      reimbursements for it finds another hauler waiting: it is not promoted. */
  ghost predicate Stuck(s: Db, contract: Id, i: Id)
    requires i in s.items
  {
    && !s.items[i].status.Settled?
    && DueThen(s, contract, i)
    && (s.items[i].status.Fulfilled() ==>
          forall k | k in s.reimbursements && BoundTo(s, k, contract)
                     && InScope(k, s.items[i]) && HasLiveBy(s, i, k.hauler) :: OthersWait(s, contract, k, i))
  }

  ghost predicate NoneStuck(s: Db, contract: Id, l: Id) {
    forall i | i in s.items && s.items[i].list == l :: !Stuck(s, contract, i)
  }

  lemma FlipsForAfterPay(s: Db, contract: Id, k: Key, i: Id)
    requires i in s.items && s.items[i].status.Fulfilled()
    ensures FlipsFor(PayBound(s, contract), k, i) <==>
            && !s.items[i].status.Settled?
            && InScope(k, s.items[i]) && HasLiveBy(s, i, k.hauler) && !OthersWait(s, contract, k, i)
  {
  }

  /** Which items the contract path promotes, in terms of the state before the call. */
  lemma PromotedByContract(s: Db, contract: Id, i: Id)
    requires i in s.items && s.items[i].status.Fulfilled() && !s.items[i].status.Settled?
    requires contract in s.contracts && AnyPendingBound(s, contract)
    ensures SettleViaContract(s, contract).value.items[i].status.Settled? <==>
            exists k | k in s.reimbursements :: BoundTo(s, k, contract) && InScope(k, s.items[i])
                       && HasLiveBy(s, i, k.hauler) && !OthersWait(s, contract, k, i)
  {
    hide OthersWait, FlipsFor, InScope, HasLiveBy, SettleViaContract, PayBound, AnyPendingBound;
    var paid := PayBound(s, contract);
    ContractStages(s, contract);
    BoundAfterPay(s, contract);
    forall k
      ensures FlipsFor(paid, k, i) <==>
              InScope(k, s.items[i]) && HasLiveBy(s, i, k.hauler) && !OthersWait(s, contract, k, i)
    {
      FlipsForAfterPay(s, contract, k, i);
    }
  }

  lemma BoundAfterPay(s: Db, contract: Id)
    ensures PayBound(s, contract).reimbursements.Keys == s.reimbursements.Keys
    ensures forall k :: BoundTo(PayBound(s, contract), k, contract) <==> BoundTo(s, k, contract)
  {
  }

  lemma PaidAfterContract(s: Db, contract: Id, r: Key)
    requires SettleViaContract(s, contract).Ok? && r in s.reimbursements
    ensures var t := SettleViaContract(s, contract).value;
            r in t.reimbursements &&
            (t.reimbursements[r].status.Paid? <==> s.reimbursements[r].status.Paid? || BoundTo(s, r, contract))
  {
    hide FlipsByContract, AllItemsSettled, ListsBound;
  }

  lemma DueAfterContract(s: Db, contract: Id, i: Id)
    requires EveryPurchaseOwed(s) && SettleViaContract(s, contract).Ok? && i in s.items
    ensures var t := SettleViaContract(s, contract).value;
            i in t.items && (Due(t, i) <==> DueThen(s, contract, i))
  {
    hide SettleViaContract, BoundTo;
    var t := SettleViaContract(s, contract).value;
    ContractIsSettleStep(s, contract);
    forall n | n in s.fulfillments && IsLiveOn(s.fulfillments[n], i)
      ensures s.items[i].list in s.lists && t.items[i].list in t.lists
      ensures IsPaidFor(t, s.fulfillments[n]) <==> PaidOrBound(s, contract, s.fulfillments[n])
    {
      KeyKept(s, t, s.fulfillments[n]);
      PaidAfterContract(s, contract, PayingKey(s, s.fulfillments[n]));
    }
  }

  /** A settled or unpaid-by-contract item cannot be stuck when nothing is left to pay. */
  lemma NothingToPayNothingStuck(s: Db, contract: Id, i: Id)
    requires !AnyPendingBound(s, contract) && i in s.items && DueThen(s, contract, i)
    ensures Due(s, i)
  {
  }

  lemma OthersAreNotPromoted(s: Db, contract: Id, i: Id)
    requires SettleViaContract(s, contract).Ok? && i in s.items && !s.items[i].status.Fulfilled()
    ensures i in SettleViaContract(s, contract).value.items
    ensures !SettleViaContract(s, contract).value.items[i].status.Settled?
  {
    hide SettleViaContract;
    ContractIsSettleStep(s, contract);
  }

  /** After settling a contract, an item that is due is settled exactly when it was not stuck. */
  lemma SettledUnlessStuck(s: Db, contract: Id, i: Id)
    requires Inv(s) && SettleViaContract(s, contract).Ok? && i in s.items
    requires Due(s, i) ==> s.items[i].status.Settled?
    ensures var t := SettleViaContract(s, contract).value;
            && i in t.items && t.items[i].list == s.items[i].list
            && ((Due(t, i) ==> t.items[i].status.Settled?) <==> !Stuck(s, contract, i))
  {
    hide SettleViaContract, Due, DueThen, OthersWait, InScope, HasLiveBy, ClaimSide, BindSide, AnyPendingBound,
         ItemsRefer, FulfillmentsRefer, ReimbursementsRefer, SettledIsPaid, TotalsAddUp, EveryPurchaseOwed;
    ContractIsSettleStep(s, contract);
    DueAfterContract(s, contract, i);
    DueThenIsFull(s, contract, i);
    if !s.items[i].status.Fulfilled() {
      OthersAreNotPromoted(s, contract, i);
    } else if !s.items[i].status.Settled? && DueThen(s, contract, i) {
      if AnyPendingBound(s, contract) {
        OkHasContract(s, contract);
        PromotedByContract(s, contract, i);
      } else {
        NothingToPayNothingStuck(s, contract, i);
      }
    }
  }

  lemma DueThenIsFull(s: Db, contract: Id, i: Id)
    requires i in s.items
    ensures DueThen(s, contract, i) ==> s.items[i].qtyFulfilled >= s.items[i].qtyRequested
  {
  }

  lemma OkHasContract(s: Db, contract: Id)
    requires SettleViaContract(s, contract).Ok?
    ensures contract in s.contracts
  {
  }

  /** The contract path keeps a list complete exactly when it leaves no item stuck: open, or
      behind a hauler who waits for somebody else's money. */
  lemma ContractKeepsCompleteIffNoneStuck(s: Db, contract: Id, l: Id)
    requires Inv(s) && Complete(s, l) && SettleViaContract(s, contract).Ok?
    ensures Complete(SettleViaContract(s, contract).value, l) <==> NoneStuck(s, contract, l)
  {
    hide Inv, Due, Stuck, SettleViaContract;
    var t := SettleViaContract(s, contract).value;
    ContractIsSettleStep(s, contract);
    forall i | i in s.items && s.items[i].list == l
      ensures i in t.items && t.items[i].list == s.items[i].list
      ensures (Due(t, i) ==> t.items[i].status.Settled?) <==> !Stuck(s, contract, i)
    {
      SettledUnlessStuck(s, contract, i);
    }
  }

  /** A full item is bought, delivered or settled. */
  lemma FullIsFulfilled(s: Db, l: Id, i: Id)
    requires StatusesFit(s) && ModestOn(s, l) && i in s.items && s.items[i].list == l
    requires s.items[i].qtyFulfilled >= s.items[i].qtyRequested
    ensures s.items[i].status.Fulfilled()
  {
  }

  lemma OneDebtorNeverStuck(s: Db, contract: Id, l: Id, i: Id)
    requires ReimbursementsRefer(s) && EveryPurchaseOwed(s) && Complete(s, l) && OneDebtor(s, l)
    requires i in s.items && s.items[i].list == l
    requires s.items[i].qtyFulfilled >= s.items[i].qtyRequested ==> s.items[i].status.Fulfilled()
    ensures !Stuck(s, contract, i)
  {
  }

  lemma OneDebtorNoneStuck(s: Db, contract: Id, l: Id)
    requires Inv(s) && ModestOn(s, l) && Complete(s, l) && OneDebtor(s, l)
    ensures NoneStuck(s, contract, l)
  {
    hide Complete, OneDebtor, Stuck, BindSide, ModestOn, ClaimsRefer, ClaimsExclusive, StatusesFit, CacheIsLiveSum,
         ItemsRefer, FulfillmentsRefer, ReimbursementsRefer, SettledIsPaid, TotalsAddUp, EveryPurchaseOwed;
    forall i | i in s.items && s.items[i].list == l
      ensures !Stuck(s, contract, i)
    {
      if s.items[i].qtyFulfilled >= s.items[i].qtyRequested {
        FullIsFulfilled(s, l, i);
      }
      OneDebtorNeverStuck(s, contract, l, i);
    }
  }

  // ── Every step, every run ─────────────────────────────────────────────────

  /** The condition under which a step that is not refused leaves no item of the list full and
      paid without settling it. Only patches, reversals and contract settlements have one. */
  ghost predicate LeavesNoneBehind(s: Db, step: Step, l: Id) {
    Apply(s, step).Ok? ==>
      match step
      case DoPatchItem(list, item, qty) =>
        item in s.items ==> list != l || qty > s.items[item].qtyFulfilled || !FullyPaid(s, item)
      case DoReverse(_, n) =>
        n in s.fulfillments && s.fulfillments[n].item in s.items ==>
          s.items[s.fulfillments[n].item].list != l || !FullAndPaidWithout(s, n)
      case DoConfirm(_, _, contract, k) => LinkLeavesNone(s, contract, k, l)
      case DoManualLink(_, _, contract, k) => LinkLeavesNone(s, contract, k, l)
      case DoContractTerminal(contract, status) => status.IsTerminalSuccess() ==> NoneStuck(s, contract, l)
      case _ => true
  }

  /** Linking to a contract that already finished settles it at once. */
  ghost predicate LinkLeavesNone(s: Db, contract: Id, k: Key, l: Id) {
    contract in s.contracts && k in s.reimbursements && s.contracts[contract].status.IsTerminalSuccess() ==>
      NoneStuck(Bind(s, contract, k), contract, l)
  }

  lemma BindKeepsComplete(s: Db, contract: Id, k: Key, l: Id)
    requires Inv(s) && Complete(s, l)
    requires contract in s.contracts && k in s.reimbursements && s.reimbursements[k].status.Pending?
    requires !ConfirmedElsewhere(s, contract, k)
    ensures var b := Bind(s, contract, k); Inv(b) && Complete(b, l)
  {
    hide Inv, Complete, ConfirmedElsewhere, ExpectedTotal, SettleStep;
    var b := Bind(s, contract, k);
    ContractsProofs.BindKeepsInv(s, contract, k);
    BindingIsSettleStep(s, b);
    UnpaidStepKeepsComplete(s, b, l);
  }

  lemma LinkKeepsCompleteIff(s: Db, contract: Id, k: Key, l: Id)
    requires Inv(s) && Complete(s, l)
    requires contract in s.contracts && k in s.reimbursements && s.reimbursements[k].status.Pending?
    requires ConfirmAndBind(s, contract, k).Ok?
    ensures Complete(ConfirmAndBind(s, contract, k).value, l) <==> LinkLeavesNone(s, contract, k, l)
  {
    hide Inv, Complete, ConfirmedElsewhere, Bind, SettleViaContract, NoneStuck;
    BindKeepsComplete(s, contract, k, l);
    if s.contracts[contract].status.IsTerminalSuccess() {
      ContractKeepsCompleteIffNoneStuck(Bind(s, contract, k), contract, l);
    }
  }

  lemma ReleaseKeepsComplete(s: Db, t: Db, contract: Id, l: Id)
    requires Complete(s, l) && SettleStep(s, t)
    requires t.reimbursements == ReleaseBound(s, contract).reimbursements
    ensures Complete(t, l)
  {
  }

  lemma TerminalKeepsCompleteIff(s: Db, contract: Id, status: ContractStatus, l: Id)
    requires Inv(s) && Complete(s, l) && ContractTerminal(s, contract, status).Ok?
    ensures Complete(ContractTerminal(s, contract, status).value, l)
            <==> (status.IsTerminalSuccess() ==> NoneStuck(s, contract, l))
  {
    hide Inv, Complete, SettleStep, SettleViaContract, ReleaseBound, SupersedeAll, NoneStuck;
    if status.IsTerminalSuccess() {
      ContractKeepsCompleteIffNoneStuck(s, contract, l);
    } else if status.IsTerminalFailure() {
      UnbindIsSettleStep(s, contract);
      ContractsProofs.ReleaseTables(s, contract);
      ReleaseKeepsComplete(s, UnbindContract(s, contract), contract, l);
    }
  }

  lemma MinorStepKeepsComplete(s: Db, step: Step, l: Id)
    requires Complete(s, l) && (step.DoReject? || step.DoPropose? || step.DoUpsertContract?)
    ensures Complete(Next(s, step), l)
  {
    hide Complete, SettleStep;
    MinorStepIsSettleStep(s, step);
    UnpaidStepKeepsComplete(s, Next(s, step), l);
  }

  lemma ContractStepKeepsCompleteIff(s: Db, step: Step, l: Id)
    requires Inv(s) && Complete(s, l) && IsContractStep(step)
    ensures Complete(Next(s, step), l) <==> LeavesNoneBehind(s, step, l)
  {
    hide Inv, Complete, SettleStep, SettleManual, ConfirmAndBind, ContractTerminal, LinkLeavesNone, NoneStuck,
         ReleaseBound, SupersedeAll, ExpectedTotal, ValidateLink;
    if Apply(s, step).Ok? {
      match step
      case DoSettle(caller, k) => ManualKeepsComplete(s, k, caller.user, l);
      case DoConfirm(user, member, contract, k) =>
        ContractsProofs.LinkNeedsPending(s, user, member, contract, k);
        LinkKeepsCompleteIff(s, contract, k, l);
      case DoManualLink(user, member, contract, k) =>
        ContractsProofs.LinkNeedsPending(s, user, member, contract, k);
        LinkKeepsCompleteIff(s, contract, k, l);
      case DoUnlink(contract, allowed, inside) =>
        UnlinkIsSettleStep(s, contract, allowed, inside);
        ReleaseKeepsComplete(s, Next(s, step), contract, l);
      case DoContractTerminal(contract, status) => TerminalKeepsCompleteIff(s, contract, status, l);
      case _ => MinorStepKeepsComplete(s, step, l);
    }
  }

  lemma PurchaseStepKeepsCompleteIff(s: Db, step: Step, l: Id)
    requires Inv(s) && Complete(s, l) && IsPurchaseStep(step)
    ensures Complete(Next(s, step), l) <==> LeavesNoneBehind(s, step, l)
  {
    hide Inv, Complete, RecordFulfillment, DeleteItem, UpsertReimbursement, RecomputeItem, FullAndPaidWithout;
    if Apply(s, step).Ok? {
      match step
      case DoRecord(caller, list, item, purchase) => RecordKeepsComplete(s, caller, list, item, purchase, l);
      case DoReverse(caller, n) => ReverseKeepsCompleteIff(s, caller, n, l);
      case DoDeleteItem(list, item) => DeleteKeepsComplete(s, list, item, l);
    }
  }

  lemma EditStepKeepsCompleteIff(s: Db, step: Step, l: Id)
    requires Inv(s) && Complete(s, l) && IsEditStep(step)
    ensures Complete(Next(s, step), l) <==> LeavesNoneBehind(s, step, l)
  {
    hide Inv, Complete, FullyPaid;
    if step.DoPatchItem? {
      if Apply(s, step).Ok? {
        PatchKeepsCompleteIff(s, step.list, step.item, step.qty, l);
      }
    } else {
      EditKeepsComplete(s, step, l);
    }
  }

  /** Every step keeps a complete list complete exactly under its condition. */
  lemma StepKeepsCompleteIff(s: Db, step: Step, l: Id)
    requires Inv(s) && Complete(s, l)
    ensures Complete(Next(s, step), l) <==> LeavesNoneBehind(s, step, l)
  {
    hide Complete, Next, OwedSide, BindSide, ClaimsRefer, ClaimsExclusive, StatusesFit, CacheIsLiveSum,
         ClaimsProofs.ClaimChange, Apply;
    EveryStepHasAKind(step);
    if IsPurchaseStep(step) {
      PurchaseStepKeepsCompleteIff(s, step, l);
    } else if IsClaimStep(step) {
      var touched := ClaimStepIsClaimChange(s, step);
      ClaimChangeKeepsComplete(s, Next(s, step), touched, l);
    } else if IsContractStep(step) {
      ContractStepKeepsCompleteIff(s, step, l);
    } else {
      EditStepKeepsCompleteIff(s, step, l);
    }
  }

  ghost predicate RunLeavesNoneBehind(s: Db, steps: seq<Step>, l: Id)
    decreases |steps|
  {
    steps == [] || (LeavesNoneBehind(s, steps[0], l) && RunLeavesNoneBehind(Next(s, steps[0]), steps[1..], l))
  }

  lemma {:induction false} RunKeepsComplete(s: Db, steps: seq<Step>, l: Id)
    requires Inv(s) && Complete(s, l) && RunLeavesNoneBehind(s, steps, l)
    ensures Complete(Run(s, steps), l)
    decreases |steps|
  {
    hide Inv, Complete, Next, LeavesNoneBehind;
    if steps != [] {
      StepKeepsInv(s, steps[0]);
      StepKeepsCompleteIff(s, steps[0], l);
      RunKeepsComplete(Next(s, steps[0]), steps[1..], l);
    }
  }

  /** On any list, with any number of debtors: in every run whose steps leave no item of it
      behind, an item is settled if and only if it is full and all its purchases are paid for. */
  lemma SettledIffDueWhenNoneLeft(steps: seq<Step>, i: Id)
    requires i in Run(EMPTY_DB, steps).items
    requires RunLeavesNoneBehind(EMPTY_DB, steps, Run(EMPTY_DB, steps).items[i].list)
    ensures var s := Run(EMPTY_DB, steps);
            s.items[i].status.Settled? <==>
            s.items[i].qtyFulfilled >= s.items[i].qtyRequested && FullyPaid(s, i)
  {
    hide Run, FullyPaid, RunLeavesNoneBehind;
    var s := Run(EMPTY_DB, steps);
    EmptyIsFine();
    EveryReachableDbIsConsistent(steps);
    RunKeepsComplete(EMPTY_DB, steps, s.items[i].list);
    if s.items[i].status.Settled? {
      SettledMeansFullAndPaid(s, i);
    }
  }

  lemma EmptyIsFine()
    ensures Inv(EMPTY_DB) && forall l :: ModestOn(EMPTY_DB, l) && Complete(EMPTY_DB, l)
  {
  }

  /** The "only if" half needs no condition on the list or the run. */
  lemma SettledMeansFullAndPaid(s: Db, i: Id)
    requires Inv(s) && i in s.items && s.items[i].status.Settled?
    ensures s.items[i].qtyFulfilled >= s.items[i].qtyRequested && FullyPaid(s, i)
  {
  }

  // ── One debtor at the end means one debtor all along ──────────────────────

  lemma StepKeepsKeys(s: Db, step: Step)
    requires Inv(s)
    ensures s.reimbursements.Keys <= Next(s, step).reimbursements.Keys
  {
    hide Inv, SettleStep, Next, ClaimsProofs.ClaimChange;
    EveryStepHasAKind(step);
    if IsContractStep(step) {
      ContractStepIsSettleStep(s, step);
      SettleStepKeys(s, Next(s, step));
    } else if IsPurchaseStep(step) {
      PurchaseKeepsKeys(s, step);
    } else if IsClaimStep(step) {
      CacheOf(s);
      var touched := ClaimStepIsClaimChange(s, step);
      ClaimChangeKeys(s, Next(s, step), touched);
    } else {
      EditKeepsKeys(s, step);
    }
  }

  lemma ClaimChangeKeys(s: Db, t: Db, touched: set<Id>)
    requires ClaimsProofs.ClaimChange(s, t, touched)
    ensures t.reimbursements == s.reimbursements && t.lists == s.lists && SameItems(s, t)
  {
  }

  lemma EditKeepsKeys(s: Db, step: Step)
    requires IsEditStep(step)
    ensures s.reimbursements.Keys == Next(s, step).reimbursements.Keys
  {
    hide StoredTipPct, TipOf, TotalOf, HasLiveFulfillment;
  }

  lemma CacheOf(s: Db)
    requires Inv(s)
    ensures CacheIsLiveSum(s)
  {
  }

  lemma SettleStepKeys(s: Db, t: Db)
    requires SettleStep(s, t)
    ensures t.reimbursements.Keys == s.reimbursements.Keys
  {
  }

  lemma PurchaseKeepsKeys(s: Db, step: Step)
    requires IsPurchaseStep(step)
    ensures s.reimbursements.Keys <= Next(s, step).reimbursements.Keys
  {
    hide Sum, LiveQty, HasActiveClaim, AllItemsDone, CoveredCost, TipOf, TotalOf, RowAfter;
  }

  lemma {:induction false} RunKeepsKeys(s: Db, steps: seq<Step>)
    requires Inv(s)
    ensures s.reimbursements.Keys <= Run(s, steps).reimbursements.Keys
    decreases |steps|
  {
    hide Inv, Next;
    if steps != [] {
      StepKeepsInv(s, steps[0]);
      StepKeepsKeys(s, steps[0]);
      RunKeepsKeys(Next(s, steps[0]), steps[1..]);
    }
  }

  lemma OneDebtorBefore(s: Db, t: Db, l: Id)
    requires s.reimbursements.Keys <= t.reimbursements.Keys && OneDebtor(t, l)
    ensures OneDebtor(s, l)
  {
  }

  lemma OneDebtorLinkLeavesNone(s: Db, contract: Id, k: Key, l: Id)
    requires Inv(s) && ModestOn(s, l) && Complete(s, l) && OneDebtor(s, l)
    requires contract in s.contracts && k in s.reimbursements && s.reimbursements[k].status.Pending?
    requires !ConfirmedElsewhere(s, contract, k)
    ensures LinkLeavesNone(s, contract, k, l)
  {
    hide Inv, Complete, ConfirmedElsewhere, ExpectedTotal, NoneStuck;
    BindKeepsComplete(s, contract, k, l);
    OneDebtorNoneStuck(Bind(s, contract, k), contract, l);
  }

  lemma LinkIsNotElsewhere(s: Db, contract: Id, k: Key)
    requires contract in s.contracts && k in s.reimbursements && ConfirmAndBind(s, contract, k).Ok?
    ensures !ConfirmedElsewhere(s, contract, k)
  {
  }

  lemma ModestReversalLeavesShort(s: Db, caller: Caller, n: nat, l: Id)
    requires Inv(s) && ModestOn(s, l) && ReverseFulfillment(s, caller, n).Ok?
    requires s.items[s.fulfillments[n].item].list == l
    ensures !FullAndPaidWithout(s, n)
  {
    hide Sum, ClaimSide, BindSide;
  }

  /** With one debtor, quantities in order and patches above what is bought, no step leaves an
      item of the list behind. */
  lemma OneDebtorLeavesNone(s: Db, step: Step, l: Id)
    requires Inv(s) && ModestOn(s, l) && Complete(s, l) && OneDebtor(s, l) && PatchesAboveBought(s, step, l)
    ensures LeavesNoneBehind(s, step, l)
  {
    hide Inv, ModestOn, Complete, OneDebtor, FullyPaid, FullAndPaidWithout, LinkLeavesNone, NoneStuck, ConfirmAndBind,
         ValidateLink, ConfirmedElsewhere, SettleViaContract, UpsertReimbursement, RecomputeItem;
    if Apply(s, step).Ok? {
      match step
      case DoReverse(caller, n) =>
        if s.items[s.fulfillments[n].item].list == l {
          ModestReversalLeavesShort(s, caller, n, l);
        }
      case DoConfirm(user, member, contract, k) =>
        ContractsProofs.LinkNeedsPending(s, user, member, contract, k);
        LinkIsNotElsewhere(s, contract, k);
        OneDebtorLinkLeavesNone(s, contract, k, l);
      case DoManualLink(user, member, contract, k) =>
        ContractsProofs.LinkNeedsPending(s, user, member, contract, k);
        LinkIsNotElsewhere(s, contract, k);
        OneDebtorLinkLeavesNone(s, contract, k, l);
      case DoContractTerminal(contract, status) => OneDebtorNoneStuck(s, contract, l);
      case _ =>
    }
  }

  lemma {:induction false} OneDebtorRunLeavesNone(s: Db, steps: seq<Step>, l: Id)
    requires Inv(s) && ModestOn(s, l) && Complete(s, l)
    requires RunPatchesAboveBought(s, steps, l) && OneDebtor(Run(s, steps), l)
    ensures RunLeavesNoneBehind(s, steps, l)
    decreases |steps|
  {
    hide Inv, ModestOn, Complete, OneDebtor, Next, PatchesAboveBought, LeavesNoneBehind;
    if steps != [] {
      StepKeepsInv(s, steps[0]);
      StepIsModest(s, steps[0], l);
      RunKeepsKeys(s, steps);
      OneDebtorBefore(s, Run(s, steps), l);
      OneDebtorLeavesNone(s, steps[0], l);
      StepKeepsCompleteIff(s, steps[0], l);
      OneDebtorRunLeavesNone(Next(s, steps[0]), steps[1..], l);
    }
  }

  /** On a list with one debtor, in every run whose accepted patches of this list ask for more
      than is bought, an item is settled if and only if it is full and all its purchases are
      paid for. */
  lemma SettledIffFullAndPaid(steps: seq<Step>, i: Id)
    requires i in Run(EMPTY_DB, steps).items
    requires var l := Run(EMPTY_DB, steps).items[i].list;
             RunPatchesAboveBought(EMPTY_DB, steps, l) && OneDebtor(Run(EMPTY_DB, steps), l)
    ensures var s := Run(EMPTY_DB, steps);
            s.items[i].status.Settled? <==>
            s.items[i].qtyFulfilled >= s.items[i].qtyRequested && FullyPaid(s, i)
  {
    hide Run, FullyPaid, RunPatchesAboveBought, RunLeavesNoneBehind, OneDebtor;
    EmptyIsFine();
    OneDebtorRunLeavesNone(EMPTY_DB, steps, Run(EMPTY_DB, steps).items[i].list);
    SettledIffDueWhenNoneLeft(steps, i);
  }

  /** On a corp-funded list the corporation is the only debtor. */
  lemma CorpFundedHasOneDebtor(s: Db, l: Id)
    requires Inv(s) && l in s.lists && s.lists[l].payerCorp.Some?
    ensures OneDebtor(s, l)
  {
  }

  // ── A list with one requester ─────────────────────────────────────────────

  /** All items of the list are requested by `user`, and so are its debts unless a
      corporation pays. */
  ghost predicate OneRequester(s: Db, l: Id, user: Id) {
    && (forall i | i in s.items && s.items[i].list == l :: s.items[i].requestedBy == user)
    && (forall k | k in s.reimbursements && k.list == l ::
          l in s.lists && k.requester == RequesterOf(s.lists[l].payerCorp, user))
  }

  /** An item that is accepted for the list is requested by `user`. */
  ghost predicate AddsOnlyFor(s: Db, step: Step, l: Id, user: Id) {
    step.DoAddItem? && step.list == l && Apply(s, step).Ok? ==> step.caller.user == user
  }

  ghost predicate RunAddsOnlyFor(s: Db, steps: seq<Step>, l: Id, user: Id)
    decreases |steps|
  {
    steps == [] || (AddsOnlyFor(s, steps[0], l, user) && RunAddsOnlyFor(Next(s, steps[0]), steps[1..], l, user))
  }

  lemma SettleStepKeepsRequester(s: Db, t: Db, l: Id, user: Id)
    requires OneRequester(s, l, user) && SettleStep(s, t)
    ensures OneRequester(t, l, user)
  {
  }

  lemma ClaimChangeKeepsRequester(s: Db, t: Db, touched: set<Id>, l: Id, user: Id)
    requires OneRequester(s, l, user) && ClaimsProofs.ClaimChange(s, t, touched)
    ensures OneRequester(t, l, user)
  {
  }

  lemma EditKeepsRequester(s: Db, step: Step, l: Id, user: Id)
    requires OneRequester(s, l, user) && IsEditStep(step) && AddsOnlyFor(s, step, l, user)
    ensures OneRequester(Next(s, step), l, user)
  {
    hide StoredTipPct, TipOf, TotalOf, HasLiveFulfillment;
  }

  lemma PurchaseKeepsRequester(s: Db, step: Step, l: Id, user: Id)
    requires OneRequester(s, l, user) && IsPurchaseStep(step)
    ensures OneRequester(Next(s, step), l, user)
  {
    hide Sum, LiveQty, HasActiveClaim, AllItemsDone, CoveredCost, TipOf, TotalOf, RowAfter, OneRequester,
         RecomputeItem, CompleteClaimIfDone, UpsertReimbursement;
    if Apply(s, step).Ok? {
      match step
      case DoRecord(caller, list, item, p) =>
        var k := RecordChecks(s, caller, list, item, p).value;
        var f := Fulfillment(item, ActiveClaimOf(s, item), caller.user, p.qty, ToCents(p.unitPriceIsk), false);
        var s1 := InsertFulfillment(s, f);
        var s2 := RecomputeItem(s1, item, Forbid);
        RecomputeSettlesNothing(s1, item, Forbid);
        Finality.CompletionKeepsItems(s2, f.claim, item);
        UpsertKeepsRequester(s, CompleteClaimIfDone(s2, f.claim, item), k, item, l, user);
      case DoReverse(caller, n) =>
        var f := s.fulfillments[n];
        var s1 := s.(fulfillments := s.fulfillments[n := f.(reversed := true)]);
        RecomputeSettlesNothing(s1, f.item, Allow);
        UpsertKeepsRequester(s, RecomputeItem(s1, f.item, Allow), PayingKey(s, f), f.item, l, user);
      case DoDeleteItem(list, item) =>
        DeleteKeepsRequester(s, Next(s, step), item, l, user);
    }
  }

  lemma DeleteKeepsRequester(s: Db, t: Db, item: Id, l: Id, user: Id)
    requires OneRequester(s, l, user) && ListEditsProofs.ItemDeleted(s, t, item)
    ensures OneRequester(t, l, user)
  {
  }

  lemma UpsertKeepsRequester(s: Db, u: Db, k: Key, item: Id, l: Id, user: Id)
    requires OneRequester(s, l, user)
    requires SameItems(s, u) && u.lists == s.lists && u.reimbursements == s.reimbursements
    requires item in s.items && s.items[item].list in s.lists
    requires k == KeyFor(s, s.items[item].list, s.items[item].requestedBy, k.hauler)
    ensures OneRequester(UpsertReimbursement(u, k), l, user)
  {
    hide CoveredCost, TipOf, TotalOf;
  }

  lemma StepKeepsRequester(s: Db, step: Step, l: Id, user: Id)
    requires Inv(s) && OneRequester(s, l, user) && AddsOnlyFor(s, step, l, user)
    ensures OneRequester(Next(s, step), l, user)
  {
    hide Inv, OneRequester, SettleStep, Next, ClaimsProofs.ClaimChange;
    EveryStepHasAKind(step);
    if IsContractStep(step) {
      ContractStepIsSettleStep(s, step);
      SettleStepKeepsRequester(s, Next(s, step), l, user);
    } else if IsPurchaseStep(step) {
      PurchaseKeepsRequester(s, step, l, user);
    } else if IsClaimStep(step) {
      CacheOf(s);
      var touched := ClaimStepIsClaimChange(s, step);
      ClaimChangeKeepsRequester(s, Next(s, step), touched, l, user);
    } else {
      EditKeepsRequester(s, step, l, user);
    }
  }

  lemma {:induction false} RunKeepsRequester(s: Db, steps: seq<Step>, l: Id, user: Id)
    requires Inv(s) && OneRequester(s, l, user) && RunAddsOnlyFor(s, steps, l, user)
    ensures OneRequester(Run(s, steps), l, user)
    decreases |steps|
  {
    hide Inv, OneRequester, Next, AddsOnlyFor;
    if steps != [] {
      StepKeepsInv(s, steps[0]);
      StepKeepsRequester(s, steps[0], l, user);
      RunKeepsRequester(Next(s, steps[0]), steps[1..], l, user);
    }
  }

  /** A list to which a single user adds items, as far as they are accepted, has one debtor. */
  lemma OneRequesterHasOneDebtor(steps: seq<Step>, l: Id, user: Id)
    requires RunAddsOnlyFor(EMPTY_DB, steps, l, user)
    ensures OneDebtor(Run(EMPTY_DB, steps), l)
  {
    hide Run, RunAddsOnlyFor, Inv;
    EmptyIsFine();
    RunKeepsRequester(EMPTY_DB, steps, l, user);
  }
}
