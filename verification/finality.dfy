/** What is settled stays settled: no step changes a settled item, its live
    fulfilments, or any column of a settled reimbursement. */
module Finality {
  import opened Domain
  import opened Sums
  import opened Database
  import opened Recompute
  import opened Fulfillments
  import opened Settlement
  import opened Contracts
  import opened ListEdits
  import opened Invariant
  import opened FulfillmentsProofs
  import opened SettlementProofs
  import opened Runs
  import opened StepKinds
  import opened Money

  function LiveRows(s: Db, item: Id): map<nat, Fulfillment> {
    map n | n in s.fulfillments && IsLiveOn(s.fulfillments[n], item) :: s.fulfillments[n]
  }

  /** Settled items keep their whole row and their live fulfilments. */
  ghost predicate ItemsFrozen(s: Db, t: Db) {
    forall i | i in s.items && s.items[i].status.Settled? ::
      i in t.items && t.items[i] == s.items[i] && LiveRows(t, i) == LiveRows(s, i)
  }

  /** Settled reimbursements keep their whole row: amounts, contract and settling user. */
  ghost predicate PaidFrozen(s: Db, t: Db) {
    forall k | k in s.reimbursements && s.reimbursements[k].status.Paid? ::
      k in t.reimbursements && t.reimbursements[k] == s.reimbursements[k]
  }

  // ── Items ─────────────────────────────────────────────────────────────────

  lemma SettledRowsSuffice(s: Db, t: Db)
    requires t.fulfillments == s.fulfillments
    requires forall i | i in s.items && s.items[i].status.Settled? :: i in t.items && t.items[i] == s.items[i]
    ensures ItemsFrozen(s, t)
  {
  }

  lemma LiveRowsElsewhere(s: Db, t: Db, j: nat, i: Id)
    requires RowWritten(s, t, j)
    requires t.fulfillments[j].item != i
    requires j in s.fulfillments ==> s.fulfillments[j].item != i
    ensures LiveRows(t, i) == LiveRows(s, i)
  {
  }

  /** A write to an item that is not settled leaves the settled ones alone. */
  lemma WriteFreezesItems(s: Db, t: Db, j: nat, item: Id)
    requires RowWritten(s, t, j) && t.fulfillments[j].item == item
    requires j in s.fulfillments ==> s.fulfillments[j].item == item
    requires item in s.items && !s.items[item].status.Settled?
    requires forall i | i in s.items && i != item :: i in t.items && t.items[i] == s.items[i]
    ensures ItemsFrozen(s, t)
  {
    hide LiveRows;
    forall i | i in s.items && s.items[i].status.Settled?
      ensures LiveRows(t, i) == LiveRows(s, i)
    {
      LiveRowsElsewhere(s, t, j, i);
    }
  }

  lemma ClaimChangeFreezes(s: Db, t: Db, touched: set<Id>)
    requires CacheIsLiveSum(s) && ClaimsProofs.ClaimChange(s, t, touched)
    ensures ItemsFrozen(s, t) && PaidFrozen(s, t)
  {
    hide Sum, HasActiveClaim;
    SettledRowsSuffice(s, t);
  }

  lemma FlipsFreezeItems(s: Db, t: Db)
    requires SettleStep(s, t)
    ensures ItemsFrozen(s, t)
  {
  }

  lemma CompletionKeepsItems(s: Db, claim: Option<Id>, item: Id)
    requires item in s.items
    ensures CompleteClaimIfDone(s, claim, item).items == s.items
    ensures CompleteClaimIfDone(s, claim, item).fulfillments == s.fulfillments
    ensures CompleteClaimIfDone(s, claim, item).nextFulfillment == s.nextFulfillment
    ensures CompleteClaimIfDone(s, claim, item).reimbursements == s.reimbursements
    ensures CompleteClaimIfDone(s, claim, item).lists == s.lists
  {
  }

  lemma UpsertKeepsTables(s: Db, k: Key)
    requires k.list in s.lists
    ensures UpsertReimbursement(s, k) == s.(reimbursements := UpsertReimbursement(s, k).reimbursements)
    ensures PaidFrozen(s, UpsertReimbursement(s, k))
  {
    hide Sum;
  }

  lemma RecordFreezes(s: Db, caller: Caller, list: Id, item: Id, p: Purchase)
    requires Inv(s) && RecordFulfillment(s, caller, list, item, p).Ok?
    ensures ItemsFrozen(s, RecordFulfillment(s, caller, list, item, p).value)
    ensures PaidFrozen(s, RecordFulfillment(s, caller, list, item, p).value)
  {
    hide Sum, HasActiveClaim, ItemsFrozen, OwedSide, BindSide, CacheIsLiveSum, ClaimsRefer, ClaimsExclusive,
         CompleteClaimIfDone, UpsertReimbursement, RecomputedRow;
    var k := RecordChecks(s, caller, list, item, p).value;
    var t := RecordFulfillment(s, caller, list, item, p).value;
    var f := Fulfillment(item, ActiveClaimOf(s, item), caller.user, p.qty, ToCents(p.unitPriceIsk), false);
    // A settled item is full, so a purchase on it would have been refused.
    assert RowFits(s.items[item], HasActiveClaim(s.claimItems, item));
    var s2 := RecomputeItem(InsertFulfillment(s, f), item, Forbid);
    CompletionKeepsItems(s2, f.claim, item);
    UpsertKeepsTables(CompleteClaimIfDone(s2, f.claim, item), k);
    assert FulfillmentsRefer(s) by {
      FulfillmentsReferOf(s);
    }
    WriteFreezesItems(s, t, s.nextFulfillment, item);
  }

  lemma FulfillmentsReferOf(s: Db)
    requires OwedSide(s)
    ensures FulfillmentsRefer(s) && SettledIsPaid(s)
  {
  }

  lemma ReverseFreezes(s: Db, caller: Caller, n: nat)
    requires Inv(s) && ReverseFulfillment(s, caller, n).Ok?
    ensures ItemsFrozen(s, ReverseFulfillment(s, caller, n).value)
    ensures PaidFrozen(s, ReverseFulfillment(s, caller, n).value)
  {
    hide Sum, HasActiveClaim, ItemsFrozen, OwedSide, BindSide, ClaimSide, SettledIsPaid, UpsertReimbursement, RecomputedRow;
    FulfillmentsReferOf(s);
    UnpaidIsNotSettled(s, n);
    var f := s.fulfillments[n];
    var t := ReverseFulfillment(s, caller, n).value;
    var s1 := s.(fulfillments := s.fulfillments[n := f.(reversed := true)]);
    UpsertKeepsTables(RecomputeItem(s1, f.item, Allow), PayingKey(s, f));
    WriteFreezesItems(s, t, n, f.item);
  }

  lemma DeleteFreezes(s: Db, list: Id, item: Id)
    requires DeleteItem(s, list, item).Ok?
    ensures ItemsFrozen(s, DeleteItem(s, list, item).value)
  {
  }

  // ── Settling and binding ──────────────────────────────────────────────────

  lemma ManualFreezesPaid(s: Db, caller: Caller, k: Key)
    requires SettleReimbursement(s, caller, k).Ok?
    ensures PaidFrozen(s, SettleReimbursement(s, caller, k).value)
  {
  }

  lemma ContractFreezesPaid(s: Db, contract: Id)
    requires SettleViaContract(s, contract).Ok?
    ensures PaidFrozen(s, SettleViaContract(s, contract).value)
  {
    hide FlipsByContract, AllItemsSettled, ListsBound, AnyPendingBound, BoundTo;
  }

  lemma LinkFreezesPaid(s: Db, contract: Id, k: Key)
    requires contract in s.contracts && k in s.reimbursements && s.reimbursements[k].status.Pending?
    requires ConfirmAndBind(s, contract, k).Ok?
    ensures PaidFrozen(s, ConfirmAndBind(s, contract, k).value)
  {
    hide SettleViaContract, ExpectedTotal, ConfirmedElsewhere;
    if s.contracts[contract].status.IsTerminalSuccess() {
      ContractFreezesPaid(Bind(s, contract, k), contract);
    }
  }

  lemma ReleaseFreezesPaid(s: Db, t: Db, contract: Id)
    requires t.reimbursements == ReleaseBound(s, contract).reimbursements
    ensures PaidFrozen(s, t)
  {
  }

  lemma ContractStepFreezesPaid(s: Db, step: Step)
    requires IsContractStep(step)
    ensures PaidFrozen(s, Next(s, step))
  {
    hide SettleManual, SettleViaContract, ConfirmAndBind, ReleaseBound, SupersedeAll, ExpectedTotal, ValidateLink,
         PaidFrozen;
    FrozenReflexive(s);
    if Apply(s, step).Ok? {
      match step
      case DoSettle(caller, k) => ManualFreezesPaid(s, caller, k);
      case DoConfirm(user, member, contract, k) =>
        ContractsProofs.LinkNeedsPending(s, user, member, contract, k);
        LinkFreezesPaid(s, contract, k);
      case DoManualLink(user, member, contract, k) =>
        ContractsProofs.LinkNeedsPending(s, user, member, contract, k);
        LinkFreezesPaid(s, contract, k);
      case DoUnlink(contract, allowed, inside) => ReleaseFreezesPaid(s, Next(s, step), contract);
      case DoContractTerminal(contract, status) =>
        if status.IsTerminalSuccess() {
          ContractFreezesPaid(s, contract);
        } else {
          ReleaseFreezesPaid(s, UnbindContract(s, contract), contract);
        }
      case _ => MinorStepFreezesPaid(s, step);
    }
  }

  lemma MinorStepFreezesPaid(s: Db, step: Step)
    requires step.DoReject? || step.DoPropose? || step.DoUpsertContract?
    ensures PaidFrozen(s, Next(s, step))
  {
  }

  // ── Every step, every run ─────────────────────────────────────────────────

  lemma EditStepFreezes(s: Db, step: Step)
    requires IsEditStep(step)
    ensures ItemsFrozen(s, Next(s, step)) && PaidFrozen(s, Next(s, step))
  {
    hide ItemsFrozen, StoredTipPct, TipOf, TotalOf, HasLiveFulfillment;
    SettledRowsSuffice(s, Next(s, step));
  }

  lemma PurchaseStepFreezes(s: Db, step: Step)
    requires Inv(s) && IsPurchaseStep(step)
    ensures ItemsFrozen(s, Next(s, step)) && PaidFrozen(s, Next(s, step))
  {
    hide Inv, ItemsFrozen, RecordFulfillment, ReverseFulfillment;
    if Apply(s, step).Ok? {
      match step
      case DoRecord(caller, list, item, purchase) => RecordFreezes(s, caller, list, item, purchase);
      case DoReverse(caller, n) => ReverseFreezes(s, caller, n);
      case DoDeleteItem(list, item) => DeleteFreezes(s, list, item);
    } else {
      SettledRowsSuffice(s, s);
    }
  }

  lemma StepFreezes(s: Db, step: Step)
    requires Inv(s)
    ensures ItemsFrozen(s, Next(s, step)) && PaidFrozen(s, Next(s, step))
  {
    hide ItemsFrozen, Next, OwedSide, BindSide, ClaimsRefer, ClaimsExclusive, StatusesFit, CacheIsLiveSum,
         RecomputeBulk, SettleStep;
    EveryStepHasAKind(step);
    if IsPurchaseStep(step) {
      PurchaseStepFreezes(s, step);
    } else if IsClaimStep(step) {
      var touched := ClaimStepIsClaimChange(s, step);
      ClaimChangeFreezes(s, Next(s, step), touched);
    } else if IsContractStep(step) {
      ContractStepIsSettleStep(s, step);
      FlipsFreezeItems(s, Next(s, step));
      ContractStepFreezesPaid(s, step);
    } else {
      EditStepFreezes(s, step);
    }
  }

  /** Finality over whole runs: from any consistent database on, a settled item keeps its
      row and its live fulfilments, and a settled reimbursement keeps its row. */
  lemma {:induction false} SettledIsFinal(s: Db, steps: seq<Step>)
    requires Inv(s)
    ensures ItemsFrozen(s, Run(s, steps)) && PaidFrozen(s, Run(s, steps))
    decreases |steps|
  {
    hide Inv, ItemsFrozen, PaidFrozen, Next;
    if steps == [] {
      FrozenReflexive(s);
    } else {
      var t := Next(s, steps[0]);
      StepKeepsInv(s, steps[0]);
      StepFreezes(s, steps[0]);
      SettledIsFinal(t, steps[1..]);
      FrozenTransitive(s, t, Run(t, steps[1..]));
    }
  }

  lemma FrozenTransitive(s: Db, t: Db, u: Db)
    requires ItemsFrozen(s, t) && ItemsFrozen(t, u) && PaidFrozen(s, t) && PaidFrozen(t, u)
    ensures ItemsFrozen(s, u) && PaidFrozen(s, u)
  {
  }

  lemma FrozenReflexive(s: Db)
    ensures ItemsFrozen(s, s) && PaidFrozen(s, s)
  {
  }
}
