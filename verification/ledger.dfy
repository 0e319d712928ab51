/** The ledger: each reimbursement's subtotal is the cost of the live fulfilments that it
    pays for, and all subtotals of a list add up to all its live fulfilments. */
module Ledger {
  import opened Domain
  import opened Sums
  import opened Money
  import opened Database
  import opened Recompute
  import opened Fulfillments
  import opened ListEdits
  import opened Invariant
  import opened RecomputeProofs
  import opened FulfillmentsProofs
  import opened Runs
  import opened StepKinds
  import Finality

  /** Every subtotal of the list is the cost of what it pays for. */
  ghost predicate Balanced(s: Db, l: Id) {
    forall k | k in s.reimbursements && k.list == l :: s.reimbursements[k].subtotal == CoveredCost(s, k)
  }

  // ── Steps that do not touch fulfilments ───────────────────────────────────

  /** Items may come and change, but keep their list and requester. */
  ghost predicate OwnersKept(s: Db, t: Db) {
    forall i | i in s.items ::
      i in t.items && t.items[i].list == s.items[i].list && t.items[i].requestedBy == s.items[i].requestedBy
  }

  lemma CoveredCostKept(s: Db, t: Db, k: Key)
    requires FulfillmentsRefer(s) && OwnersKept(s, t)
    requires t.fulfillments == s.fulfillments && t.nextFulfillment == s.nextFulfillment
    ensures CoveredCost(t, k) == CoveredCost(s, k)
  {
    SumOfEqual(s.nextFulfillment, CoveredCostAt(s, k), CoveredCostAt(t, k));
  }

  ghost predicate SubtotalsKept(s: Db, t: Db) {
    && t.reimbursements.Keys == s.reimbursements.Keys
    && forall k | k in s.reimbursements :: t.reimbursements[k].subtotal == s.reimbursements[k].subtotal
  }

  ghost predicate LedgerInputsKept(s: Db, t: Db) {
    && OwnersKept(s, t) && SubtotalsKept(s, t)
    && t.fulfillments == s.fulfillments && t.nextFulfillment == s.nextFulfillment
  }

  lemma BalanceKept(s: Db, t: Db, l: Id)
    requires Balanced(s, l) && FulfillmentsRefer(s) && LedgerInputsKept(s, t)
    ensures Balanced(t, l)
  {
    hide Sum, OwnersKept, FulfillmentsRefer;
    forall k | k in t.reimbursements && k.list == l
      ensures CoveredCost(t, k) == CoveredCost(s, k)
    {
      CoveredCostKept(s, t, k);
    }
  }

  // ── Purchases and reversals ───────────────────────────────────────────────

  /** `t` is `s` after a write to fulfilment `j`, which `k` pays for. */
  ghost predicate WriteFor(s: Db, t: Db, k: Key, j: nat) {
    && RowWritten(s, t, j) && SameItems(s, t)
    && t.fulfillments[j].item in s.items
    && s.items[t.fulfillments[j].item].list in s.lists
    && k == PayingKey(s, t.fulfillments[j])
    && (j in s.fulfillments ==> s.fulfillments[j].item == t.fulfillments[j].item
                                && s.fulfillments[j].hauler == t.fulfillments[j].hauler)
  }

  lemma RowNotCovered(s: Db, t: Db, k: Key, j: nat, other: Key)
    requires ReimbursementsRefer(s) && WriteFor(s, t, k, j)
    requires other in s.reimbursements && other != k
    ensures !Covers(t, other, t.fulfillments[j])
    ensures j in s.fulfillments ==> !Covers(s, other, s.fulfillments[j])
  {
  }

  lemma OtherRowKept(s: Db, t: Db, k: Key, j: nat, other: Key, n: nat)
    requires ReimbursementsRefer(s) && FulfillmentsRefer(s) && WriteFor(s, t, k, j)
    requires other in s.reimbursements && other != k
    ensures CoveredCostAt(s, other)(n) == CoveredCostAt(t, other)(n)
  {
    hide ReimbursementsRefer;
    if n == j {
      RowNotCovered(s, t, k, j, other);
    }
  }

  lemma SumStep(n: nat, g: nat -> int)
    requires n > 0
    ensures Sum(n, g) == Sum(n - 1, g) + g(n - 1)
  {
  }

  lemma OtherCostsKept(s: Db, t: Db, k: Key, j: nat, other: Key)
    requires ReimbursementsRefer(s) && FulfillmentsRefer(s) && WriteFor(s, t, k, j)
    requires other in s.reimbursements && other != k
    ensures CoveredCost(t, other) == CoveredCost(s, other)
  {
    hide Sum, ReimbursementsRefer, FulfillmentsRefer, Covers;
    var before, after := CoveredCostAt(s, other), CoveredCostAt(t, other);
    forall n: nat
      ensures before(n) == after(n)
    {
      OtherRowKept(s, t, k, j, other, n);
    }
    SumOfEqual(s.nextFulfillment, before, after);
    if j == s.nextFulfillment {
      SumStep(t.nextFulfillment, after);
      assert after(j) == before(j) == 0;
    }
  }

  lemma WriteKeepsBalance(s: Db, u: Db, k: Key, j: nat, l: Id)
    requires Balanced(s, l) && OwedSide(s)
    requires WriteFor(s, u, k, j) && u.lists == s.lists && u.reimbursements == s.reimbursements
    requires FulfillmentsRefer(u)
    requires k in s.reimbursements ==> s.reimbursements[k].status.Pending?
    ensures Balanced(UpsertReimbursement(u, k), l)
  {
    hide Sum, SettledIsPaid, EveryPurchaseOwed, TotalsAddUp, CoveredCostAt;
    var t := UpsertReimbursement(u, k);
    Finality.UpsertKeepsTables(u, k);
    forall other | other in t.reimbursements && other.list == l
      ensures t.reimbursements[other].subtotal == CoveredCost(t, other)
    {
      CoveredCostKept(u, t, other);
      if other != k {
        OtherCostsKept(s, u, k, j, other);
      }
    }
  }

  lemma RecordKeepsBalance(s: Db, caller: Caller, list: Id, item: Id, p: Purchase, l: Id)
    requires Inv(s) && Balanced(s, l) && RecordFulfillment(s, caller, list, item, p).Ok?
    ensures Balanced(RecordFulfillment(s, caller, list, item, p).value, l)
  {
    hide Sum, HasActiveClaim, ClaimSide, BindSide, Balanced, CompleteClaimIfDone, UpsertReimbursement, RecomputedRow,
         EveryPurchaseOwed, SettledIsPaid, TotalsAddUp, ReimbursementsRefer;
    var k := RecordChecks(s, caller, list, item, p).value;
    var f := Fulfillment(item, ActiveClaimOf(s, item), caller.user, p.qty, ToCents(p.unitPriceIsk), false);
    var s2 := RecomputeItem(InsertFulfillment(s, f), item, Forbid);
    RecomputeSettlesNothing(InsertFulfillment(s, f), item, Forbid);
    Finality.CompletionKeepsItems(s2, f.claim, item);
    WriteKeepsBalance(s, CompleteClaimIfDone(s2, f.claim, item), k, s.nextFulfillment, l);
  }

  lemma ReverseKeepsBalance(s: Db, caller: Caller, n: nat, l: Id)
    requires Inv(s) && Balanced(s, l) && ReverseFulfillment(s, caller, n).Ok?
    ensures Balanced(ReverseFulfillment(s, caller, n).value, l)
  {
    hide Sum, HasActiveClaim, ClaimSide, BindSide, Balanced, UpsertReimbursement, RecomputedRow,
         EveryPurchaseOwed, SettledIsPaid, TotalsAddUp, ReimbursementsRefer;
    var f := s.fulfillments[n];
    var s1 := s.(fulfillments := s.fulfillments[n := f.(reversed := true)]);
    RecomputeSettlesNothing(s1, f.item, Allow);
    WriteKeepsBalance(s, RecomputeItem(s1, f.item, Allow), PayingKey(s, f), n, l);
  }

  // ── Deleting an item ──────────────────────────────────────────────────────

  /** What deleting `item` takes away from the cost covered by `k`. */
  function LostAt(s: Db, k: Key, item: Id): nat -> int {
    (n: nat) =>
      if n in s.fulfillments && s.fulfillments[n].item == item && Covers(s, k, s.fulfillments[n])
      then s.fulfillments[n].qty * s.fulfillments[n].unitPrice else 0
  }

  lemma CostAfterDelete(s: Db, t: Db, item: Id, k: Key)
    requires FulfillmentsRefer(s) && ListEditsProofs.ItemDeleted(s, t, item)
    ensures CoveredCost(s, k) == CoveredCost(t, k) + Sum(s.nextFulfillment, LostAt(s, k, item))
  {
    SumOfSum(s.nextFulfillment, CoveredCostAt(t, k), LostAt(s, k, item), CoveredCostAt(s, k));
  }

  lemma NothingLostWhenFree(s: Db, item: Id, k: Key)
    requires FulfillmentsRefer(s) && LiveCost(s, item) == 0
    ensures Sum(s.nextFulfillment, LostAt(s, k, item)) == 0
  {
    hide Sum;
    SumZeroIffAllZero(s.nextFulfillment, CostAt(s.fulfillments, item));
    forall n: nat | n < s.nextFulfillment
      ensures LostAt(s, k, item)(n) == 0
    {
      assert CostAt(s.fulfillments, item)(n) == 0;
    }
    SumZeroIffAllZero(s.nextFulfillment, LostAt(s, k, item));
  }

  lemma FreeWhenNothingLost(s: Db, item: Id)
    requires OwedSide(s) && item in s.items
    requires forall k | k in s.reimbursements && k.list == s.items[item].list :: Sum(s.nextFulfillment, LostAt(s, k, item)) == 0
    ensures LiveCost(s, item) == 0
  {
    hide Sum, SettledIsPaid, TotalsAddUp;
    forall n: nat | n < s.nextFulfillment
      ensures CostAt(s.fulfillments, item)(n) == 0
    {
      if n in s.fulfillments && IsLiveOn(s.fulfillments[n], item) {
        var k := PayingKey(s, s.fulfillments[n]);
        SumZeroIffAllZero(s.nextFulfillment, LostAt(s, k, item));
        assert LostAt(s, k, item)(n) == 0;
      }
    }
    SumZeroIffAllZero(s.nextFulfillment, CostAt(s.fulfillments, item));
  }

  /** Deleting an item checks its status only. It keeps the list's ledger balanced exactly
      when the live fulfilments that it takes along cost nothing. */
  lemma DeleteKeepsBalanceIffFree(s: Db, list: Id, item: Id)
    requires Inv(s) && Balanced(s, list) && DeleteItem(s, list, item).Ok?
    ensures Balanced(DeleteItem(s, list, item).value, list) <==> LiveCost(s, item) == 0
  {
    hide Sum, ClaimSide, BindSide, ReimbursementsRefer, EveryPurchaseOwed, SettledIsPaid, TotalsAddUp;
    var t := DeleteItem(s, list, item).value;
    forall k
      ensures CoveredCost(s, k) == CoveredCost(t, k) + Sum(s.nextFulfillment, LostAt(s, k, item))
      ensures LiveCost(s, item) == 0 ==> Sum(s.nextFulfillment, LostAt(s, k, item)) == 0
    {
      CostAfterDelete(s, t, item, k);
      if LiveCost(s, item) == 0 {
        NothingLostWhenFree(s, item, k);
      }
    }
    if Balanced(t, list) {
      forall k | k in s.reimbursements && k.list == list
        ensures Sum(s.nextFulfillment, LostAt(s, k, item)) == 0
      {
        assert s.reimbursements[k].subtotal == CoveredCost(t, k);
      }
      FreeWhenNothingLost(s, item);
    }
  }

  lemma NothingLostElsewhere(s: Db, item: Id, k: Key)
    requires item in s.items ==> s.items[item].list != k.list
    ensures Sum(s.nextFulfillment, LostAt(s, k, item)) == 0
  {
    hide Sum;
    SumZeroIffAllZero(s.nextFulfillment, LostAt(s, k, item));
  }

  /** The ledgers of other lists stay as they are. */
  lemma DeleteKeepsOtherLists(s: Db, list: Id, item: Id, l: Id)
    requires Inv(s) && Balanced(s, l) && DeleteItem(s, list, item).Ok? && l != list
    ensures Balanced(DeleteItem(s, list, item).value, l)
  {
    hide Sum, CoveredCost, ClaimSide, BindSide, ReimbursementsRefer, EveryPurchaseOwed, SettledIsPaid, TotalsAddUp;
    var t := DeleteItem(s, list, item).value;
    forall k | k in t.reimbursements && k.list == l
      ensures CoveredCost(t, k) == CoveredCost(s, k)
    {
      CostAfterDelete(s, t, item, k);
      NothingLostElsewhere(s, item, k);
    }
  }

  // ── Every step, every run ─────────────────────────────────────────────────

  lemma ClaimChangeKeepsInputs(s: Db, t: Db, touched: set<Id>)
    requires ClaimsProofs.ClaimChange(s, t, touched)
    ensures LedgerInputsKept(s, t)
  {
  }

  lemma EditStepKeepsInputs(s: Db, step: Step)
    requires IsEditStep(step)
    ensures LedgerInputsKept(s, Next(s, step))
  {
    hide StoredTipPct, TipOf, TotalOf, HasLiveFulfillment;
  }

  lemma SettlesKeepInputs(s: Db, t: Db)
    requires SettlementProofs.SettleStep(s, t)
    ensures LedgerInputsKept(s, t)
  {
  }

  /** A deletion on list `l` that is not refused takes along live fulfilments that cost nothing. */
  ghost predicate DeletesOnlyFree(s: Db, step: Step, l: Id) {
    step.DoDeleteItem? && step.list == l && Apply(s, step).Ok? ==> LiveCost(s, step.item) == 0
  }

  lemma StepKeepsBalance(s: Db, step: Step, l: Id)
    requires Inv(s) && Balanced(s, l) && DeletesOnlyFree(s, step, l)
    ensures Balanced(Next(s, step), l)
  {
    hide Balanced, LedgerInputsKept, Next, Sum, BindSide, ClaimsRefer, ClaimsExclusive, StatusesFit, CacheIsLiveSum,
         ReimbursementsRefer, EveryPurchaseOwed, SettledIsPaid, TotalsAddUp, FulfillmentsRefer,
         ClaimsProofs.ClaimChange, SettlementProofs.SettleStep;
    var t := Next(s, step);
    EveryStepHasAKind(step);
    if IsPurchaseStep(step) {
      PurchaseStepKeepsBalance(s, step, l);
    } else {
      if IsClaimStep(step) {
        var touched := ClaimStepIsClaimChange(s, step);
        ClaimChangeKeepsInputs(s, t, touched);
      } else if IsContractStep(step) {
        ContractStepIsSettleStep(s, step);
        SettlesKeepInputs(s, t);
      } else {
        EditStepKeepsInputs(s, step);
      }
      BalanceKept(s, t, l);
    }
  }

  lemma PurchaseStepKeepsBalance(s: Db, step: Step, l: Id)
    requires Inv(s) && Balanced(s, l) && DeletesOnlyFree(s, step, l)
    requires IsPurchaseStep(step)
    ensures Balanced(Next(s, step), l)
  {
    hide Inv, Balanced, RecordFulfillment, ReverseFulfillment, DeleteItem;
    if Apply(s, step).Ok? {
      match step
      case DoRecord(caller, list, item, purchase) => RecordKeepsBalance(s, caller, list, item, purchase, l);
      case DoReverse(caller, n) => ReverseKeepsBalance(s, caller, n, l);
      case DoDeleteItem(list, item) =>
        if list == l {
          DeleteKeepsBalanceIffFree(s, list, item);
        } else {
          DeleteKeepsOtherLists(s, list, item, l);
        }
    }
  }

  /** No deletion along the run that is not refused takes along what the list still owes for. */
  ghost predicate RunDeletesOnlyFree(s: Db, steps: seq<Step>, l: Id)
    decreases |steps|
  {
    steps == [] || (DeletesOnlyFree(s, steps[0], l) && RunDeletesOnlyFree(Next(s, steps[0]), steps[1..], l))
  }

  /** Conservation: after any such run every subtotal of the list, pending or settled, is the
      cost of the live fulfilments that the reimbursement pays for. */
  lemma {:induction false} RunKeepsBalance(s: Db, steps: seq<Step>, l: Id)
    requires Inv(s) && Balanced(s, l) && RunDeletesOnlyFree(s, steps, l)
    ensures Balanced(Run(s, steps), l)
    decreases |steps|
  {
    hide Inv, Balanced, Next, DeletesOnlyFree;
    if steps != [] {
      StepKeepsInv(s, steps[0]);
      StepKeepsBalance(s, steps[0], l);
      RunKeepsBalance(Next(s, steps[0]), steps[1..], l);
    }
  }

  // ── All of a list ─────────────────────────────────────────────────────────

  function KeysOfList(s: Db, list: Id): set<Key> {
    set k | k in s.reimbursements && k.list == list
  }

  function SubtotalAt(s: Db): Key -> int {
    (k: Key) => if k in s.reimbursements then s.reimbursements[k].subtotal else 0
  }

  function ListCostAt(s: Db, list: Id): nat -> int {
    (n: nat) =>
      if LiveOnList(s, list, n) then s.fulfillments[n].qty * s.fulfillments[n].unitPrice else 0
  }

  function CoveredUpTo(s: Db, n: nat): Key -> int {
    (k: Key) => Sum(n, CoveredCostAt(s, k))
  }

  function CoveredOf(s: Db, n: nat): Key -> int {
    (k: Key) => CoveredCostAt(s, k)(n)
  }

  predicate LiveOnList(s: Db, list: Id, n: nat) {
    && n in s.fulfillments && !s.fulfillments[n].reversed
    && s.fulfillments[n].item in s.items && s.items[s.fulfillments[n].item].list == list
  }

  lemma OnlyPayerCovers(s: Db, list: Id, n: nat, k: Key)
    requires ReimbursementsRefer(s) && k in s.reimbursements && k.list == list
    requires LiveOnList(s, list, n) && s.items[s.fulfillments[n].item].list in s.lists
             ==> k != PayingKey(s, s.fulfillments[n])
    ensures CoveredCostAt(s, k)(n) == 0
  {
  }

  /** Each live fulfilment of a list is covered by one of its reimbursements, once. */
  lemma EachPaidOnce(s: Db, list: Id, n: nat)
    requires ReimbursementsRefer(s) && EveryPurchaseOwed(s)
    ensures SetSum(KeysOfList(s, list), CoveredOf(s, n)) == ListCostAt(s, list)(n)
  {
    hide SetSum, ReimbursementsRefer;
    var keys := KeysOfList(s, list);
    forall k | k in keys && (LiveOnList(s, list, n) ==> k != PayingKey(s, s.fulfillments[n]))
      ensures CoveredOf(s, n)(k) == 0
    {
      OnlyPayerCovers(s, list, n, k);
    }
    if LiveOnList(s, list, n) {
      var payer := PayingKey(s, s.fulfillments[n]);
      assert Covers(s, payer, s.fulfillments[n]);
      assert CoveredOf(s, n)(payer) == CoveredCostAt(s, payer)(n);
      SetSumOfOne(keys, CoveredOf(s, n), payer);
    } else {
      SetSumOfZeros(keys, CoveredOf(s, n));
    }
  }

  lemma {:induction false} CoveredAddsUp(s: Db, list: Id, n: nat)
    requires ReimbursementsRefer(s) && EveryPurchaseOwed(s)
    ensures SetSum(KeysOfList(s, list), CoveredUpTo(s, n)) == Sum(n, ListCostAt(s, list))
  {
    hide SetSum, ListCostAt, CoveredCostAt, ReimbursementsRefer, EveryPurchaseOwed;
    var keys := KeysOfList(s, list);
    if n == 0 {
      SetSumOfZeros(keys, CoveredUpTo(s, n));
    } else {
      CoveredAddsUp(s, list, n - 1);
      EachPaidOnce(s, list, n - 1);
      SetSumOfSum(keys, CoveredUpTo(s, n - 1), CoveredOf(s, n - 1), CoveredUpTo(s, n));
    }
  }

  /** In a balanced database the subtotals of a list add up to the cost of all its live
      fulfilments: every purchase is owed exactly once. */
  lemma ListOwesWhatWasBought(s: Db, list: Id)
    requires Inv(s) && Balanced(s, list)
    ensures SetSum(KeysOfList(s, list), SubtotalAt(s)) == Sum(s.nextFulfillment, ListCostAt(s, list))
  {
    hide SetSum, ClaimSide, BindSide, CoveredCostAt;
    SetSumOfEqual(KeysOfList(s, list), SubtotalAt(s), CoveredUpTo(s, s.nextFulfillment));
    CoveredAddsUp(s, list, s.nextFulfillment);
  }
}
