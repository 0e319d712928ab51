/** Bought quantities: an item is not over-fulfilled as long as its requested quantity is not
    lowered below what is already bought, and no open item is full as long as it is not
    lowered to what is already bought either. */
module Quantities {
  import opened Domain
  import opened Sums
  import opened Money
  import opened Database
  import opened Recompute
  import opened Fulfillments
  import opened ListEdits
  import opened Invariant
  import opened FulfillmentsProofs
  import opened SettlementProofs
  import opened Runs
  import opened StepKinds
  import Finality

  /** Not more is bought than requested. */
  predicate RowWithin(row: ItemRow) {
    row.qtyFulfilled <= row.qtyRequested
  }

  /** And an open item still lacks something. */
  predicate RowModest(row: ItemRow) {
    RowWithin(row) && (row.status.Open? ==> row.qtyFulfilled < row.qtyRequested)
  }

  ghost predicate WithinAt(s: Db, i: Id) {
    i in s.items ==> RowWithin(s.items[i])
  }

  ghost predicate ModestOn(s: Db, l: Id) {
    forall i | i in s.items && s.items[i].list == l :: RowModest(s.items[i])
  }

  /** An item stays on its list and keeps both properties; a new one has them. */
  ghost predicate KeepsQuantities(s: Db, t: Db, i: Id) {
    i in t.items ==>
      if i !in s.items then RowModest(t.items[i]) else
        && t.items[i].list == s.items[i].list
        && (RowWithin(s.items[i]) ==> RowWithin(t.items[i]))
        && (RowModest(s.items[i]) ==> RowModest(t.items[i]))
  }

  // ── Purchases and reversals ───────────────────────────────────────────────

  lemma RecomputedKeeps(row: ItemRow, qty: int, claimed: bool, demotion: Demotion)
    requires qty <= row.qtyRequested
    ensures var after := RowAfter(row, qty, claimed, demotion);
            && after.list == row.list
            && (RowWithin(row) ==> RowWithin(after))
            && (RowModest(row) ==> RowModest(after))
  {
  }

  lemma LiveQtyAfterInsert(s: Db, f: Fulfillment)
    requires FulfillmentsRefer(s) && !f.reversed
    ensures LiveQty(InsertFulfillment(s, f), f.item) == LiveQty(s, f.item) + f.qty
  {
    var t := InsertFulfillment(s, f);
    SumOfEqual(s.nextFulfillment, QtyAt(s.fulfillments, f.item), QtyAt(t.fulfillments, f.item));
  }

  lemma LiveQtyAfterReversal(s: Db, n: nat)
    requires FulfillmentsRefer(s) && n in s.fulfillments && !s.fulfillments[n].reversed
    ensures var f := s.fulfillments[n];
            LiveQty(s.(fulfillments := s.fulfillments[n := f.(reversed := true)]), f.item)
            == LiveQty(s, f.item) - f.qty
  {
    var f := s.fulfillments[n];
    var t := s.(fulfillments := s.fulfillments[n := f.(reversed := true)]);
    SumOfUpdate(s.nextFulfillment, QtyAt(s.fulfillments, f.item), QtyAt(t.fulfillments, f.item), n);
  }

  lemma RecordKeepsQuantities(s: Db, caller: Caller, list: Id, item: Id, p: Purchase, i: Id)
    requires Inv(s) && RecordFulfillment(s, caller, list, item, p).Ok?
    ensures KeepsQuantities(s, RecordFulfillment(s, caller, list, item, p).value, i)
  {
    hide Sum, LiveQty, HasActiveClaim, BindSide, ClaimsRefer, ClaimsExclusive, StatusesFit, CompleteClaimIfDone, UpsertReimbursement,
         RowModest, RowWithin, RowAfter, EveryPurchaseOwed, SettledIsPaid, TotalsAddUp, ReimbursementsRefer, ItemsRefer;
    var k := RecordChecks(s, caller, list, item, p).value;
    var f := Fulfillment(item, ActiveClaimOf(s, item), caller.user, p.qty, ToCents(p.unitPriceIsk), false);
    var s1 := InsertFulfillment(s, f);
    var s2 := RecomputeItem(s1, item, Forbid);
    Finality.CompletionKeepsItems(s2, f.claim, item);
    Finality.UpsertKeepsTables(CompleteClaimIfDone(s2, f.claim, item), k);
    LiveQtyAfterInsert(s, f);
    RecomputedKeeps(s.items[item], LiveQty(s1, item), HasActiveClaim(s1.claimItems, item), Forbid);
  }

  /** A reversal writes the item's row only, with what is live then. */
  lemma ReverseRecomputes(s: Db, caller: Caller, n: nat)
    requires Inv(s) && ReverseFulfillment(s, caller, n).Ok?
    ensures n in s.fulfillments && s.fulfillments[n].item in s.items
    ensures var t, item := ReverseFulfillment(s, caller, n).value, s.fulfillments[n].item;
            && t.items == s.items[item := t.items[item]]
            && !s.items[item].status.Settled?
            && t.items[item] == RowAfter(s.items[item], s.items[item].qtyFulfilled - s.fulfillments[n].qty,
                                         HasActiveClaim(s.claimItems, item), Allow)
            && s.fulfillments[n].qty > 0
  {
    hide Sum, LiveQty, HasActiveClaim, BindSide, ClaimsRefer, ClaimsExclusive, StatusesFit, UpsertReimbursement, RowAfter,
         EveryPurchaseOwed, SettledIsPaid, TotalsAddUp, ReimbursementsRefer, ItemsRefer;
    var f := s.fulfillments[n];
    var s1 := s.(fulfillments := s.fulfillments[n := f.(reversed := true)]);
    UnpaidIsNotSettled(s, n);
    LiveQtyAfterReversal(s, n);
    Finality.UpsertKeepsTables(RecomputeItem(s1, f.item, Allow), PayingKey(s, f));
  }

  /** After a reversal an item that was not over-fulfilled is short. */
  lemma ReverseLeavesShort(s: Db, caller: Caller, n: nat)
    requires Inv(s) && ReverseFulfillment(s, caller, n).Ok? && RowWithin(s.items[s.fulfillments[n].item])
    ensures var t, item := ReverseFulfillment(s, caller, n).value, s.fulfillments[n].item;
            && item in t.items && RowModest(t.items[item])
            && t.items[item].qtyFulfilled < t.items[item].qtyRequested
  {
    hide Inv, ReverseFulfillment, HasActiveClaim;
    ReverseRecomputes(s, caller, n);
  }

  lemma ReverseKeepsQuantities(s: Db, caller: Caller, n: nat, i: Id)
    requires Inv(s) && ReverseFulfillment(s, caller, n).Ok?
    ensures KeepsQuantities(s, ReverseFulfillment(s, caller, n).value, i)
  {
    hide Inv, ReverseFulfillment, HasActiveClaim;
    ReverseRecomputes(s, caller, n);
    if RowWithin(s.items[s.fulfillments[n].item]) {
      ReverseLeavesShort(s, caller, n);
    }
  }

  // ── Other steps ───────────────────────────────────────────────────────────

  lemma ClaimChangeKeepsQuantities(s: Db, t: Db, touched: set<Id>, i: Id)
    requires CacheIsLiveSum(s) && ClaimsProofs.ClaimChange(s, t, touched)
    ensures KeepsQuantities(s, t, i)
  {
    hide Sum, HasActiveClaim;
  }

  lemma FlipsKeepQuantities(s: Db, t: Db, i: Id)
    requires SettleStep(s, t)
    ensures KeepsQuantities(s, t, i)
  {
  }

  lemma EditKeepsQuantities(s: Db, step: Step, i: Id)
    requires IsEditStep(step) && !(step.DoPatchItem? && step.item == i)
    ensures KeepsQuantities(s, Next(s, step), i)
  {
    hide StoredTipPct, TipOf, TotalOf, HasLiveFulfillment;
  }

  lemma PurchaseKeepsQuantities(s: Db, step: Step, i: Id)
    requires Inv(s) && IsPurchaseStep(step)
    ensures KeepsQuantities(s, Next(s, step), i)
  {
    hide Inv, RecordFulfillment, ReverseFulfillment;
    if Apply(s, step).Ok? {
      match step
      case DoRecord(caller, list, item, purchase) => RecordKeepsQuantities(s, caller, list, item, purchase, i);
      case DoReverse(caller, n) => ReverseKeepsQuantities(s, caller, n, i);
      case DoDeleteItem(list, item) =>
    }
  }

  /** Only a patch of the item itself can leave it over-fulfilled, or open and full. */
  lemma StepKeepsQuantities(s: Db, step: Step, i: Id)
    requires Inv(s) && !(step.DoPatchItem? && step.item == i)
    ensures KeepsQuantities(s, Next(s, step), i)
  {
    hide KeepsQuantities, Next, OwedSide, BindSide, ClaimsRefer, ClaimsExclusive, StatusesFit, CacheIsLiveSum,
         ClaimsProofs.ClaimChange, SettleStep;
    EveryStepHasAKind(step);
    if IsPurchaseStep(step) {
      PurchaseKeepsQuantities(s, step, i);
    } else if IsClaimStep(step) {
      var touched := ClaimStepIsClaimChange(s, step);
      ClaimChangeKeepsQuantities(s, Next(s, step), touched, i);
    } else if IsContractStep(step) {
      ContractStepIsSettleStep(s, step);
      FlipsKeepQuantities(s, Next(s, step), i);
    } else {
      EditKeepsQuantities(s, step, i);
    }
  }

  // ── Lowering a requested quantity ─────────────────────────────────────────

  /** Patching an item checks its status only. It leaves the item within its quantity exactly
      when it asks for at least what is already bought. */
  lemma PatchIsWithinIffAtLeastBought(s: Db, list: Id, item: Id, qty: int)
    requires PatchItem(s, list, item, qty).Ok?
    ensures WithinAt(PatchItem(s, list, item, qty).value, item) <==> qty >= s.items[item].qtyFulfilled
  {
    assert PatchItem(s, list, item, qty).value.items[item] == s.items[item].(qtyRequested := qty);
  }

  /** It leaves no open item full exactly when it asks for more than is already bought. */
  lemma PatchIsModestIffAboveBought(s: Db, list: Id, item: Id, qty: int)
    requires ModestOn(s, list) && PatchItem(s, list, item, qty).Ok?
    ensures ModestOn(PatchItem(s, list, item, qty).value, list) <==> qty > s.items[item].qtyFulfilled
  {
    var t := PatchItem(s, list, item, qty).value;
    assert t.items[item] == s.items[item].(qtyRequested := qty);
  }

  // ── Every step, every run ─────────────────────────────────────────────────

  /** A patch of `i` that is not refused asks for at least what is bought. */
  ghost predicate PatchesAtLeastBought(s: Db, step: Step, i: Id) {
    step.DoPatchItem? && step.item == i && Apply(s, step).Ok? && i in s.items ==> step.qty >= s.items[i].qtyFulfilled
  }

  ghost predicate RunPatchesAtLeastBought(s: Db, steps: seq<Step>, i: Id)
    decreases |steps|
  {
    steps == [] || (PatchesAtLeastBought(s, steps[0], i) && RunPatchesAtLeastBought(Next(s, steps[0]), steps[1..], i))
  }

  lemma StepIsWithin(s: Db, step: Step, i: Id)
    requires Inv(s) && WithinAt(s, i) && PatchesAtLeastBought(s, step, i)
    ensures WithinAt(Next(s, step), i)
  {
    hide Inv;
    if step.DoPatchItem? && step.item == i {
      if Apply(s, step).Ok? {
        PatchIsWithinIffAtLeastBought(s, step.list, step.item, step.qty);
      }
    } else {
      hide Next;
      StepKeepsQuantities(s, step, i);
    }
  }

  /** An item is never over-fulfilled in a run whose patches of this item, as far as they are
      not refused, ask for at least what is bought. */
  lemma {:induction false} RunIsWithin(s: Db, steps: seq<Step>, i: Id)
    requires Inv(s) && WithinAt(s, i) && RunPatchesAtLeastBought(s, steps, i)
    ensures WithinAt(Run(s, steps), i)
    decreases |steps|
  {
    hide Inv, WithinAt, Next, PatchesAtLeastBought;
    if steps != [] {
      StepKeepsInv(s, steps[0]);
      StepIsWithin(s, steps[0], i);
      RunIsWithin(Next(s, steps[0]), steps[1..], i);
    }
  }

  /** A patch on list `l` that is not refused asks for more than is bought. */
  ghost predicate PatchesAboveBought(s: Db, step: Step, l: Id) {
    step.DoPatchItem? && step.list == l && Apply(s, step).Ok? && step.item in s.items ==>
      step.qty > s.items[step.item].qtyFulfilled
  }

  ghost predicate RunPatchesAboveBought(s: Db, steps: seq<Step>, l: Id)
    decreases |steps|
  {
    steps == [] || (PatchesAboveBought(s, steps[0], l) && RunPatchesAboveBought(Next(s, steps[0]), steps[1..], l))
  }

  lemma PatchStepIsModest(s: Db, step: Step, l: Id)
    requires ModestOn(s, l) && step.DoPatchItem? && PatchesAboveBought(s, step, l)
    ensures ModestOn(Next(s, step), l)
  {
  }

  lemma StepIsModest(s: Db, step: Step, l: Id)
    requires Inv(s) && ModestOn(s, l) && PatchesAboveBought(s, step, l)
    ensures ModestOn(Next(s, step), l)
  {
    hide Inv, Next, Apply;
    if step.DoPatchItem? {
      PatchStepIsModest(s, step, l);
    } else {
      forall i | i in Next(s, step).items && Next(s, step).items[i].list == l
        ensures RowModest(Next(s, step).items[i])
      {
        StepKeepsQuantities(s, step, i);
      }
    }
  }

  /** In any such run no item of the list is over-fulfilled, and no open one is full. */
  lemma {:induction false} RunIsModest(s: Db, steps: seq<Step>, l: Id)
    requires Inv(s) && ModestOn(s, l) && RunPatchesAboveBought(s, steps, l)
    ensures ModestOn(Run(s, steps), l)
    decreases |steps|
  {
    hide Inv, ModestOn, Next, PatchesAboveBought;
    if steps != [] {
      StepKeepsInv(s, steps[0]);
      StepIsModest(s, steps[0], l);
      RunIsModest(Next(s, steps[0]), steps[1..], l);
    }
  }
}
