/** Tip rates: whether the pending reimbursements carry the rate that their list stores. */
module Rates {
  import opened Domain
  import opened Sums
  import opened Money
  import opened Database
  import opened Recompute
  import opened Fulfillments
  import opened ListEdits
  import opened Invariant
  import opened SettlementProofs
  import opened Runs
  import opened StepKinds
  import Finality

  lemma RoundSeparates(x: real, y: real)
    requires 0.0 <= x && x + 1.0 <= y
    ensures RoundHalfAway(x) < RoundHalfAway(y)
  {
  }

  lemma LargeSubtotal(gap: real) returns (n: nat)
    requires gap > 0.0
    ensures n as real * gap >= 1.0
  {
    n := (1.0 / gap).Floor + 1;
    assert n as real > 1.0 / gap;
    assert n as real * gap >= (1.0 / gap) * gap;
  }

  lemma RatesDiffer(low: real, high: real)
    requires 0.0 <= low < high
    ensures exists n: nat :: TipOf(n, low) != TipOf(n, high)
  {
    var n := LargeSubtotal(high - low);
    assert n as real * high == n as real * low + n as real * (high - low);
    assert n as real * low >= 0.0;
    RoundSeparates(n as real * low, n as real * high);
    assert TipOf(n, low) != TipOf(n, high);
  }

  lemma StoredIsNonNegative(pct: real)
    requires pct >= 0.0
    ensures StoredTipPct(pct) >= 0.0
  {
  }

  /** Changing a list's tip stores the rate with four decimals but computes with the rate as
      submitted. The two agree on every subtotal exactly for rates that have no more. */
  lemma TipsAgreeIffFourDecimals(pct: real)
    requires pct >= 0.0
    ensures (forall n: nat :: TipOf(n, pct) == TipOf(n, StoredTipPct(pct))) <==> pct == StoredTipPct(pct)
  {
    hide StoredTipPct, TipOf;
    StoredIsNonNegative(pct);
    if pct < StoredTipPct(pct) {
      RatesDiffer(pct, StoredTipPct(pct));
    } else if pct > StoredTipPct(pct) {
      RatesDiffer(StoredTipPct(pct), pct);
    }
  }

  // ── The rate of pending reimbursements ────────────────────────────────────

  /** Every pending reimbursement of the list has the tip and the total of its stored rate. */
  ghost predicate RatesAgree(s: Db, l: Id) {
    forall k | k in s.reimbursements && s.reimbursements[k].status.Pending? && k.list == l && l in s.lists ::
      && s.reimbursements[k].tip == TipOf(s.reimbursements[k].subtotal, s.lists[l].tipPct)
      && s.reimbursements[k].total == TotalOf(s.reimbursements[k].subtotal, s.lists[l].tipPct)
  }

  /** A change of the list's tip that is not refused submits a rate that is stored as it is. */
  ghost predicate FourDecimals(s: Db, step: Step, l: Id) {
    step.DoSetListTip? && step.list == l && Apply(s, step).Ok? ==> step.pct == StoredTipPct(step.pct)
  }

  lemma ClaimChangeKeepsRates(s: Db, t: Db, touched: set<Id>, l: Id)
    requires RatesAgree(s, l) && ClaimsProofs.ClaimChange(s, t, touched)
    ensures RatesAgree(t, l)
  {
  }

  lemma SettleStepKeepsRates(s: Db, t: Db, l: Id)
    requires RatesAgree(s, l) && SettleStep(s, t)
    ensures RatesAgree(t, l)
  {
  }

  lemma UpsertKeepsRates(s: Db, k: Key, l: Id)
    requires RatesAgree(s, l) && k.list in s.lists
    ensures RatesAgree(UpsertReimbursement(s, k), l)
  {
  }

  lemma PurchaseKeepsRates(s: Db, step: Step, l: Id)
    requires RatesAgree(s, l) && IsPurchaseStep(step)
    ensures RatesAgree(Next(s, step), l)
  {
    hide RatesAgree, Sum, HasActiveClaim, UpsertReimbursement, RecomputedRow, CompleteClaimIfDone, RecordChecks;
    if Apply(s, step).Ok? {
      match step
      case DoRecord(caller, list, item, p) => RecordKeepsRates(s, caller, list, item, p, l);
      case DoReverse(caller, n) =>
        var f := s.fulfillments[n];
        var row := s.items[f.item];
        var u := RecomputeItem(s.(fulfillments := s.fulfillments[n := f.(reversed := true)]), f.item, Allow);
        SameRates(s, u, l);
        UpsertKeepsRates(u, KeyFor(s, row.list, row.requestedBy, f.hauler), l);
      case DoDeleteItem(list, item) => SameRates(s, Next(s, step), l);
    }
  }

  lemma RecordKeepsRates(s: Db, caller: Caller, list: Id, item: Id, p: Purchase, l: Id)
    requires RatesAgree(s, l) && RecordFulfillment(s, caller, list, item, p).Ok?
    ensures RatesAgree(RecordFulfillment(s, caller, list, item, p).value, l)
  {
    hide RatesAgree, Sum, HasActiveClaim, UpsertReimbursement, RecomputedRow, CompleteClaimIfDone;
    var k := RecordChecks(s, caller, list, item, p).value;
    var f := Fulfillment(item, ActiveClaimOf(s, item), caller.user, p.qty, ToCents(p.unitPriceIsk), false);
    var s2 := RecomputeItem(InsertFulfillment(s, f), item, Forbid);
    Finality.CompletionKeepsItems(s2, f.claim, item);
    var u := CompleteClaimIfDone(s2, f.claim, item);
    SameRates(s, u, l);
    UpsertKeepsRates(u, k, l);
  }

  lemma SameRates(s: Db, t: Db, l: Id)
    requires RatesAgree(s, l) && t.lists == s.lists && t.reimbursements == s.reimbursements
    ensures RatesAgree(t, l)
  {
  }

  lemma EditKeepsRates(s: Db, step: Step, l: Id)
    requires Inv(s) && RatesAgree(s, l) && IsEditStep(step) && FourDecimals(s, step, l)
    ensures RatesAgree(Next(s, step), l)
  {
    hide StoredTipPct, TipOf, TotalOf, HasLiveFulfillment, ClaimSide, BindSide, ItemsRefer, FulfillmentsRefer,
         EveryPurchaseOwed, SettledIsPaid, TotalsAddUp;
  }

  lemma StepKeepsRates(s: Db, step: Step, l: Id)
    requires Inv(s) && RatesAgree(s, l) && FourDecimals(s, step, l)
    ensures RatesAgree(Next(s, step), l)
  {
    hide RatesAgree, Next, OwedSide, BindSide, ClaimsRefer, ClaimsExclusive, StatusesFit, CacheIsLiveSum, SettleStep,
         ClaimsProofs.ClaimChange, FourDecimals;
    EveryStepHasAKind(step);
    if IsPurchaseStep(step) {
      PurchaseKeepsRates(s, step, l);
    } else if IsClaimStep(step) {
      var touched := ClaimStepIsClaimChange(s, step);
      ClaimChangeKeepsRates(s, Next(s, step), touched, l);
    } else if IsContractStep(step) {
      ContractStepIsSettleStep(s, step);
      SettleStepKeepsRates(s, Next(s, step), l);
    } else {
      EditKeepsRates(s, step, l);
    }
  }

  ghost predicate RunFourDecimals(s: Db, steps: seq<Step>, l: Id)
    decreases |steps|
  {
    steps == [] || (FourDecimals(s, steps[0], l) && RunFourDecimals(Next(s, steps[0]), steps[1..], l))
  }

  /** In every run whose accepted rates for the list have at most four decimals, all of its
      pending reimbursements carry the rate that it stores. */
  lemma {:induction false} RunKeepsRates(s: Db, steps: seq<Step>, l: Id)
    requires Inv(s) && RatesAgree(s, l) && RunFourDecimals(s, steps, l)
    ensures RatesAgree(Run(s, steps), l)
    decreases |steps|
  {
    hide Inv, RatesAgree, Next, FourDecimals;
    if steps != [] {
      StepKeepsInv(s, steps[0]);
      StepKeepsRates(s, steps[0], l);
      RunKeepsRates(Next(s, steps[0]), steps[1..], l);
    }
  }

  // ── Exactly four decimals ─────────────────────────────────────────────────

  const BUYER: Id := 2
  const DEBT := Key(1, UserPrincipal(1), BUYER)

  /** A list without a tip on which one item was bought for `cents`. */
  function Sold(cents: nat): Db {
    Db(map[1 := ListRow(ListOpen, 0.0, None, 1)], map[10 := ItemRow(1, 1, 1, 1, Bought)], map[], map[],
       map[0 := Fulfillment(10, None, BUYER, 1, cents, false)], 1,
       map[DEBT := Reimbursement(Pending, cents, 0, cents, None, None)], map[], map[])
  }

  function AskedFor(): Db {
    Db(map[1 := ListRow(ListOpen, 0.0, None, 1)], map[10 := ItemRow(1, 1, 1, 0, Open)], map[], map[], map[], 0,
       map[], map[], map[])
  }

  lemma AmountsWithoutTip(cents: nat)
    ensures ToCents(cents as real / 100.0) == cents && TipOf(cents, 0.0) == 0 && TotalOf(cents, 0.0) == cents
  {
    assert cents as real / 100.0 * 100.0 == cents as real;
    assert cents as real * 0.0 == 0.0 && cents as real * (1.0 + 0.0) == cents as real;
  }

  lemma ItemIsAsked()
    ensures CreateList(EMPTY_DB, 1, 1, 0.0).Ok?
    ensures AddItem(CreateList(EMPTY_DB, 1, 1, 0.0).value, Caller(1, false), 1, 10, 1) == Ok(AskedFor())
  {
    assert StoredTipPct(0.0) == 0.0;
  }

  lemma ItemIsSold(cents: nat)
    ensures RecordFulfillment(AskedFor(), Caller(BUYER, false), 1, 10, Purchase(1, cents as real / 100.0, true, true, None))
            == Ok(Sold(cents))
  {
    hide ToCents, TipOf, TotalOf;
    AmountsWithoutTip(cents);
    var p := Purchase(1, cents as real / 100.0, true, true, None);
    assert cents as real / 100.0 >= 0.0;
    var t := RecordFulfillment(AskedFor(), Caller(BUYER, false), 1, 10, p).value;
    SameRows(t.items, Sold(cents).items);
    SameRows(t.reimbursements, Sold(cents).reimbursements);
    SameRows(t.fulfillments, Sold(cents).fulfillments);
  }

  lemma RunOfThree(s: Db, a: Step, b: Step, c: Step)
    ensures Run(s, [a, b, c]) == Next(Next(Next(s, a), b), c)
  {
    hide Next;
    assert [a, b, c][1..] == [b, c] && [b, c][1..] == [c];
    assert Run(Next(Next(s, a), b), [c]) == Next(Next(Next(s, a), b), c);
  }

  lemma SoldIsReachable(cents: nat)
    ensures Reachable(Sold(cents)) && RatesAgree(Sold(cents), 1)
  {
    hide CreateList, AddItem, RecordFulfillment, TipOf, TotalOf;
    AmountsWithoutTip(cents);
    ItemIsAsked();
    ItemIsSold(cents);
    var a, b := DoCreateList(1, 1, 0.0), DoAddItem(Caller(1, false), 1, 10, 1);
    var c := DoRecord(Caller(BUYER, false), 1, 10, Purchase(1, cents as real / 100.0, true, true, None));
    RunOfThree(EMPTY_DB, a, b, c);
    assert Run(EMPTY_DB, [a, b, c]) == Sold(cents);
  }

  /** The rate that the list stores and the rate that its debt carries after a change. */
  lemma TipOfSold(cents: nat, pct: real)
    requires 0.0 <= pct <= 1.0
    ensures var r := SetListTip(Sold(cents), Caller(1, true), 1, pct);
            && r.Ok?
            && (RatesAgree(r.value, 1) ==> TipOf(cents, pct) == TipOf(cents, StoredTipPct(pct)))
  {
    hide TipOf, TotalOf, StoredTipPct;
    var t := SetListTip(Sold(cents), Caller(1, true), 1, pct).value;
    assert t.reimbursements[DEBT].tip == TipOf(cents, pct) && t.lists[1].tipPct == StoredTipPct(pct);
  }

  /** Changing a list's tip keeps the rates of its pending reimbursements, in all reachable
      databases, exactly when the rate has no more than four decimals. */
  lemma TipKeepsRatesIffFourDecimals(pct: real)
    requires 0.0 <= pct <= 1.0
    ensures (forall s, caller, l | Reachable(s) && RatesAgree(s, l) && SetListTip(s, caller, l, pct).Ok? ::
               RatesAgree(SetListTip(s, caller, l, pct).value, l))
            <==> pct == StoredTipPct(pct)
  {
    hide Run, Reachable, RatesAgree, SetListTip, StoredTipPct, TipOf, TotalOf;
    if pct == StoredTipPct(pct) {
      forall s, caller, l | Reachable(s) && RatesAgree(s, l) && SetListTip(s, caller, l, pct).Ok?
        ensures RatesAgree(SetListTip(s, caller, l, pct).value, l)
      {
        TipKeepsRates(s, caller, l, pct);
      }
    } else {
      TipsAgreeIffFourDecimals(pct);
      var n: nat :| TipOf(n, pct) != TipOf(n, StoredTipPct(pct));
      SoldIsReachable(n);
      TipOfSold(n, pct);
    }
  }

  lemma TipKeepsRates(s: Db, caller: Caller, l: Id, pct: real)
    requires SetListTip(s, caller, l, pct).Ok? && pct == StoredTipPct(pct)
    ensures RatesAgree(SetListTip(s, caller, l, pct).value, l)
  {
    hide StoredTipPct, TipOf, TotalOf;
  }

  /** One fifth of a basis point is stored as nothing, yet the pending debt of 10 000 ISK
      carries it: a reachable list without a tip owes a tip of 20 cents. */
  lemma UnstoredRate()
    ensures Reachable(Sold(1_000_000)) && RatesAgree(Sold(1_000_000), 1)
    ensures var r := SetListTip(Sold(1_000_000), Caller(1, true), 1, 0.00002);
            && r.Ok? && r.value.lists[1].tipPct == 0.0 && r.value.reimbursements[DEBT].tip == 20
            && !RatesAgree(r.value, 1)
  {
    SoldIsReachable(1_000_000);
    TwentyCents();
    var t := SetListTip(Sold(1_000_000), Caller(1, true), 1, 0.00002).value;
    assert t.reimbursements[DEBT].status.Pending?;
  }

  lemma TwentyCents()
    ensures StoredTipPct(0.00002) == 0.0 && TipOf(1_000_000, 0.00002) == 20 && TipOf(1_000_000, 0.0) == 0
  {
    assert 0.00002 * 10000.0 == 0.2;
    assert 1_000_000 as real * 0.00002 == 20.0;
    assert 1_000_000 as real * 0.0 == 0.0;
  }
}
