/** A claim holds items of its own list only, in every reachable database. */
module ClaimLists {
  import opened Domain
  import opened Database
  import opened Claims
  import opened Fulfillments
  import opened ListEdits
  import opened Invariant
  import opened ClaimsProofs
  import opened SettlementProofs
  import opened ClaimsRules
  import opened FulfillmentsRules
  import opened ListEditsRules
  import opened Runs
  import opened StepKinds

  /** A claim holds items of its own list only. */
  ghost predicate HoldsOwnItems(s: Db) {
    forall p | p in s.claimItems && p.0 in s.claims && p.1 in s.items :: s.items[p.1].list == s.claims[p.0].list
  }

  /** No claim row is new, and neither claims nor items move to another list. */
  lemma OwnItemsKept(s: Db, t: Db)
    requires HoldsOwnItems(s) && ClaimsRefer(s)
    requires forall p | p in t.claimItems :: p in s.claimItems
    requires forall c | c in s.claims :: c in t.claims && t.claims[c].list == s.claims[c].list
    requires forall i | i in s.items && i in t.items :: t.items[i].list == s.items[i].list
    ensures HoldsOwnItems(t)
  {
  }

  lemma ClaimStepHoldsOwnItems(s: Db, step: Step)
    requires Inv(s) && HoldsOwnItems(s) && IsClaimStep(step)
    ensures HoldsOwnItems(Next(s, step))
  {
    hide Inv, CreateClaim, AddClaimItems, RemoveClaimItem, ReleaseClaim, HasActiveClaim;
    if Apply(s, step).Ok? {
      match step
      case DoCreateClaim(caller, list, ids, newClaim) =>
        CreateWrites(s, caller, list, ids, newClaim);
        ValidatedOnList(s, caller, list, ids, newClaim);
      case DoAddClaimItems(caller, claim, ids) =>
        AddWrites(s, caller, claim, ids);
        AddedOnList(s, caller, claim, ids);
      case DoRemoveClaimItem(caller, claim, item) => RemoveWrites(s, caller, claim, item);
      case DoReleaseClaim(caller, claim) => ReleaseWrites(s, caller, claim);
    }
  }

  lemma ValidatedOnList(s: Db, caller: Caller, list: Id, ids: seq<Id>, newClaim: Id)
    requires Inv(s) && CreateClaim(s, caller, list, ids, newClaim).Ok?
    ensures forall i | i in ids :: i in s.items && s.items[i].list == list
    ensures forall p | p in s.claimItems :: p.0 in s.claims
  {
    hide InsertClaimItems, OwedSide, BindSide, ClaimsExclusive;
    ValidatedAreOpen(s, list, ids);
  }

  lemma AddedOnList(s: Db, caller: Caller, claim: Id, ids: seq<Id>)
    requires AddClaimItems(s, caller, claim, ids).Ok?
    ensures claim in s.claims && forall i | i in ids :: i in s.items && s.items[i].list == s.claims[claim].list
  {
    hide InsertClaimItems;
    ValidatedAreOpen(s, s.claims[claim].list, ids);
  }

  lemma PurchaseHoldsOwnItems(s: Db, step: Step)
    requires Inv(s) && HoldsOwnItems(s) && IsPurchaseStep(step)
    ensures HoldsOwnItems(Next(s, step))
  {
    hide Inv, RecordFulfillment, ReverseFulfillment, DeleteItem, HasActiveClaim, HoldsOwnItems, IsPurchase, NothingLeftToBuy, Owes;
    RefersOf(s);
    if Apply(s, step).Ok? {
      match step
      case DoRecord(caller, list, item, p) =>
        RecordWrites(s, caller, list, item, p);
        RecordKeepsClaims(s, caller, list, item, p);
        OwnItemsKept(s, Next(s, step));
      case DoReverse(caller, n) =>
        ReverseWrites(s, caller, n);
        OwnItemsKept(s, Next(s, step));
      case DoDeleteItem(list, item) =>
        DeleteItemRule(s, list, item);
        OwnItemsKept(s, Next(s, step));
    }
  }

  lemma RefersOf(s: Db)
    requires Inv(s)
    ensures ClaimsRefer(s)
  {
  }

  lemma SettleHoldsOwnItems(s: Db, t: Db)
    requires ClaimsRefer(s) && HoldsOwnItems(s) && SettleStep(s, t)
    ensures HoldsOwnItems(t)
  {
  }

  lemma EditHoldsOwnItems(s: Db, step: Step)
    requires ClaimsRefer(s) && HoldsOwnItems(s) && IsEditStep(step)
    ensures HoldsOwnItems(Next(s, step))
  {
    hide HasLiveFulfillment;
  }

  lemma StepHoldsOwnItems(s: Db, step: Step)
    requires Inv(s) && HoldsOwnItems(s)
    ensures HoldsOwnItems(Next(s, step))
  {
    hide Inv, HoldsOwnItems, Next, ClaimsRefer, SettleStep;
    EveryStepHasAKind(step);
    RefersOf(s);
    if IsClaimStep(step) {
      ClaimStepHoldsOwnItems(s, step);
    } else if IsPurchaseStep(step) {
      PurchaseHoldsOwnItems(s, step);
    } else if IsEditStep(step) {
      EditHoldsOwnItems(s, step);
    } else {
      ContractStepIsSettleStep(s, step);
      SettleHoldsOwnItems(s, Next(s, step));
    }
  }

  lemma {:induction false} RunHoldsOwnItems(s: Db, steps: seq<Step>)
    requires Inv(s) && HoldsOwnItems(s)
    ensures HoldsOwnItems(Run(s, steps))
    decreases |steps|
  {
    hide Inv, HoldsOwnItems, Next;
    if steps != [] {
      StepKeepsInv(s, steps[0]);
      StepHoldsOwnItems(s, steps[0]);
      RunHoldsOwnItems(Next(s, steps[0]), steps[1..]);
    }
  }

  /** Whatever is called, no claim ever holds an item of another list. */
  lemma ReachableHoldsOwnItems(s: Db)
    requires Reachable(s)
    ensures HoldsOwnItems(s)
  {
    hide Run;
    var steps :| s == Run(EMPTY_DB, steps);
    RunHoldsOwnItems(EMPTY_DB, steps);
  }
}
