/** The kinds of steps, and what each kind leaves alone. */
module StepKinds {
  import opened Domain
  import opened Sums
  import opened Database
  import opened Recompute
  import opened Claims
  import opened Settlement
  import opened Contracts
  import opened Invariant
  import opened ClaimsProofs
  import opened SettlementProofs
  import opened ContractsProofs
  import opened Runs

  predicate IsEditStep(step: Step) {
    step.DoCreateList? || step.DoSetListStatus? || step.DoPatchListPayer? || step.DoSetListTip?
    || step.DoAddItem? || step.DoPatchItem? || step.DoMarkDelivered?
  }

  predicate IsClaimStep(step: Step) {
    step.DoCreateClaim? || step.DoAddClaimItems? || step.DoRemoveClaimItem? || step.DoReleaseClaim?
  }

  predicate IsPurchaseStep(step: Step) {
    step.DoRecord? || step.DoReverse? || step.DoDeleteItem?
  }

  predicate IsContractStep(step: Step) {
    step.DoSettle? || step.DoContractTerminal? || step.DoConfirm? || step.DoManualLink?
    || step.DoReject? || step.DoUnlink? || step.DoPropose? || step.DoUpsertContract?
  }

  lemma EveryStepHasAKind(step: Step)
    ensures IsEditStep(step) || IsClaimStep(step) || IsPurchaseStep(step) || IsContractStep(step)
  {
  }

  /** A claim step changes claims and recomputes the items it touched, nothing more. */
  lemma ClaimStepIsClaimChange(s: Db, step: Step) returns (touched: set<Id>)
    requires CacheIsLiveSum(s) && IsClaimStep(step)
    ensures ClaimChange(s, Next(s, step), touched)
  {
    hide Sum, LiveQty, CacheIsLiveSum, HasActiveClaim, ValidateClaimable, RecomputedRow, BulkRow, RecomputeItem;
    if Apply(s, step).Err? {
      touched := {};
      SameRows(RecomputeBulk(s, {}).items, s.items);
    } else {
      match step
      case DoCreateClaim(caller, list, ids, newClaim) => touched := IdSet(ids);
      case DoAddClaimItems(caller, claim, ids) => touched := IdSet(ids);
      case DoRemoveClaimItem(caller, claim, item) =>
        touched := {item};
        RemoveIsClaimChange(s, claim, item);
      case DoReleaseClaim(caller, claim) => touched := ItemsOfClaim(s, claim);
    }
  }

  lemma BindingIsSettleStep(s: Db, t: Db)
    requires OnlyBindings(s, t)
    ensures SettleStep(s, t)
  {
  }

  lemma SettleStepTransitive(s: Db, t: Db, u: Db)
    requires SettleStep(s, t) && SettleStep(t, u)
    ensures SettleStep(s, u)
  {
  }

  lemma LinkIsSettleStep(s: Db, contract: Id, k: Key)
    requires contract in s.contracts && k in s.reimbursements && ConfirmAndBind(s, contract, k).Ok?
    ensures SettleStep(s, ConfirmAndBind(s, contract, k).value)
  {
    hide SettleViaContract, ConfirmedElsewhere, ExpectedTotal, SettleStep;
    var bound := Bind(s, contract, k);
    BindingIsSettleStep(s, bound);
    if s.contracts[contract].status.IsTerminalSuccess() {
      ContractIsSettleStep(bound, contract);
      SettleStepTransitive(s, bound, SettleViaContract(bound, contract).value);
    }
  }

  lemma UnlinkIsSettleStep(s: Db, contract: Id, allowed: bool, inside: bool)
    requires Unlink(s, contract, allowed, inside).Ok?
    ensures SettleStep(s, Unlink(s, contract, allowed, inside).value)
  {
  }

  lemma UnbindIsSettleStep(s: Db, contract: Id)
    ensures SettleStep(s, UnbindContract(s, contract))
  {
    hide OnlyBindings, SettleStep, ReleaseBound, SupersedeAll, UnbindContract;
    var t := UnbindContract(s, contract);
    UnbindTables(s, contract);
    ReleaseOnlyBinds(s, t, contract, Proposed);
    BindingIsSettleStep(s, t);
  }

  lemma MinorStepIsSettleStep(s: Db, step: Step)
    requires step.DoReject? || step.DoPropose? || step.DoUpsertContract?
    ensures SettleStep(s, Next(s, step))
  {
    hide SettleStep;
    BindingIsSettleStep(s, Next(s, step));
  }

  /** Every contract or settlement step at most closes lists, turns full items settled
      and pays reimbursements; quantities, fulfilments, claims and amounts stay. */
  lemma ContractStepIsSettleStep(s: Db, step: Step)
    requires IsContractStep(step)
    ensures SettleStep(s, Next(s, step))
  {
    hide SettleStep, SettleManual, SettleViaContract, ConfirmAndBind, Unlink, UnbindContract, ValidateLink, OnlyBindings;
    BindingIsSettleStep(s, s);
    if Apply(s, step).Ok? {
      match step
      case DoSettle(caller, k) => ManualIsSettleStep(s, k, caller.user);
      case DoContractTerminal(contract, status) =>
        if status.IsTerminalSuccess() {
          ContractIsSettleStep(s, contract);
        } else {
          UnbindIsSettleStep(s, contract);
        }
      case DoConfirm(user, member, contract, k) => LinkIsSettleStep(s, contract, k);
      case DoManualLink(user, member, contract, k) => LinkIsSettleStep(s, contract, k);
      case DoUnlink(contract, allowed, inside) => UnlinkIsSettleStep(s, contract, allowed, inside);
      case _ => MinorStepIsSettleStep(s, step);
    }
  }
}
