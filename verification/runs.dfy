/** Runs: any sequence of handler calls and worker actions, starting from empty tables.
    A call that is refused rolls back and leaves the database as it was. */
module Runs {
  import opened Domain
  import opened Database
  import opened Claims
  import opened Fulfillments
  import opened Settlement
  import opened Contracts
  import opened ListEdits
  import opened Invariant
  import opened ClaimsProofs
  import opened FulfillmentsProofs
  import opened SettlementProofs
  import opened ContractsProofs
  import opened ListEditsProofs

  datatype Step =
    | DoCreateList(list: Id, createdBy: Id, tipPct: real)
    | DoSetListStatus(caller: Caller, list: Id, status: ListStatus)
    | DoPatchListPayer(caller: Caller, list: Id, payer: Option<Id>, corpLinked: bool)
    | DoSetListTip(caller: Caller, list: Id, pct: real)
    | DoAddItem(caller: Caller, list: Id, newItem: Id, qty: int)
    | DoPatchItem(list: Id, item: Id, qty: int)
    | DoDeleteItem(list: Id, item: Id)
    | DoCreateClaim(caller: Caller, list: Id, ids: seq<Id>, newClaim: Id)
    | DoAddClaimItems(caller: Caller, claim: Id, ids: seq<Id>)
    | DoRemoveClaimItem(caller: Caller, claim: Id, item: Id)
    | DoReleaseClaim(caller: Caller, claim: Id)
    | DoRecord(caller: Caller, list: Id, item: Id, purchase: Purchase)
    | DoReverse(caller: Caller, fulfillment: nat)
    | DoMarkDelivered(caller: Caller, list: Id, item: Id, lastHauler: bool)
    | DoSettle(caller: Caller, key: Key)
    | DoConfirm(user: Id, member: bool, contract: Id, key: Key)
    | DoManualLink(user: Id, member: bool, contract: Id, key: Key)
    | DoReject(user: Id, member: bool, contract: Id, key: Key)
    | DoUnlink(contract: Id, allowed: bool, insideGroups: bool)
    | DoPropose(contract: Id, key: Key)
    | DoUpsertContract(contract: Id, seen: Contract)
    | DoContractTerminal(contract: Id, terminal: ContractStatus)

  ghost function Apply(s: Db, step: Step): Result<Db> {
    match step
    case DoCreateList(list, createdBy, tipPct) => CreateList(s, list, createdBy, tipPct)
    case DoSetListStatus(caller, list, status) => SetListStatus(s, caller, list, status)
    case DoPatchListPayer(caller, list, payer, linked) => PatchListPayer(s, caller, list, payer, linked)
    case DoSetListTip(caller, list, pct) => SetListTip(s, caller, list, pct)
    case DoAddItem(caller, list, newItem, qty) => AddItem(s, caller, list, newItem, qty)
    case DoPatchItem(list, item, qty) => PatchItem(s, list, item, qty)
    case DoDeleteItem(list, item) => DeleteItem(s, list, item)
    case DoCreateClaim(caller, list, ids, newClaim) => CreateClaim(s, caller, list, ids, newClaim)
    case DoAddClaimItems(caller, claim, ids) => AddClaimItems(s, caller, claim, ids)
    case DoRemoveClaimItem(caller, claim, item) => RemoveClaimItem(s, caller, claim, item)
    case DoReleaseClaim(caller, claim) => ReleaseClaim(s, caller, claim)
    case DoRecord(caller, list, item, purchase) => RecordFulfillment(s, caller, list, item, purchase)
    case DoReverse(caller, n) => ReverseFulfillment(s, caller, n)
    case DoMarkDelivered(caller, list, item, lastHauler) => MarkDelivered(s, caller, list, item, lastHauler)
    case DoSettle(caller, k) => SettleReimbursement(s, caller, k)
    case DoConfirm(user, member, contract, k) => ConfirmSuggestion(s, user, member, contract, k)
    case DoManualLink(user, member, contract, k) => ManualLink(s, user, member, contract, k)
    case DoReject(user, member, contract, k) => RejectSuggestion(s, user, member, contract, k)
    case DoUnlink(contract, allowed, inside) => Unlink(s, contract, allowed, inside)
    case DoPropose(contract, k) => ProposeMatch(s, contract, k)
    case DoUpsertContract(contract, seen) => Ok(UpsertContract(s, contract, seen))
    case DoContractTerminal(contract, status) => ContractTerminal(s, contract, status)
  }

  ghost function Next(s: Db, step: Step): Db {
    match Apply(s, step)
    case Ok(t) => t
    case Err(_) => s
  }

  ghost function Run(s: Db, steps: seq<Step>): Db
    decreases |steps|
  {
    if steps == [] then s else Run(Next(s, steps[0]), steps[1..])
  }

  lemma StepKeepsInv(s: Db, step: Step)
    requires Inv(s)
    ensures Inv(Next(s, step))
  {
    hide Inv;
    if Apply(s, step).Ok? {
      match step
      case DoCreateList(list, createdBy, tipPct) => CreateListKeepsInv(s, list, createdBy, tipPct);
      case DoSetListStatus(caller, list, status) => SetListStatusKeepsInv(s, caller, list, status);
      case DoPatchListPayer(caller, list, payer, linked) => PatchListPayerKeepsInv(s, caller, list, payer, linked);
      case DoSetListTip(caller, list, pct) => SetListTipKeepsInv(s, caller, list, pct);
      case DoAddItem(caller, list, newItem, qty) => AddItemKeepsInv(s, caller, list, newItem, qty);
      case DoPatchItem(list, item, qty) => PatchItemKeepsInv(s, list, item, qty);
      case DoDeleteItem(list, item) => DeleteItemKeepsInv(s, list, item);
      case DoCreateClaim(caller, list, ids, newClaim) => CreateClaimKeepsInv(s, caller, list, ids, newClaim);
      case DoAddClaimItems(caller, claim, ids) => AddClaimItemsKeepsInv(s, caller, claim, ids);
      case DoRemoveClaimItem(caller, claim, item) => RemoveClaimItemKeepsInv(s, caller, claim, item);
      case DoReleaseClaim(caller, claim) => ReleaseClaimKeepsInv(s, caller, claim);
      case DoRecord(caller, list, item, purchase) => RecordFulfillmentKeepsInv(s, caller, list, item, purchase);
      case DoReverse(caller, n) => ReverseFulfillmentKeepsInv(s, caller, n);
      case DoMarkDelivered(caller, list, item, last) => MarkDeliveredKeepsInv(s, caller, list, item, last);
      case DoSettle(caller, k) => SettleReimbursementKeepsInv(s, caller, k);
      case DoConfirm(user, member, contract, k) => ConfirmSuggestionKeepsInv(s, user, member, contract, k);
      case DoManualLink(user, member, contract, k) => ManualLinkKeepsInv(s, user, member, contract, k);
      case DoReject(user, member, contract, k) => RejectKeepsInv(s, user, member, contract, k);
      case DoUnlink(contract, allowed, inside) => UnlinkKeepsInv(s, contract, allowed, inside);
      case DoPropose(contract, k) => ProposeKeepsInv(s, contract, k);
      case DoUpsertContract(contract, seen) => UpsertContractKeepsInv(s, contract, seen);
      case DoContractTerminal(contract, status) => ContractTerminalKeepsInv(s, contract, status);
    }
  }

  lemma {:induction false} RunKeepsInv(s: Db, steps: seq<Step>)
    requires Inv(s)
    ensures Inv(Run(s, steps))
    decreases |steps|
  {
    hide Inv;
    if steps != [] {
      StepKeepsInv(s, steps[0]);
      RunKeepsInv(Next(s, steps[0]), steps[1..]);
    }
  }

  /** Every reachable database satisfies the invariant: whatever is called, in whatever
      order, the redundant columns of the tables agree. */
  lemma EveryReachableDbIsConsistent(steps: seq<Step>)
    ensures Inv(Run(EMPTY_DB, steps))
  {
    assert Inv(EMPTY_DB);
    RunKeepsInv(EMPTY_DB, steps);
  }

  /** Databases that some run from empty tables ends in. */
  ghost predicate Reachable(s: Db) {
    exists steps :: s == Run(EMPTY_DB, steps)
  }

  lemma ReachableIsConsistent(s: Db)
    requires Reachable(s)
    ensures Inv(s)
  {
    hide Inv;
    var steps :| s == Run(EMPTY_DB, steps);
    EveryReachableDbIsConsistent(steps);
  }
}
