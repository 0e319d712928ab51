/** The tables that the fulfilment and settlement code keeps in agreement, as one value,
    together with the queries that several handlers share. */
module Database {
  import opened Domain
  import opened Sums

  datatype ListRow = ListRow(status: ListStatus, tipPct: real, payerCorp: Option<Id>, createdBy: Id)

  datatype ItemRow = ItemRow(
    list: Id,
    requestedBy: Id,
    qtyRequested: int,
    qtyFulfilled: int,
    status: ItemStatus)

  datatype ClaimRow = ClaimRow(list: Id, hauler: Id, status: ClaimStatus)

  datatype Fulfillment = Fulfillment(
    item: Id,
    claim: Option<Id>,
    hauler: Id,
    qty: int,
    unitPrice: int,
    reversed: bool)

  /** The unique key of a reimbursement: who owes whom on which list. */
  datatype Key = Key(list: Id, requester: Principal, hauler: Id)

  datatype Reimbursement = Reimbursement(
    status: ReimbursementStatus,
    subtotal: int,
    tip: int,
    total: int,
    settledBy: Option<Id>,
    contract: Option<Id>)

  datatype Contract = Contract(
    kind: ContractType,
    status: ContractStatus,
    issuerUser: Option<Id>,
    issuer: Option<Principal>,
    assignee: Option<Principal>,
    price: int,
    expectedTotal: Option<int>,
    settlementDelta: Option<int>)

  /** Fulfilments are numbered in the order they are recorded. A claim item maps
      (claim, item) to its `active` flag, a suggestion (contract, key) to its state. */
  datatype Db = Db(
    lists: map<Id, ListRow>,
    items: map<Id, ItemRow>,
    claims: map<Id, ClaimRow>,
    claimItems: map<(Id, Id), bool>,
    fulfillments: map<nat, Fulfillment>,
    nextFulfillment: nat,
    reimbursements: map<Key, Reimbursement>,
    contracts: map<Id, Contract>,
    suggestions: map<(Id, Key), SuggestionState>)

  /** Two tables with the same keys and the same rows are the same table. */
  lemma SameRows<K, V>(t: map<K, V>, u: map<K, V>)
    requires t.Keys == u.Keys
    requires forall k | k in t :: t[k] == u[k]
    ensures t == u
  {
  }

  const EMPTY_DB := Db(map[], map[], map[], map[], map[], 0, map[], map[], map[])

  // ── Claims ────────────────────────────────────────────────────────────────

  predicate HasActiveClaim(claimItems: map<(Id, Id), bool>, item: Id) {
    exists p | p in claimItems :: p.1 == item && claimItems[p]
  }

  // ── Fulfilments ───────────────────────────────────────────────────────────

  predicate IsLiveOn(f: Fulfillment, item: Id) {
    !f.reversed && f.item == item
  }

  function QtyAt(fulfillments: map<nat, Fulfillment>, item: Id): nat -> int {
    (n: nat) => if n in fulfillments && IsLiveOn(fulfillments[n], item) then fulfillments[n].qty else 0
  }

  /** The quantity of `item` that has been bought and not reversed. */
  function LiveQty(s: Db, item: Id): int {
    Sum(s.nextFulfillment, QtyAt(s.fulfillments, item))
  }

  function CostAt(fulfillments: map<nat, Fulfillment>, item: Id): nat -> int {
    (n: nat) =>
      if n in fulfillments && IsLiveOn(fulfillments[n], item)
      then fulfillments[n].qty * fulfillments[n].unitPrice else 0
  }

  /** What the live fulfilments of `item` cost together. */
  function LiveCost(s: Db, item: Id): int {
    Sum(s.nextFulfillment, CostAt(s.fulfillments, item))
  }

  predicate HasLiveBy(s: Db, item: Id, hauler: Id) {
    exists n | n in s.fulfillments :: IsLiveOn(s.fulfillments[n], item) && s.fulfillments[n].hauler == hauler
  }

  // ── Reimbursements ────────────────────────────────────────────────────────

  /** A corp-funded list owes through its corporation, any other list through
      the user who requested the item. */
  function RequesterOf(payerCorp: Option<Id>, requestedBy: Id): Principal {
    match payerCorp
    case None => UserPrincipal(requestedBy)
    case Some(corp) => CorpPrincipal(corp)
  }

  function KeyFor(s: Db, list: Id, requestedBy: Id, hauler: Id): Key
    requires list in s.lists
  {
    Key(list, RequesterOf(s.lists[list].payerCorp, requestedBy), hauler)
  }

  /** The items that a reimbursement may cover: all of the list when a corporation
      pays, otherwise those that its requester asked for. */
  predicate InScope(k: Key, item: ItemRow) {
    && item.list == k.list
    && (k.requester.CorpPrincipal? || item.requestedBy == k.requester.user)
  }

  predicate Covers(s: Db, k: Key, f: Fulfillment) {
    && !f.reversed
    && f.hauler == k.hauler
    && f.item in s.items
    && InScope(k, s.items[f.item])
  }

  function CoveredCostAt(s: Db, k: Key): nat -> int {
    (n: nat) =>
      if n in s.fulfillments && Covers(s, k, s.fulfillments[n])
      then s.fulfillments[n].qty * s.fulfillments[n].unitPrice else 0
  }

  /** The sum of quantity times price over the live fulfilments that `k` covers. */
  function CoveredCost(s: Db, k: Key): int {
    Sum(s.nextFulfillment, CoveredCostAt(s, k))
  }
}
