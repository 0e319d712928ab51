/** Settling reimbursements by hand or through a finished contract, and unbinding
    the reimbursements of a contract that failed. */
module Settlement {
  import opened Domain
  import opened Sums
  import opened Database

  // ── Closing lists ─────────────────────────────────────────────────────────

  predicate AllItemsSettled(s: Db, list: Id) {
    forall i | i in s.items && s.items[i].list == list :: s.items[i].status.Settled?
  }

  /** Closes each of the given open lists whose items are all settled. */
  function AutoClose(s: Db, lists: set<Id>): Db {
    s.(lists := map l | l in s.lists ::
         if l in lists && s.lists[l].status.ListOpen? && AllItemsSettled(s, l)
         then s.lists[l].(status := ListClosed) else s.lists[l])
  }

  // ── Manual settlement ─────────────────────────────────────────────────────

  /** Items of `k`'s hauler that are neither delivered nor settled block a manual settle. */
  predicate OwesDelivery(s: Db, k: Key, item: Id)
    requires item in s.items
  {
    && InScope(k, s.items[item])
    && !s.items[item].status.Delivered?
    && !s.items[item].status.Settled?
    && HasLiveBy(s, item, k.hauler)
  }

  /** Another hauler still waits for money for this item; the personal flow only looks
      at reimbursements of the same requester, the corp flow at all of the list. */
  predicate OtherHaulerPending(s: Db, k: Key, item: Id) {
    exists r | r in s.reimbursements ::
      && r.list == k.list
      && (k.requester.CorpPrincipal? || r.requester == k.requester)
      && r.hauler != k.hauler
      && s.reimbursements[r].status.Pending?
      && HasLiveBy(s, item, r.hauler)
  }

  predicate FlipsManually(s: Db, k: Key, item: Id)
    requires item in s.items
  {
    && InScope(k, s.items[item])
    && s.items[item].status.Delivered?
    && HasLiveBy(s, item, k.hauler)
    && !OtherHaulerPending(s, k, item)
  }

  function FlipManually(s: Db, k: Key): Db {
    s.(items := map i | i in s.items ::
         if FlipsManually(s, k, i) then s.items[i].(status := Settled) else s.items[i])
  }

  function SettleManual(s: Db, k: Key, user: Id): Result<Db> {
    if k !in s.reimbursements then Err(NotFound)
    else if !s.reimbursements[k].status.Pending? then Err(Conflict)
    else if exists i | i in s.items :: OwesDelivery(s, k, i) then Err(Conflict)
    else
      var paid := s.(reimbursements := s.reimbursements[k := s.reimbursements[k].(status := Paid, settledBy := Some(user))]);
      Ok(AutoClose(FlipManually(paid, k), {k.list}))
  }

  /** The endpoint in front of it: a bound reimbursement must be unlinked first, and only
      the requester or a group owner may settle. */
  function SettleReimbursement(s: Db, caller: Caller, k: Key): Result<Db> {
    if k !in s.reimbursements then Err(NotFound)
    else if !s.reimbursements[k].status.Pending? then Err(Conflict)
    else if s.reimbursements[k].contract.Some? then Err(Conflict)
    else if k.requester != UserPrincipal(caller.user) && !caller.owner then Err(Forbidden)
    else SettleManual(s, k, caller.user)
  }

  // ── Settlement through a contract ─────────────────────────────────────────

  predicate BoundTo(s: Db, k: Key, contract: Id) {
    k in s.reimbursements && s.reimbursements[k].contract == Some(contract)
  }

  function BoundKeys(s: Db, contract: Id): set<Key> {
    set k | k in s.reimbursements && s.reimbursements[k].contract == Some(contract)
  }

  predicate AnyPendingBound(s: Db, contract: Id) {
    exists k | k in s.reimbursements :: BoundTo(s, k, contract) && s.reimbursements[k].status.Pending?
  }

  /** The guard of the contract path: it looks at every other hauler with a pending
      reimbursement on the list, whoever the requester is. */
  predicate AnyOtherHaulerPending(s: Db, k: Key, item: Id) {
    exists r | r in s.reimbursements ::
      && r.list == k.list
      && r.hauler != k.hauler
      && s.reimbursements[r].status.Pending?
      && HasLiveBy(s, item, r.hauler)
  }

  predicate FlipsFor(s: Db, k: Key, item: Id)
    requires item in s.items
  {
    && InScope(k, s.items[item])
    && (s.items[item].status.Bought? || s.items[item].status.Delivered?)
    && HasLiveBy(s, item, k.hauler)
    && !AnyOtherHaulerPending(s, k, item)
  }

  predicate FlipsByContract(s: Db, contract: Id, item: Id)
    requires item in s.items
  {
    exists k | k in s.reimbursements :: BoundTo(s, k, contract) && FlipsFor(s, k, item)
  }

  function FlipByContract(s: Db, contract: Id): Db {
    s.(items := map i | i in s.items ::
         if FlipsByContract(s, contract, i) then s.items[i].(status := Settled) else s.items[i])
  }

  function PayBound(s: Db, contract: Id): Db {
    s.(reimbursements := map k | k in s.reimbursements ::
         if BoundTo(s, k, contract) && s.reimbursements[k].status.Pending?
         then s.reimbursements[k].(status := Paid, settledBy := None) else s.reimbursements[k])
  }

  function WriteDelta(s: Db, contract: Id): Db
    requires contract in s.contracts
  {
    var c := s.contracts[contract];
    var delta := match c.expectedTotal
      case None => None
      case Some(expected) => Some(c.price - expected);
    s.(contracts := s.contracts[contract := c.(settlementDelta := delta)])
  }

  function ListsBound(s: Db, contract: Id): set<Id> {
    set k | k in BoundKeys(s, contract) :: k.list
  }

  function SettleViaContract(s: Db, contract: Id): Result<Db> {
    if contract !in s.contracts then Err(NotFound)
    else if !AnyPendingBound(s, contract) then Ok(s)
    else
      var paid := PayBound(s, contract);
      var flipped := FlipByContract(paid, contract);
      Ok(AutoClose(WriteDelta(flipped, contract), ListsBound(s, contract)))
  }

  // ── Expected totals and unbinding ─────────────────────────────────────────

  function OwedAt(s: Db): Key -> int {
    (k: Key) => if k in s.reimbursements then s.reimbursements[k].subtotal + s.reimbursements[k].tip else 0
  }

  /** The total that the bound reimbursements add up to; no row at all gives no total. */
  ghost function ExpectedTotal(s: Db, contract: Id): Option<int> {
    if BoundKeys(s, contract) == {} then None
    else Some(SetSum(BoundKeys(s, contract), OwedAt(s)))
  }

  ghost function RefreshExpectedTotal(s: Db, contract: Id): Db
    requires contract in s.contracts
  {
    s.(contracts := s.contracts[contract := s.contracts[contract].(expectedTotal := ExpectedTotal(s, contract))])
  }

  function ReleaseBound(s: Db, contract: Id): Db {
    s.(reimbursements := map k | k in s.reimbursements ::
         if BoundTo(s, k, contract) && s.reimbursements[k].status.Pending?
         then s.reimbursements[k].(contract := None) else s.reimbursements[k])
  }

  /** Moves the suggestions of `contract` that are in state `from` to `superseded`. */
  function SupersedeAll(
      suggestions: map<(Id, Key), SuggestionState>, contract: Id, from: SuggestionState)
    : map<(Id, Key), SuggestionState>
  {
    map p | p in suggestions ::
      if p.0 == contract && suggestions[p] == from then Superseded else suggestions[p]
  }

  function UnbindContract(s: Db, contract: Id): Db {
    ReleaseBound(s, contract).(
      suggestions := SupersedeAll(s.suggestions, contract, Proposed),
      contracts := if contract !in s.contracts then s.contracts
                   else s.contracts[contract := s.contracts[contract].(expectedTotal := None)])
  }

  /** What the worker does when a contract turned terminal. */
  function ContractTerminal(s: Db, contract: Id, status: ContractStatus): Result<Db> {
    if status.IsTerminalSuccess() then SettleViaContract(s, contract)
    else if status.IsTerminalFailure() then Ok(UnbindContract(s, contract))
    else Ok(s)
  }
}
