/** Binding reimbursements to contracts: confirming, linking, rejecting and unlinking. */
module Contracts {
  import opened Domain
  import opened Database
  import opened Settlement

  /** The guards shared by confirming and linking. `member` tells whether the caller
      belongs to the group of the reimbursement's list. */
  function ValidateLink(s: Db, user: Id, member: bool, contract: Id, k: Key): Result<()>
    requires contract in s.contracts && k in s.reimbursements
  {
    var c := s.contracts[contract];
    var r := s.reimbursements[k];
    if !c.kind.ItemExchange? then Err(Conflict)
    else if !r.status.Pending? || r.contract.Some? then Err(Conflict)
    else if k.hauler != user then Err(Forbidden)
    else if c.issuerUser.Some? && c.issuerUser != Some(user) then Err(Forbidden)
    else if c.issuer != Some(UserPrincipal(k.hauler)) then Err(Conflict)
    else if c.assignee.Some? && c.assignee != Some(k.requester) then Err(Conflict)
    else if !member then Err(Forbidden)
    else Ok(())
  }

  /** The index that allows one confirmed suggestion per reimbursement. */
  predicate ConfirmedElsewhere(s: Db, contract: Id, k: Key) {
    exists p | p in s.suggestions :: p.1 == k && p.0 != contract && s.suggestions[p].Confirmed?
  }

  /** Marks the suggestion confirmed, binds the reimbursement and refreshes the total;
      a contract that already finished is settled at once. */
  ghost function ConfirmAndBind(s: Db, contract: Id, k: Key): Result<Db>
    requires contract in s.contracts && k in s.reimbursements
  {
    if ConfirmedElsewhere(s, contract, k) then Err(Conflict) else
      var bound := Bind(s, contract, k);
      if s.contracts[contract].status.IsTerminalSuccess() then SettleViaContract(bound, contract)
      else Ok(bound)
  }

  ghost function Bind(s: Db, contract: Id, k: Key): Db
    requires contract in s.contracts && k in s.reimbursements
  {
    RefreshExpectedTotal(
      s.(suggestions := s.suggestions[(contract, k) := Confirmed],
         reimbursements := s.reimbursements[k := s.reimbursements[k].(contract := Some(contract))]),
      contract)
  }

  ghost function ConfirmSuggestion(s: Db, user: Id, member: bool, contract: Id, k: Key): Result<Db> {
    if (contract, k) !in s.suggestions || contract !in s.contracts || k !in s.reimbursements then Err(NotFound)
    else if !s.suggestions[(contract, k)].Proposed? then Err(Conflict)
    else
      match ValidateLink(s, user, member, contract, k)
      case Err(e) => Err(e)
      case Ok(_) => ConfirmAndBind(s, contract, k)
  }

  ghost function ManualLink(s: Db, user: Id, member: bool, contract: Id, k: Key): Result<Db> {
    if contract !in s.contracts || k !in s.reimbursements then Err(NotFound)
    else
      match ValidateLink(s, user, member, contract, k)
      case Err(e) => Err(e)
      case Ok(_) => ConfirmAndBind(s, contract, k)
  }

  function RejectSuggestion(s: Db, user: Id, member: bool, contract: Id, k: Key): Result<Db> {
    if (contract, k) !in s.suggestions || contract !in s.contracts then Err(NotFound)
    else if !s.suggestions[(contract, k)].Proposed? then Err(Conflict)
    else
      var issuer := s.contracts[contract].issuerUser;
      if (issuer.Some? && issuer != Some(user)) || (issuer.None? && k.hauler != user) then Err(Forbidden)
      else if !member then Err(Forbidden)
      else Ok(s.(suggestions := s.suggestions[(contract, k) := Rejected]))
  }

  /** `allowed` stands for issuer, assignee or corp ambassador; `insideGroups` tells that the
      caller belongs to every group with a reimbursement bound to the contract. */
  ghost function Unlink(s: Db, contract: Id, allowed: bool, insideGroups: bool): Result<Db> {
    if contract !in s.contracts then Err(NotFound)
    else if !allowed || !insideGroups then Err(Forbidden)
    else if s.contracts[contract].status.IsTerminalSuccess() then Err(Conflict)
    else
      var released := ReleaseBound(s, contract).(suggestions := SupersedeAll(s.suggestions, contract, Confirmed));
      Ok(RefreshExpectedTotal(released, contract))
  }

  /** The matcher proposes a contract for a pending reimbursement that is not bound; a
      pair that already has a suggestion keeps its state. */
  function ProposeMatch(s: Db, contract: Id, k: Key): Result<Db> {
    if contract !in s.contracts || k !in s.reimbursements then Err(NotFound)
    else if !s.reimbursements[k].status.Pending? || s.reimbursements[k].contract.Some? then Ok(s)
    else if (contract, k) in s.suggestions then Ok(s)
    else Ok(s.(suggestions := s.suggestions[(contract, k) := Proposed]))
  }

  /** The poller stores what it saw; principals it could not resolve keep their old
      value, and the totals belong to the settlement code. */
  function UpsertContract(s: Db, contract: Id, seen: Contract): Db {
    var row :=
      if contract !in s.contracts then seen.(expectedTotal := None, settlementDelta := None) else
        var known := s.contracts[contract];
        seen.(issuer := if seen.issuer.None? then known.issuer else seen.issuer,
              assignee := if seen.assignee.None? then known.assignee else seen.assignee,
              expectedTotal := known.expectedTotal,
              settlementDelta := known.settlementDelta);
    s.(contracts := s.contracts[contract := row])
  }
}
