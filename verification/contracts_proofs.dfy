/** Binding and unbinding contracts keeps the invariant. */
module ContractsProofs {
  import opened Domain
  import opened Sums
  import opened Database
  import opened Settlement
  import opened Contracts
  import opened Invariant
  import opened RecomputeProofs
  import SettlementProofs

  /** Reimbursements keep their status and amounts; only their contract may change. */
  ghost predicate OnlyBindings(s: Db, t: Db) {
    && t == s.(reimbursements := t.reimbursements, suggestions := t.suggestions, contracts := t.contracts)
    && t.reimbursements.Keys == s.reimbursements.Keys
    && forall k | k in s.reimbursements ::
         t.reimbursements[k] == s.reimbursements[k].(contract := t.reimbursements[k].contract)
  }

  lemma PaidAfterBinding(s: Db, t: Db, f: Fulfillment)
    requires OnlyBindings(s, t)
    requires f.item in s.items && s.items[f.item].list in s.lists
    ensures PayingKey(t, f) == PayingKey(s, f) && IsPaidFor(t, f) == IsPaidFor(s, f)
  {
  }

  lemma BindingsKeepOwedSide(s: Db, t: Db)
    requires OwedSide(s) && OnlyBindings(s, t)
    ensures OwedSide(t)
  {
    forall i, n | i in t.items && t.items[i].status.Settled? && n in t.fulfillments && IsLiveOn(t.fulfillments[n], i)
      ensures t.items[i].list in t.lists && IsPaidFor(t, t.fulfillments[n])
    {
      assert FullyPaid(s, i);
      PaidAfterBinding(s, t, s.fulfillments[n]);
    }
  }

  lemma BindingsKeepInv(s: Db, t: Db)
    requires ClaimSide(s) && OwedSide(s) && OnlyBindings(s, t) && BindSide(t)
    ensures Inv(t)
  {
    hide ClaimSide, OwedSide, BindSide;
    ClaimSideKept(s, t);
    BindingsKeepOwedSide(s, t);
  }

  lemma LinkNeedsPending(s: Db, user: Id, member: bool, contract: Id, k: Key)
    requires contract in s.contracts && k in s.reimbursements && ValidateLink(s, user, member, contract, k).Ok?
    ensures s.reimbursements[k].status.Pending? && s.reimbursements[k].contract.None?
  {
  }

  // ── Linking ───────────────────────────────────────────────────────────────

  lemma BindKeepsBindSide(s: Db, contract: Id, k: Key)
    requires BindSide(s) && contract in s.contracts && k in s.reimbursements
    requires s.reimbursements[k].status.Pending? && !ConfirmedElsewhere(s, contract, k)
    ensures BindSide(Bind(s, contract, k))
  {
    hide SetSum, ExpectedTotal;
  }

  lemma BindKeepsInv(s: Db, contract: Id, k: Key)
    requires Inv(s) && contract in s.contracts && k in s.reimbursements
    requires s.reimbursements[k].status.Pending? && !ConfirmedElsewhere(s, contract, k)
    ensures Inv(Bind(s, contract, k))
  {
    hide SetSum, ExpectedTotal, ClaimSide, OwedSide, BindSide;
    BindKeepsBindSide(s, contract, k);
    BindingsKeepInv(s, Bind(s, contract, k));
  }

  lemma ConfirmAndBindKeepsInv(s: Db, contract: Id, k: Key)
    requires Inv(s) && contract in s.contracts && k in s.reimbursements
    requires s.reimbursements[k].status.Pending? && ConfirmAndBind(s, contract, k).Ok?
    ensures Inv(ConfirmAndBind(s, contract, k).value)
  {
    hide Inv, Bind, SettleViaContract, ConfirmedElsewhere;
    BindKeepsInv(s, contract, k);
    if s.contracts[contract].status.IsTerminalSuccess() {
      SettlementProofs.SettleViaContractKeepsInv(Bind(s, contract, k), contract);
    }
  }

  lemma ConfirmSuggestionKeepsInv(s: Db, user: Id, member: bool, contract: Id, k: Key)
    requires Inv(s) && ConfirmSuggestion(s, user, member, contract, k).Ok?
    ensures Inv(ConfirmSuggestion(s, user, member, contract, k).value)
  {
    hide Inv, ConfirmAndBind;
    ConfirmAndBindKeepsInv(s, contract, k);
  }

  lemma ManualLinkKeepsInv(s: Db, user: Id, member: bool, contract: Id, k: Key)
    requires Inv(s) && ManualLink(s, user, member, contract, k).Ok?
    ensures Inv(ManualLink(s, user, member, contract, k).value)
  {
    hide Inv, ConfirmAndBind;
    ConfirmAndBindKeepsInv(s, contract, k);
  }

  // ── Unlinking, rejecting and unbinding ────────────────────────────────────

  lemma ReleaseKeepsConfirmed(s: Db, t: Db, contract: Id, from: SuggestionState)
    requires OneConfirmedPerReimbursement(s)
    requires t.suggestions == SupersedeAll(s.suggestions, contract, from)
    ensures OneConfirmedPerReimbursement(t)
  {
  }

  lemma ReleaseKeepsBindSide(s: Db, t: Db, contract: Id, from: SuggestionState)
    requires BindSide(s)
    requires t.reimbursements == ReleaseBound(s, contract).reimbursements
    requires t.suggestions == SupersedeAll(s.suggestions, contract, from)
    requires t.contracts.Keys == s.contracts.Keys
    ensures BindSide(t)
  {
    hide OneConfirmedPerReimbursement;
    ReleaseKeepsConfirmed(s, t, contract, from);
  }

  lemma ReleaseTables(s: Db, contract: Id)
    ensures ReleaseBound(s, contract) == s.(reimbursements := ReleaseBound(s, contract).reimbursements)
  {
  }

  lemma ReleaseOnlyBinds(s: Db, t: Db, contract: Id, from: SuggestionState)
    requires t.reimbursements == ReleaseBound(s, contract).reimbursements
    requires t == s.(reimbursements := t.reimbursements, suggestions := t.suggestions, contracts := t.contracts)
    ensures OnlyBindings(s, t)
  {
  }

  lemma UnlinkKeepsInv(s: Db, contract: Id, allowed: bool, insideGroups: bool)
    requires Inv(s) && Unlink(s, contract, allowed, insideGroups).Ok?
    ensures Inv(Unlink(s, contract, allowed, insideGroups).value)
  {
    hide ClaimSide, OwedSide, BindSide, OnlyBindings, ExpectedTotal, BoundTo;
    var t := Unlink(s, contract, allowed, insideGroups).value;
    ReleaseOnlyBinds(s, t, contract, Confirmed);
    ReleaseKeepsBindSide(s, t, contract, Confirmed);
    BindingsKeepInv(s, t);
  }

  lemma UnbindTables(s: Db, contract: Id)
    ensures var t := UnbindContract(s, contract);
            && t == s.(reimbursements := t.reimbursements, suggestions := t.suggestions, contracts := t.contracts)
            && t.reimbursements == ReleaseBound(s, contract).reimbursements
            && t.suggestions == SupersedeAll(s.suggestions, contract, Proposed)
            && t.contracts.Keys == s.contracts.Keys
  {
    hide ReleaseBound, SupersedeAll;
    ReleaseTables(s, contract);
  }

  lemma UnbindContractKeepsInv(s: Db, contract: Id)
    requires Inv(s)
    ensures Inv(UnbindContract(s, contract))
  {
    hide ClaimSide, OwedSide, BindSide, OnlyBindings, ReleaseBound, SupersedeAll, UnbindContract;
    var t := UnbindContract(s, contract);
    UnbindTables(s, contract);
    ReleaseOnlyBinds(s, t, contract, Proposed);
    ReleaseKeepsBindSide(s, t, contract, Proposed);
    BindingsKeepInv(s, t);
  }

  lemma ContractTerminalKeepsInv(s: Db, contract: Id, status: ContractStatus)
    requires Inv(s) && ContractTerminal(s, contract, status).Ok?
    ensures Inv(ContractTerminal(s, contract, status).value)
  {
    hide Inv, SettleViaContract, UnbindContract;
    if status.IsTerminalSuccess() {
      SettlementProofs.SettleViaContractKeepsInv(s, contract);
    } else {
      UnbindContractKeepsInv(s, contract);
    }
  }

  lemma RejectKeepsInv(s: Db, user: Id, member: bool, contract: Id, k: Key)
    requires Inv(s) && RejectSuggestion(s, user, member, contract, k).Ok?
    ensures Inv(RejectSuggestion(s, user, member, contract, k).value)
  {
    hide ClaimSide, OwedSide;
    BindingsKeepInv(s, RejectSuggestion(s, user, member, contract, k).value);
  }

  lemma ProposalKeepsBindSide(s: Db, contract: Id, k: Key)
    requires BindSide(s) && contract in s.contracts && k in s.reimbursements && (contract, k) !in s.suggestions
    ensures BindSide(s.(suggestions := s.suggestions[(contract, k) := Proposed]))
  {
  }

  lemma ProposeKeepsInv(s: Db, contract: Id, k: Key)
    requires Inv(s) && ProposeMatch(s, contract, k).Ok?
    ensures Inv(ProposeMatch(s, contract, k).value)
  {
    hide ClaimSide, OwedSide, BindSide;
    var t := ProposeMatch(s, contract, k).value;
    if t != s {
      ProposalKeepsBindSide(s, contract, k);
      BindingsKeepInv(s, t);
    }
  }

  lemma UpsertContractKeepsInv(s: Db, contract: Id, seen: Contract)
    requires Inv(s)
    ensures Inv(UpsertContract(s, contract, seen))
  {
    hide ClaimSide, OwedSide;
    BindingsKeepInv(s, UpsertContract(s, contract, seen));
  }
}
