/** Who may link, reject and unlink, and what these write, in terms of the columns alone. */
module ContractsRules {
  import opened Domain
  import opened Database
  import opened Settlement
  import opened Contracts
  import opened SettlementRules

  // ── Linking ───────────────────────────────────────────────────────────────

  /** The contract comes from the hauler, is for the requester or for anyone, and the
      reimbursement waits to be bound. */
  predicate MayBind(c: Contract, k: Key, r: Reimbursement) {
    && c.kind.ItemExchange?
    && c.issuer == Some(UserPrincipal(k.hauler))
    && (c.issuerUser.Some? ==> c.issuerUser.value == k.hauler)
    && (c.assignee.Some? ==> c.assignee.value == k.requester)
    && r.status.Pending? && r.contract.None?
  }

  /** The caller is the hauler and a member, the two fit, and no other contract is confirmed. */
  ghost predicate MayLink(s: Db, user: Id, member: bool, contract: Id, k: Key) {
    && contract in s.contracts && k in s.reimbursements
    && member && user == k.hauler && MayBind(s.contracts[contract], k, s.reimbursements[k])
    && forall c | (c, k) in s.suggestions && s.suggestions[(c, k)].Confirmed? :: c == contract
  }

  lemma ConfirmedElsewhereIff(s: Db, contract: Id, k: Key)
    ensures ConfirmedElsewhere(s, contract, k) <==>
            exists c :: c != contract && (c, k) in s.suggestions && s.suggestions[(c, k)].Confirmed?
  {
    if ConfirmedElsewhere(s, contract, k) {
      var p :| p in s.suggestions && p.1 == k && p.0 != contract && s.suggestions[p].Confirmed?;
      assert (p.0, k) in s.suggestions;
    }
  }

  lemma BindSucceedsIff(s: Db, contract: Id, k: Key)
    requires contract in s.contracts && k in s.reimbursements
    ensures ConfirmAndBind(s, contract, k).Ok? <==>
            forall c | (c, k) in s.suggestions && s.suggestions[(c, k)].Confirmed? :: c == contract
    ensures ConfirmAndBind(s, contract, k).Err? ==> ConfirmAndBind(s, contract, k) == Err(Conflict)
  {
    hide SettleViaContract, ConfirmedElsewhere, Bind;
    ConfirmedElsewhereIff(s, contract, k);
    BoundTables(s, contract, k);
    SettlingPaysBound(Bind(s, contract, k), contract);
  }

  /** Confirming succeeds exactly for a suggestion that waits and may be linked. */
  lemma ConfirmSucceedsIff(s: Db, user: Id, member: bool, contract: Id, k: Key)
    ensures ConfirmSuggestion(s, user, member, contract, k).Ok? <==>
            && (contract, k) in s.suggestions && s.suggestions[(contract, k)].Proposed?
            && MayLink(s, user, member, contract, k)
  {
    hide ConfirmAndBind;
    if contract in s.contracts && k in s.reimbursements {
      BindSucceedsIff(s, contract, k);
    }
  }

  /** Linking by hand needs no suggestion. */
  lemma ManualLinkSucceedsIff(s: Db, user: Id, member: bool, contract: Id, k: Key)
    ensures ManualLink(s, user, member, contract, k).Ok? <==> MayLink(s, user, member, contract, k)
  {
    hide ConfirmAndBind;
    if contract in s.contracts && k in s.reimbursements {
      BindSucceedsIff(s, contract, k);
    }
  }

  lemma BoundTables(s: Db, contract: Id, k: Key)
    requires contract in s.contracts && k in s.reimbursements
    ensures var b := Bind(s, contract, k);
            && b.suggestions == s.suggestions[(contract, k) := Confirmed]
            && b.reimbursements == s.reimbursements[k := s.reimbursements[k].(contract := Some(contract))]
            && b.contracts.Keys == s.contracts.Keys
            && (forall c | c in s.contracts && c != contract :: b.contracts[c] == s.contracts[c])
            && b.contracts[contract] == s.contracts[contract].(expectedTotal := b.contracts[contract].expectedTotal)
            && b == s.(suggestions := b.suggestions, reimbursements := b.reimbursements, contracts := b.contracts)
  {
    hide ExpectedTotal;
  }

  /** A link confirms the pair and binds the reimbursement. To a contract that has finished, by
      its issuer, its contractor or both, it pays everything that is bound; to any other it
      pays nobody and leaves items and lists alone. */
  lemma LinkWrites(s: Db, contract: Id, k: Key)
    requires contract in s.contracts && k in s.reimbursements && s.reimbursements[k].status.Pending?
    requires ConfirmAndBind(s, contract, k).Ok?
    ensures var t := ConfirmAndBind(s, contract, k).value;
            && t.suggestions == s.suggestions[(contract, k) := Confirmed]
            && t == s.(items := t.items, lists := t.lists, suggestions := t.suggestions,
                       reimbursements := t.reimbursements, contracts := t.contracts)
            && var bound := s.reimbursements[k := s.reimbursements[k].(contract := Some(contract))];
               if s.contracts[contract].status in {Finished, FinishedIssuer, FinishedContractor}
               then BoundArePaid(s.(reimbursements := bound), t, contract) && t.reimbursements[k].status.Paid?
               else t.reimbursements == bound && t.items == s.items && t.lists == s.lists
  {
    hide SettleViaContract, ConfirmedElsewhere, Bind;
    BoundTables(s, contract, k);
    SettlingPaysBound(Bind(s, contract, k), contract);
  }

  // ── Rejecting ─────────────────────────────────────────────────────────────

  /** A waiting suggestion may be rejected by a member who issued the contract or, when the
      issuer is not known, by the hauler; only its state changes. */
  lemma RejectRule(s: Db, user: Id, member: bool, contract: Id, k: Key)
    ensures RejectSuggestion(s, user, member, contract, k).Ok? <==>
            && contract in s.contracts && (contract, k) in s.suggestions && s.suggestions[(contract, k)].Proposed?
            && member
            && user == match s.contracts[contract].issuerUser { case Some(issuer) => issuer case None => k.hauler }
    ensures RejectSuggestion(s, user, member, contract, k).Ok? ==>
              RejectSuggestion(s, user, member, contract, k).value
              == s.(suggestions := s.suggestions[(contract, k) := Rejected])
  {
  }

  // ── Unlinking ─────────────────────────────────────────────────────────────

  /** A contract may be unlinked by those allowed to, until it has finished, by its issuer, its
      contractor or both; a finished one is a conflict. */
  lemma UnlinkSucceedsIff(s: Db, contract: Id, allowed: bool, insideGroups: bool)
    ensures Unlink(s, contract, allowed, insideGroups).Ok? <==>
            && contract in s.contracts && allowed && insideGroups
            && s.contracts[contract].status !in {Finished, FinishedIssuer, FinishedContractor}
    ensures contract in s.contracts && allowed && insideGroups
            && s.contracts[contract].status in {Finished, FinishedIssuer, FinishedContractor} ==>
              Unlink(s, contract, allowed, insideGroups) == Err(Conflict)
    ensures contract in s.contracts && !(allowed && insideGroups) ==>
              Unlink(s, contract, allowed, insideGroups) == Err(Forbidden)
  {
    hide ReleaseBound, SupersedeAll, ExpectedTotal;
  }

  /** It frees what is bound and pending and supersedes the confirmed suggestions. */
  lemma UnlinkWrites(s: Db, contract: Id, allowed: bool, insideGroups: bool)
    requires Unlink(s, contract, allowed, insideGroups).Ok?
    ensures var t := Unlink(s, contract, allowed, insideGroups).value;
            && BoundAreFree(s, t, contract) && AreSuperseded(s, t, contract, Confirmed)
            && t == s.(reimbursements := t.reimbursements, suggestions := t.suggestions, contracts := t.contracts)
  {
    hide ExpectedTotal;
  }

  // ── What the worker writes ────────────────────────────────────────────────

  /** The matcher adds a proposal for a pair that has none, while the reimbursement is pending
      and free, and never touches anything else. */
  lemma ProposeRule(s: Db, contract: Id, k: Key)
    ensures ProposeMatch(s, contract, k).Ok? <==> contract in s.contracts && k in s.reimbursements
    ensures ProposeMatch(s, contract, k).Ok? ==>
              ProposeMatch(s, contract, k).value ==
              if s.reimbursements[k].status.Pending? && s.reimbursements[k].contract.None? && (contract, k) !in s.suggestions
              then s.(suggestions := s.suggestions[(contract, k) := Proposed]) else s
  {
  }

  /** A poll stores what it saw, keeps a principal that it could not resolve, and leaves the
      two totals to the settlement code. */
  lemma UpsertRule(s: Db, contract: Id, seen: Contract)
    ensures var t := UpsertContract(s, contract, seen);
            && t == s.(contracts := s.contracts[contract := t.contracts[contract]])
            && var row := t.contracts[contract];
               && row == seen.(issuer := row.issuer, assignee := row.assignee,
                               expectedTotal := row.expectedTotal, settlementDelta := row.settlementDelta)
               && (seen.issuer.Some? ==> row.issuer == seen.issuer)
               && (seen.assignee.Some? ==> row.assignee == seen.assignee)
               && (contract !in s.contracts ==>
                     row.issuer == seen.issuer && row.assignee == seen.assignee
                     && row.expectedTotal.None? && row.settlementDelta.None?)
               && (contract in s.contracts ==>
                     var was := s.contracts[contract];
                     && (seen.issuer.None? ==> row.issuer == was.issuer)
                     && (seen.assignee.None? ==> row.assignee == was.assignee)
                     && row.expectedTotal == was.expectedTotal && row.settlementDelta == was.settlementDelta)
  {
  }
}
