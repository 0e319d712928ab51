/** Who may settle and what settling writes, in terms of the columns alone. */
module SettlementRules {
  import opened Domain
  import opened Database
  import opened Settlement
  import SettlementProofs

  // ── Settling by hand ──────────────────────────────────────────────────────

  /** The hauler of `k` still has a live fulfilment on an item that the requester of `k` waits for. */
  ghost predicate StillToDeliver(s: Db, k: Key) {
    exists n | n in s.fulfillments ::
      var f := s.fulfillments[n];
      && !f.reversed && f.hauler == k.hauler && f.item in s.items
      && s.items[f.item].list == k.list
      && (k.requester.CorpPrincipal? || UserPrincipal(s.items[f.item].requestedBy) == k.requester)
      && (s.items[f.item].status.Open? || s.items[f.item].status.Claimed? || s.items[f.item].status.Bought?)
  }

  lemma DeliveredIffNothingBlocks(s: Db, k: Key)
    ensures StillToDeliver(s, k) <==> exists i | i in s.items :: OwesDelivery(s, k, i)
  {
    if i :| i in s.items && OwesDelivery(s, k, i) {
      var n :| n in s.fulfillments && IsLiveOn(s.fulfillments[n], i) && s.fulfillments[n].hauler == k.hauler;
      assert StillToDeliver(s, k);
    }
    if StillToDeliver(s, k) {
      var n :| && n in s.fulfillments && !s.fulfillments[n].reversed && s.fulfillments[n].hauler == k.hauler
               && s.fulfillments[n].item in s.items && s.items[s.fulfillments[n].item].list == k.list
               && (k.requester.CorpPrincipal? || UserPrincipal(s.items[s.fulfillments[n].item].requestedBy) == k.requester)
               && !s.items[s.fulfillments[n].item].status.Delivered? && !s.items[s.fulfillments[n].item].status.Settled?;
      assert IsLiveOn(s.fulfillments[n], s.fulfillments[n].item);
      assert OwesDelivery(s, k, s.fulfillments[n].item);
    }
  }

  /** A reimbursement may be settled by hand exactly while it is pending and not bound, by its
      requester or a group owner, once everything that it pays for is delivered. */
  lemma SettleSucceedsIff(s: Db, caller: Caller, k: Key)
    ensures SettleReimbursement(s, caller, k).Ok? <==>
            && k in s.reimbursements && s.reimbursements[k].status.Pending? && s.reimbursements[k].contract.None?
            && (caller.owner || k.requester == UserPrincipal(caller.user))
            && !StillToDeliver(s, k)
    ensures k in s.reimbursements && s.reimbursements[k].status.Pending? && s.reimbursements[k].contract.None?
            && !caller.owner && k.requester != UserPrincipal(caller.user) ==>
              SettleReimbursement(s, caller, k) == Err(Forbidden)
  {
    hide StillToDeliver, OwesDelivery;
    DeliveredIffNothingBlocks(s, k);
  }

  /** Then that row is paid by the caller, its amounts are what they were, and no other
      reimbursement, claim, fulfilment, contract or suggestion changes. */
  lemma SettleWrites(s: Db, caller: Caller, k: Key)
    requires SettleReimbursement(s, caller, k).Ok?
    ensures var t := SettleReimbursement(s, caller, k).value;
            && k in s.reimbursements
            && t.reimbursements == s.reimbursements[k := s.reimbursements[k].(status := Paid, settledBy := Some(caller.user))]
            && t == s.(items := t.items, lists := t.lists, reimbursements := t.reimbursements)
  {
    hide OwesDelivery, FlipsManually, AllItemsSettled;
  }

  // ── Contracts that turned terminal ────────────────────────────────────────

  /** `t` has the reimbursements of `s`, except that each pending one bound to the contract is paid. */
  ghost predicate BoundArePaid(s: Db, t: Db, contract: Id) {
    && t.reimbursements.Keys == s.reimbursements.Keys
    && forall k | k in s.reimbursements ::
         t.reimbursements[k] ==
         if s.reimbursements[k].status.Pending? && s.reimbursements[k].contract == Some(contract)
         then s.reimbursements[k].(status := Paid, settledBy := None) else s.reimbursements[k]
  }

  /** `t` has the reimbursements of `s`, except that each pending one bound to the contract is free. */
  ghost predicate BoundAreFree(s: Db, t: Db, contract: Id) {
    && t.reimbursements.Keys == s.reimbursements.Keys
    && forall k | k in s.reimbursements ::
         t.reimbursements[k] ==
         if s.reimbursements[k].status.Pending? && s.reimbursements[k].contract == Some(contract)
         then s.reimbursements[k].(contract := None) else s.reimbursements[k]
  }

  /** The suggestions of the contract in state `from` are superseded, all others are as they were. */
  ghost predicate AreSuperseded(s: Db, t: Db, contract: Id, from: SuggestionState) {
    && t.suggestions.Keys == s.suggestions.Keys
    && forall p | p in s.suggestions ::
         t.suggestions[p] == if p.0 == contract && s.suggestions[p] == from then Superseded else s.suggestions[p]
  }

  lemma SettlingPaysBound(s: Db, contract: Id)
    ensures SettleViaContract(s, contract).Ok? <==> contract in s.contracts
    ensures contract in s.contracts ==>
              var t := SettleViaContract(s, contract).value;
              && BoundArePaid(s, t, contract)
              && t == s.(items := t.items, lists := t.lists, reimbursements := t.reimbursements, contracts := t.contracts)
  {
    hide FlipByContract, AutoClose, WriteDelta;
    if contract in s.contracts {
      if AnyPendingBound(s, contract) {
        SettlementProofs.ContractStages(s, contract);
        ContractTables(s, contract);
      } else {
        assert forall k | k in s.reimbursements && s.reimbursements[k].contract == Some(contract) :: BoundTo(s, k, contract);
      }
    }
  }

  lemma ContractTables(s: Db, contract: Id)
    requires contract in s.contracts && AnyPendingBound(s, contract)
    ensures SettleViaContract(s, contract).Ok?
    ensures var t := SettleViaContract(s, contract).value;
            t == s.(items := t.items, lists := t.lists, reimbursements := t.reimbursements, contracts := t.contracts)
  {
    hide AnyPendingBound, FlipsByContract, AllItemsSettled, ListsBound, BoundTo;
  }

  /** A settlement that pays anybody records how far the price is from what was expected. */
  lemma SettlingRecordsDelta(s: Db, contract: Id, k: Key)
    requires SettleViaContract(s, contract).Ok?
    requires k in s.reimbursements && s.reimbursements[k].status.Pending? && s.reimbursements[k].contract == Some(contract)
    ensures var t, c := SettleViaContract(s, contract).value, s.contracts[contract];
            && contract in s.contracts
            && t.contracts == s.contracts[contract := t.contracts[contract]]
            && t.contracts[contract].settlementDelta ==
               (if c.expectedTotal.None? then None else Some(c.price - c.expectedTotal.value))
            && t.contracts[contract] == c.(settlementDelta := t.contracts[contract].settlementDelta)
  {
    hide FlipByContract, AllItemsSettled, ListsBound, PayBound;
    assert BoundTo(s, k, contract);
    SettlementProofs.PayBoundPays(s, contract);
    SettlementProofs.FlipByContractFlips(PayBound(s, contract), contract);
  }

  /** After a contract has finished, by its issuer, its contractor or both, everything bound to
      it is paid; after it was cancelled, rejected, failed, deleted or reversed nothing that
      waits for money is bound to it; before that nothing happens. */
  lemma TerminalPaysOrReleases(s: Db, contract: Id, status: ContractStatus)
    ensures status in {Finished, FinishedIssuer, FinishedContractor} ==>
              && (ContractTerminal(s, contract, status).Ok? <==> contract in s.contracts)
              && (contract in s.contracts ==> BoundArePaid(s, ContractTerminal(s, contract, status).value, contract))
    ensures status in {Cancelled, RejectedByAssignee, Failed, Deleted, Reversed} ==>
              && ContractTerminal(s, contract, status).Ok?
              && var t := ContractTerminal(s, contract, status).value;
                 && BoundAreFree(s, t, contract) && AreSuperseded(s, t, contract, Proposed)
                 && t == s.(reimbursements := t.reimbursements, suggestions := t.suggestions, contracts := t.contracts)
                 && t.contracts.Keys == s.contracts.Keys
                 && forall c | c in s.contracts ::
                      t.contracts[c] == if c == contract then s.contracts[c].(expectedTotal := None) else s.contracts[c]
    ensures status in {Outstanding, InProgress} ==> ContractTerminal(s, contract, status) == Ok(s)
  {
    hide SettleViaContract;
    SettlingPaysBound(s, contract);
  }

  /** So nothing that is bound to a finished contract waits for money any more, and nothing
      that waits for money is bound to one that failed. */
  lemma NobodyWaitsOnTerminal(s: Db, contract: Id, status: ContractStatus, k: Key)
    requires ContractTerminal(s, contract, status).Ok? && status !in {Outstanding, InProgress}
    ensures var t := ContractTerminal(s, contract, status).value;
            k in t.reimbursements && t.reimbursements[k].contract == Some(contract) ==> t.reimbursements[k].status.Paid?
  {
    TerminalPaysOrReleases(s, contract, status);
  }
}
