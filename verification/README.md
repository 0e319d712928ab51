# Fulfilment and settlement of shared shopping lists, proved

JitaCart lets a group share a shopping list: members ask for items, haulers claim them, buy
them, deliver them, and are paid back, by hand or through an in-game contract. The program
keeps the same facts in several columns (a cached quantity, a status, an active flag, a
subtotal, a binding to a contract) and four source files rely on each other's guards to keep
those columns in agreement. This project models that state machine and proves that they do
agree in every reachable database, what a run can never undo, and exactly where the program
falls short. Around it stand proofs of seven smaller pieces of the back end: wallet shares, the staggered
contract poller, the webhook lease, the re-encryption sweep, the MultiBuy paste parser,
market price bucketing and the contract matcher.

## How it is laid out

The main machine:

- `domain`, `money`, `database`, `sums`: the vocabulary, cent arithmetic, the tables as one
  value, and SQL aggregates.
- `recompute`, `claims`, `fulfillments`, `settlement`, `contracts`, `list_edits`: for each
  handler or worker action, a function from tables to tables or an error.
- `store`: the same tables as fields of the class `Tables`. Each handler is a method that
  checks and writes in the order of the source and is proved to do exactly what its function
  says, to keep the invariant, and to leave every table alone when it refuses.
- `invariant`, the `*_proofs` files and `runs`: the invariant, why each step keeps it, and
  runs of arbitrary steps.
- the `*_rules` files and `refusals`: for each handler who is let in and what it writes, in terms
  of the columns alone, and that every refusal has a reason.
- `theorems`, `finality`, `ledger`, `quantities`, `rates`, `completeness`, `claim_lists`, `undo`: what follows for
  reachable databases and whole runs.
- `counterexamples`: concrete runs in which a property fails that holds otherwise.

The other pieces: `wallet_shares`, `polling`, `webhooks`, `token_keys`, `text`, `multibuy`,
`multibuy_proofs`, `multibuy_round_trip`, `prices`, `matching`.

`dafny verify dfyconfig.toml` checks the project with Dafny 4.11.

## Assumptions

- Each handler call and each worker transaction is one atomic step. A refused call rolls back.
- Every user and every linked corporation has exactly one principal, so a principal is the user
  or the corporation. A reimbursement is identified by list, requesting principal and
  hauler, as the unique index has it.
- Row identifiers are natural numbers; an identifier that a call creates is a parameter, and one
  that exists already is an internal error.
- What a handler reads from tables that are not modelled is a boolean parameter: group
  membership and ownership, whether the market and character of a purchase are valid, whether the
  caller made the latest purchase, whether a corporation is linked, whether the caller stands in all
  groups of a contract.
- Money is whole cents, tip rates are real numbers, and a `numeric` column rounds halves away from
  zero. Quantities and amounts do not overflow 64 bits in the list tables; the paste parser
  and the price buckets model saturation.

## Where code and documentation differ

- A comment in `backend/migrations/20260514000000_backup_role_and_scoped_grants.sql:50-53`
  allows total and subtotal plus tip to differ by a cent. They never do
  (`Theorems.TotalIsExact`).
- The comments in `backend/crates/api/src/lists/items.rs:219-221` and
  `backend/crates/api/src/lists/items.rs:283-286` take an open item for one without live
  fulfilments. An item that is partly bought and not claimed is open as well; the exact
  conditions and concrete runs are `Quantities.PatchIsWithinIffAtLeastBought`,
  `Completeness.PatchKeepsCompleteIff`, `Ledger.DeleteKeepsBalanceIffFree`,
  `Counterexamples.PatchCanOverFulfil`, `Counterexamples.PatchLeavesPaidItemOpen` and
  `Counterexamples.DeleteCanUnbalance`.
- The comment in `backend/crates/settlement/src/lib.rs:751-753` describes unbinding a failed contract
  as returning its reimbursements to pending. Their suggestions stay confirmed, so that they cannot
  be linked to another contract until the failed one is unlinked
  (`Theorems.UnboundCannotLinkElsewhere`, `Theorems.UnlinkingFreesTheReimbursement`).
- Changing a list's tip stores four decimals of the rate but computes with all of them
  (`Rates.TipKeepsRatesIffFourDecimals`, `Rates.UnstoredRate`).
- The guard of the contract path looks at pending reimbursements of every requester, the manual one
  only at those of the same requester. On a list with several requesters an item can therefore
  be full and paid and never be promoted (`Completeness.ContractKeepsCompleteIffNoneStuck`,
  `Counterexamples.PaidListStaysOpen`).
- Writing back a rotated token remembers its hash before the write, so a write that fails is
  not retried (`TokenKeys.RotationSurvivesIffFirstWriteSucceeds`).
- The comment in `backend/crates/worker/src/jobs/contracts.rs:64-65` says that the poller never starves a
  character. A poll that fails before it advances its cursor stays at the head of the queue, so that
  a slice of such polls starves everybody else (`Polling.NobodyStarvesIffFewFail`,
  `Polling.StarvingRun`).

## Model

| member | source | states |
|---|---|---|
| `Theorems.StatusTellsTheTruth` | backend/crates/api/src/fulfillment.rs:96-193 | in every reachable database the cached quantity is the live sum, an open item is not claimed, a claimed one is short and has exactly one active claim row, and a bought, delivered or settled one is full |
| `Theorems.ActiveFlagFollowsClaim` | backend/migrations/20260427000000_init.sql:382-394 | a claim row is active exactly when its claim is |
| `Theorems.ClaimSucceedsIffClaimable` | backend/crates/api/src/fulfillment/claims.rs:29-87 | claiming succeeds exactly for distinct open items of an open list; the one-active-claim index never refuses a validated request |
| `Theorems.AddingSucceedsIffClaimable` | backend/crates/api/src/fulfillment/claims.rs:89-121 | adding succeeds exactly for an active claim of the caller or for an owner, on a list that is not archived, and distinct open items of that list |
| `Theorems.BulkEqualsEachInAnyOrder` | backend/crates/api/src/fulfillment.rs:154-193 | in every reachable database the set-based recompute equals single recomputes in any order, with any repetitions |
| `Theorems.NeverOverFulfilled` | backend/crates/api/src/fulfillment/fulfillments.rs:79-96 | over whole runs an item is never bought beyond what is requested, if no accepted change of that item asks for less than is already bought |
| `Theorems.SettledItemsNeverChange` | backend/crates/api/src/fulfillment/fulfillments.rs:325-353 | once settled, an item keeps its row and its live fulfilments for the rest of any run |
| `Theorems.SettledAmountsNeverChange` | backend/crates/api/src/fulfillment/reimbursements.rs:187-194 | once settled, a reimbursement keeps its amounts, contract and settling user for the rest of any run |
| `Theorems.SettledItemRefuses` | backend/crates/api/src/fulfillment.rs:107-113 | nobody can buy more of a settled item or reverse one of its live fulfilments, which is what makes the early return on settled items safe |
| `Theorems.TotalIsExact` | backend/migrations/20260514000000_backup_role_and_scoped_grants.sql:50-53 | in every reachable database total is subtotal plus tip to the cent, and no amount is negative |
| `Theorems.EveryListOwesWhatWasBought` | backend/crates/api/src/fulfillment/reimbursements.rs:144-203 | conservation over whole runs: each subtotal of a list is the cost of what it pays for, and they add up to the cost of all that is bought on the list, if no accepted deletion on it removes purchases that cost something |
| `Theorems.BindingProtocol` | backend/crates/api/src/contracts.rs:250-285 | a pending bound reimbursement has one confirmed suggestion, for its contract; a settled one has a contract or a settling user, never both, never neither |
| `Theorems.LinkedContractExpectsBoundTotals` | backend/crates/api/src/contracts.rs:378-403 | right after a link the contract expects the sum of the totals bound to it, and a finished one records how far its price is off |
| `Theorems.UnlinkedContractExpectsBoundTotals` | backend/crates/api/src/contracts.rs:690-716 | after an unlink only settled rows stay bound and their totals are what the contract expects |
| `Theorems.UnboundCannotLinkElsewhere` | backend/crates/settlement/src/lib.rs:754-787 | a reimbursement released by a failed contract is refused by every other contract |
| `Theorems.UnlinkingFreesTheReimbursement` | backend/crates/api/src/contracts.rs:697-711 | after the failed contract is unlinked, linking by hand succeeds exactly when the guards of a link hold |
| `Theorems.ManualPromotesExactlyThePaid` | backend/crates/settlement/src/lib.rs:364-428 | settling by hand promotes exactly the delivered items in scope of which every live fulfilment is paid then, though the guard only looks for other haulers |
| `Theorems.ManualClosesCompleteLists` | backend/crates/settlement/src/lib.rs:732-749 | it closes its list exactly when the list was open and all items are settled then, and touches no other |
| `Theorems.ContractClosesCompleteLists` | backend/crates/settlement/src/lib.rs:322-330 | a contract settlement that pays anybody closes exactly the open lists bound to the contract of which all items are settled then, and touches no other |
| `Refusals.RefusalsTellTheTruth` | backend/crates/api/src/fulfillment.rs:57-91 | every refused call, of all kinds of steps, is refused for a reason that holds: what is not found is missing, what is forbidden is not the caller's to do, and so on; an internal error means that a new identifier is taken |
| `ClaimsRules.RemoveSucceedsIff` | backend/crates/api/src/fulfillment/claims.rs:123-154 | an item may be removed exactly from a writable claim that holds it |
| `ClaimsRules.RemoveWrites` | backend/crates/api/src/fulfillment/claims.rs:145-156 | the claim row is gone, nobody holds the item, a short item is open again, and nothing else changes |
| `ClaimsRules.CreateWrites` | backend/crates/api/src/fulfillment/claims.rs:29-87 | a new claim is active, belongs to the caller and holds what was asked for; its short items are claimed, full ones bought |
| `ClaimsRules.AddWrites` | backend/crates/api/src/fulfillment/claims.rs:89-121 | added items are held by the claim in the same way, and no claim changes |
| `ClaimsRules.InsertSucceedsIff` | backend/crates/api/src/fulfillment/claims.rs:238-265 | claim rows are refused exactly for an item that somebody holds, a repeated item or one already on the claim |
| `ClaimsRules.ReleaseSucceedsIff` | backend/crates/api/src/fulfillment/claims.rs:162-176 | exactly a writable claim may be released |
| `ClaimsRules.ReleaseWrites` | backend/crates/api/src/fulfillment/claims.rs:177-201 | the claim is released and holds nothing, its short items are open again, and nothing else changes |
| `ClaimLists.ReachableHoldsOwnItems` | backend/crates/api/src/fulfillment/claims.rs:209-236 | in every reachable database a claim holds items of its own list only |
| `FulfillmentsRules.RecordSucceedsIff` | backend/crates/api/src/fulfillment/fulfillments.rs:35-186 | a purchase succeeds exactly if it fits and whoever holds an active claim on the item is the caller, or the caller is an owner; a claim that the request names must be that one |
| `FulfillmentsRules.RecordWrites` | backend/crates/api/src/fulfillment/fulfillments.rs:188-213 | it inserts what was submitted, at the nearest cent and under the claim that holds the item, adds the quantity to the item, which turns bought when that fills it, and touches no other fulfilment or item |
| `FulfillmentsRules.RecordOwes` | backend/crates/api/src/fulfillment/fulfillments.rs:242-248 | it adds its cost to the reimbursement that the list's payer or else the requester owes the buyer |
| `FulfillmentsRules.RecordCompletes` | backend/crates/api/src/fulfillment/fulfillments.rs:215-240 | it completes the claim that holds the item exactly when nothing on that claim is left to buy |
| `FulfillmentsRules.UpsertWrites` | backend/crates/api/src/fulfillment/reimbursements.rs:144-203 | a reimbursement that is not settled gets the cost of what it covers as subtotal, the tip to the nearest cent with half a cent going up, and their sum as total; a settled one is left alone |
| `FulfillmentsRules.ReverseSucceedsIff` | backend/crates/api/src/fulfillment/fulfillments.rs:255-353 | a live fulfilment may be reversed exactly by its hauler or an owner, on a list that is not archived, while what pays for it is not settled |
| `FulfillmentsRules.ReverseWrites` | backend/crates/api/src/fulfillment/fulfillments.rs:345-376 | a reversal takes its quantity off the item and its cost off the reimbursement; the item stays delivered or bought while it is full, and is claimed or open otherwise |
| `FulfillmentsRules.DeliverRule` | backend/crates/api/src/fulfillment/fulfillments.rs:378-423 | exactly a bought item of a list that is not archived is marked delivered, by its last buyer or an owner, and only its status changes |
| `SettlementRules.SettleSucceedsIff` | backend/crates/api/src/fulfillment/reimbursements.rs:17-120 | a reimbursement may be settled by hand exactly while it is pending and not bound, by its requester or an owner, once the hauler has delivered everything it pays for; anyone else is forbidden |
| `SettlementRules.SettleWrites` | backend/crates/settlement/src/lib.rs:485-575 | that row is paid by the caller with its amounts unchanged, and no other reimbursement changes |
| `SettlementRules.TerminalPaysOrReleases` | backend/crates/worker/src/jobs/contracts_common.rs:26-58 | after a contract has finished, by issuer, contractor or both, everything bound to it is paid; after it was cancelled, rejected, failed, deleted or reversed what is pending is free and its proposals are superseded; before that nothing happens |
| `SettlementRules.NobodyWaitsOnTerminal` | backend/crates/worker/src/jobs/contracts_common.rs:26-58 | so no reimbursement bound to a terminal contract waits for money |
| `SettlementRules.SettlingRecordsDelta` | backend/crates/settlement/src/lib.rs:306-320 | a settlement that pays anybody records the price less the expected total |
| `ContractsRules.ConfirmSucceedsIff` | backend/crates/api/src/contracts.rs:206-285 | confirming succeeds exactly for a proposed suggestion, as its hauler and a member, when contract and reimbursement fit and no other contract is confirmed |
| `ContractsRules.ManualLinkSucceedsIff` | backend/crates/api/src/contracts.rs:520-597 | linking by hand succeeds exactly under the same conditions without a suggestion |
| `ContractsRules.LinkWrites` | backend/crates/api/src/contracts.rs:378-415 | a link confirms the pair and binds the row; to a contract that has finished, by issuer, contractor or both, it pays all that is bound, to any other nobody |
| `ContractsRules.RejectRule` | backend/crates/api/src/contracts.rs:433-498 | exactly a proposed suggestion is rejected, by a member who issued the contract or, when the issuer is unknown, is the hauler; only its state changes |
| `ContractsRules.UnlinkSucceedsIff` | backend/crates/api/src/contracts.rs:609-690 | a contract may be unlinked exactly by those allowed to and until it has finished, by issuer, contractor or both |
| `ContractsRules.UnlinkWrites` | backend/crates/api/src/contracts.rs:690-716 | it frees what is bound and pending, supersedes the confirmed suggestions and leaves every other row alone |
| `ContractsRules.ProposeRule` | backend/crates/worker/src/jobs/contracts/match.rs:154-173 | the matcher adds a proposal for a pending, free reimbursement without a suggestion for the contract, and changes nothing else |
| `ContractsRules.UpsertRule` | backend/crates/settlement/src/lib.rs:81-197 | a poll stores what it saw, keeps a principal that it could not resolve, and leaves both totals alone |
| `ListEditsRules.CreateListRule` | backend/crates/api/src/lists/crud.rs:207-375 | a list is created exactly for a rate between zero and one, open, and stores the nearest rate with four decimals |
| `ListEditsRules.SetListStatusRule` | backend/crates/api/src/lists/crud.rs:429-478 | its creator or an owner changes its status and nothing else |
| `ListEditsRules.PatchListPayerRule` | backend/crates/api/src/corps.rs:534-599 | an owner changes the payer, to a linked corporation or to the users, exactly until the first reimbursement exists |
| `ListEditsRules.AddItemRule` | backend/crates/api/src/lists/items.rs:28-166 | a positive quantity is added exactly to an open list; the item is the caller's, open and empty |
| `ListEditsRules.PatchItemRule` | backend/crates/api/src/lists/items.rs:168-259 | exactly an open item of a list that is not archived takes a new positive quantity, and nothing else changes |
| `ListEditsRules.DeleteItemRule` | backend/crates/api/src/lists/items.rs:261-312 | exactly such an item is deleted, with its fulfilments and claim rows and nothing else |
| `ListEditsRules.SetListTipSucceedsIff` | backend/crates/api/src/fulfillment/tips.rs:20-58 | exactly an owner, or the creator while nothing is bought, sets a rate between zero and one on a list that is not archived |
| `ListEditsRules.SetListTipWrites` | backend/crates/api/src/fulfillment/tips.rs:60-79 | the stored rate is the nearest with four decimals; every pending reimbursement of the list gets the tip to the nearest cent, half a cent going up, and no other row changes |
| `Undo.ReleaseUndoesClaimIffShort` | backend/crates/api/src/fulfillment/claims.rs:162-201 | releasing a new claim is always allowed and restores the items if and only if none of them was full |
| `Undo.AddingUndoesRemovalIffShort` | backend/crates/api/src/fulfillment/claims.rs:89-160 | putting an item back on its claim restores every table if the item is short, and is a conflict if it is full |
| `Undo.UnlinkUndoesLinkIffFirst` | backend/crates/api/src/contracts.rs:697-711 | unlinking right after a link restores the reimbursements if and only if none was bound and pending before |
| `Undo.ReversalUndoesPurchase` | backend/crates/api/src/fulfillment/fulfillments.rs:255-376 | a buyer may reverse at once, and every quantity, live fulfilment and subtotal is what it was |
| `Undo.ReversalRestoresItemsIffClaimKept` | backend/crates/api/src/fulfillment/fulfillments.rs:215-240 | the items come back if and only if the purchase did not complete a claim |
| `Runs.StepKeepsInv` | backend/crates/api/src/fulfillment/fulfillments.rs:35-423 | every handler call and worker action keeps all cross-table agreements |
| `Runs.EveryReachableDbIsConsistent` | backend/crates/settlement/src/lib.rs:238-787 | so every run from empty tables does |
| `ClaimsProofs.AllMatchAndDistinct` | backend/crates/api/src/fulfillment/claims.rs:214-228 | comparing two counts is enough to know that all identifiers match and none repeats |
| `ClaimsProofs.IndexNeverFires` | backend/migrations/20260427000000_init.sql:371-380 | after validation neither the one-active-claim index nor the primary key can refuse |
| `ClaimsProofs.CreateClaimKeepsInv` | backend/crates/api/src/fulfillment/claims.rs:29-87 | creating a claim keeps the invariant |
| `ClaimsProofs.AddClaimItemsKeepsInv` | backend/crates/api/src/fulfillment/claims.rs:89-121 | adding items keeps the invariant |
| `ClaimsProofs.RemoveClaimItemKeepsInv` | backend/crates/api/src/fulfillment/claims.rs:123-160 | removing an item keeps the invariant, though it recomputes only that item |
| `ClaimsProofs.ReleaseClaimKeepsInv` | backend/crates/api/src/fulfillment/claims.rs:162-201 | releasing keeps the invariant, though it recomputes only the claim's items |
| `RecomputeProofs.SingleIsBulkRow` | backend/crates/api/src/fulfillment.rs:96-193 | with right caches the early returns change nothing that the set-based statement would |
| `RecomputeProofs.BulkEqualsEach` | backend/crates/api/src/fulfillment.rs:154-193 | single recomputes one after the other give the table of the set-based statement |
| `FulfillmentsProofs.CompletionKeepsClaimSide` | backend/crates/api/src/fulfillment/fulfillments.rs:215-240 | completing a claim deactivates its rows without contradicting any item's status |
| `FulfillmentsProofs.RecordBoughtKeepsInv` | backend/crates/api/src/fulfillment/fulfillments.rs:190-248 | the writes of a purchase that fits and whose reimbursement is pending keep the invariant |
| `FulfillmentsProofs.RecordFulfillmentKeepsInv` | backend/crates/api/src/fulfillment/fulfillments.rs:35-253 | recording a purchase keeps the invariant: its guards give what its writes need |
| `FulfillmentsProofs.UnpaidIsNotSettled` | backend/crates/api/src/fulfillment/fulfillments.rs:325-353 | an unpaid live fulfilment is never on a settled item |
| `FulfillmentsProofs.ReverseFulfillmentKeepsInv` | backend/crates/api/src/fulfillment/fulfillments.rs:255-376 | reversing a purchase keeps the invariant |
| `FulfillmentsProofs.MarkDeliveredKeepsInv` | backend/crates/api/src/fulfillment/fulfillments.rs:378-423 | marking delivered keeps the invariant |
| `SettlementProofs.GuardMeansPaid` | backend/crates/settlement/src/lib.rs:381-391 | the "no other pending hauler" guards suffice: behind them every live fulfilment of the item is paid |
| `SettlementProofs.ContractGuardMeansPaid` | backend/crates/settlement/src/lib.rs:290-300 | the guard of the contract path suffices as well |
| `SettlementProofs.SettleReimbursementKeepsInv` | backend/crates/settlement/src/lib.rs:485-575 | settling by hand keeps the invariant |
| `SettlementProofs.SettleViaContractKeepsInv` | backend/crates/settlement/src/lib.rs:238-360 | settling through a contract keeps the invariant |
| `ContractsProofs.ConfirmSuggestionKeepsInv` | backend/crates/api/src/contracts.rs:206-285 | confirming keeps the invariant |
| `ContractsProofs.ManualLinkKeepsInv` | backend/crates/api/src/contracts.rs:520-597 | linking by hand keeps the invariant |
| `ContractsProofs.RejectKeepsInv` | backend/crates/api/src/contracts.rs:433-498 | rejecting keeps the invariant |
| `ContractsProofs.UnlinkKeepsInv` | backend/crates/api/src/contracts.rs:609-724 | unlinking keeps the invariant |
| `ContractsProofs.UnbindContractKeepsInv` | backend/crates/settlement/src/lib.rs:754-787 | unbinding a failed contract keeps the invariant |
| `ContractsProofs.ContractTerminalKeepsInv` | backend/crates/worker/src/jobs/contracts_common.rs:26-58 | a contract that turns terminal keeps the invariant |
| `ContractsProofs.ProposeKeepsInv` | backend/crates/worker/src/jobs/contracts/match.rs:154-173 | the matcher's suggestions keep the invariant |
| `ContractsProofs.UpsertContractKeepsInv` | backend/crates/settlement/src/lib.rs:81-197 | whatever the poller stores for a contract keeps the invariant |
| `ListEditsProofs.SetListTipKeepsInv` | backend/crates/api/src/fulfillment/tips.rs:20-84 | changing a tip keeps the invariant, the exact totals included |
| `ListEditsProofs.PatchListPayerKeepsInv` | backend/crates/api/src/corps.rs:534-599 | changing the payer keeps the invariant, because it needs a list without reimbursements |
| `ListEditsProofs.PatchItemKeepsInv` | backend/crates/api/src/lists/items.rs:168-259 | changing a requested quantity keeps the invariant |
| `ListEditsProofs.DeleteItemKeepsInv` | backend/crates/api/src/lists/items.rs:261-312 | deleting an item with all that refers to it keeps the invariant |
| `StepKinds.ContractStepIsSettleStep` | backend/crates/api/src/contracts.rs:206-724 | no contract or settlement step touches claims, fulfilments, quantities or amounts, or makes a paid reimbursement unpaid |
| `StepKinds.ClaimStepIsClaimChange` | backend/crates/api/src/fulfillment/claims.rs:29-201 | no claim step touches more than claims and the recomputed rows |
| `Finality.StepFreezes` | backend/crates/api/src/fulfillment.rs:107-113 | no step changes a settled item, its live fulfilments or a settled reimbursement |
| `Finality.SettledIsFinal` | backend/crates/settlement/src/lib.rs:290-300 | nor does any run from any consistent database |
| `Ledger.DeleteKeepsBalanceIffFree` | backend/crates/api/src/lists/items.rs:283-286 | deleting an item keeps the ledger of its list balanced if and only if its live fulfilments cost nothing |
| `Ledger.DeleteKeepsOtherLists` | backend/crates/api/src/lists/items.rs:287-300 | and it never unbalances another list |
| `Ledger.StepKeepsBalance` | backend/crates/api/src/fulfillment/reimbursements.rs:144-203 | every step but such a deletion keeps each subtotal of a list equal to the cost of what it pays for; refused calls and other lists do not matter |
| `Ledger.RunKeepsBalance` | backend/crates/api/src/corps.rs:571-582 | and so do whole runs, settled reimbursements included |
| `Ledger.EachPaidOnce` | backend/migrations/20260427000000_init.sql:506-508 | each live fulfilment is covered by exactly one reimbursement of its list |
| `Ledger.ListOwesWhatWasBought` | backend/crates/api/src/fulfillment/reimbursements.rs:168-177 | in a balanced database the subtotals of a list add up to the cost of its live fulfilments |
| `Quantities.PatchIsModestIffAboveBought` | backend/crates/api/src/lists/items.rs:219-221 | an accepted patch leaves no open item of its list full if and only if it asks for more than is already bought |
| `Quantities.PatchIsWithinIffAtLeastBought` | backend/crates/api/src/lists/items.rs:219-235 | an accepted patch leaves its item within what is requested if and only if it asks for at least what is already bought |
| `Quantities.StepKeepsQuantities` | backend/crates/api/src/fulfillment/fulfillments.rs:91-96 | no step but a patch of the item itself takes it beyond what is requested, or leaves it open and full |
| `Quantities.RunIsWithin` | backend/crates/api/src/fulfillment/fulfillments.rs:79-96 | so an item stays within what is requested over every run whose accepted patches of that item do |
| `Quantities.ReverseLeavesShort` | backend/crates/api/src/fulfillment/fulfillments.rs:355-371 | after a reversal the item is short again |
| `Quantities.RunIsModest` | backend/crates/api/src/fulfillment/fulfillments.rs:91-96 | over runs whose accepted patches of a list ask for more than is bought, no item of it is over-fulfilled and no open one is full |
| `Completeness.SettledIffFullAndPaid` | backend/crates/settlement/src/lib.rs:238-305 | on a list with one debtor whose accepted patches ask for more than is bought, after any mix of manual and contract settlements, an item is settled if and only if it is full and all its live fulfilments are paid |
| `Completeness.SettledIffDueWhenNoneLeft` | backend/crates/settlement/src/lib.rs:238-305 | the same on any list, with any number of debtors, over every run no step of which leaves a full and paid item behind |
| `Completeness.StepKeepsCompleteIff` | backend/crates/settlement/src/lib.rs:238-305 | which steps do: exactly a patch or reversal that leaves a fully paid item full, and a contract settlement behind which an item is stuck |
| `Completeness.PatchKeepsCompleteIff` | backend/crates/api/src/lists/items.rs:219-235 | a patch leaves no full and paid item behind if and only if it asks for more than is bought or the item is not fully paid |
| `Completeness.ReverseKeepsCompleteIff` | backend/crates/api/src/fulfillment/fulfillments.rs:343-376 | a reversal leaves none behind if and only if what remains of the item is short or not fully paid |
| `Completeness.OneDebtorLeavesNone` | backend/crates/settlement/src/lib.rs:290-300 | with one debtor only a patch can |
| `Completeness.SettledMeansFullAndPaid` | backend/crates/settlement/src/lib.rs:364-428 | the "only if" half on every list |
| `Completeness.CorpFundedHasOneDebtor` | backend/crates/api/src/corps.rs:571-582 | a corp-funded list has one debtor |
| `Completeness.OneRequesterHasOneDebtor` | backend/crates/api/src/fulfillment/reimbursements.rs:158-167 | so has a list to which only one user's items are accepted, over whole runs |
| `Completeness.PromotedByContract` | backend/crates/settlement/src/lib.rs:266-305 | which items a contract settlement promotes, in terms of the tables before it |
| `Completeness.ContractKeepsCompleteIffNoneStuck` | backend/crates/settlement/src/lib.rs:270-305 | on any list a contract settlement leaves no full and paid item behind if and only if none waits behind another requester's debt |
| `Completeness.ManualKeepsComplete` | backend/crates/settlement/src/lib.rs:485-575 | settling by hand never leaves one behind, on any list |
| `Rates.TipsAgreeIffFourDecimals` | backend/crates/api/src/fulfillment/tips.rs:60-79 | the submitted and the stored rate give the same tip on every subtotal if and only if the rate has at most four decimals |
| `Rates.TipKeepsRatesIffFourDecimals` | backend/crates/api/src/fulfillment/tips.rs:20-84 | setting a rate leaves every pending reimbursement of the list at the stored rate, in all reachable databases, if and only if the rate has at most four decimals |
| `Rates.UnstoredRate` | backend/crates/api/src/fulfillment/tips.rs:60-79 | a reachable database and a rate for which it does not: the stored rate is zero and a tip is owed |
| `Rates.RunKeepsRates` | backend/crates/api/src/fulfillment/tips.rs:60-79 | over runs in which such rates only are accepted for a list, its pending reimbursements carry its stored rate |
| `Counterexamples.PaidListStaysOpen` | backend/crates/settlement/src/lib.rs:290-300 | a run after which all debts of a list are paid while a full item is not settled and the list stays open |
| `Counterexamples.PatchLeavesPaidItemOpen` | backend/crates/api/src/lists/items.rs:219-235 | a run with one debtor whose patch to exactly what is bought leaves a full and paid item open |
| `Counterexamples.TwoAreBought` | backend/crates/api/src/fulfillment/fulfillments.rs:194-213 | the open item of the next two rows comes from an actual purchase |
| `Counterexamples.PatchCanOverFulfil` | backend/crates/api/src/lists/items.rs:222-235 | an open item patched below what is bought |
| `Counterexamples.DeleteCanUnbalance` | backend/crates/api/src/lists/items.rs:287-300 | a deleted item whose purchase is still owed |
| `Money.TotalIsSubtotalPlusTip` | backend/crates/api/src/fulfillment/reimbursements.rs:182-194 | rounding tip and total independently never separates them |
| `Money.RoundsToNearest` | backend/migrations/20260427000000_init.sql:489-491 | an amount is stored as the nearest whole number of units, with halves away from zero |
| `Money.StoredIsNearest` | backend/migrations/20260427000000_init.sql:317 | a rate is stored as the nearest one with four decimals |
| `Store.Tables.LiveQuantity` | backend/crates/api/src/fulfillment.rs:115-124 | the summing loop gives the live quantity |
| `Store.Tables.RecomputeItem` | backend/crates/api/src/fulfillment.rs:96-150 | the single recompute has exactly its specified effect on the tables |
| `Store.Tables.RecomputeBulk` | backend/crates/api/src/fulfillment.rs:154-193 | the set-based recompute, row by row in any order |
| `Store.Tables.ValidateClaimable` | backend/crates/api/src/fulfillment/claims.rs:209-236 | the checks before claiming |
| `Store.Tables.InsertClaimItems` | backend/crates/api/src/fulfillment/claims.rs:238-265 | inserting claim rows, with the index and the primary key as refusals |
| `Store.Tables.SetClaimStatus` | backend/migrations/20260427000000_init.sql:382-394 | a status change together with its trigger: the rows of the claim are active exactly when its new status is, no other row changes, and an ended claim holds nothing |
| `Store.Tables.CreateClaim` | backend/crates/api/src/fulfillment/claims.rs:29-87 | the whole handler, rollback included: new tables, answer, invariant kept |
| `Store.Tables.WritableClaim` | backend/crates/api/src/fulfillment.rs:78-91 | a claim may be changed exactly while it is active and its list is not archived, by its hauler or an owner; it then holds all of its items, and only an unknown claim is not found |
| `Store.Tables.AddClaimItems` | backend/crates/api/src/fulfillment/claims.rs:89-121 | the whole handler |
| `Store.Tables.RemoveClaimItem` | backend/crates/api/src/fulfillment/claims.rs:123-160 | the whole handler, with the effect that `ClaimsRules.RemoveWrites` spells out |
| `Store.Tables.ReleaseClaim` | backend/crates/api/src/fulfillment/claims.rs:162-201 | the whole handler |
| `Store.Tables.CoveredSubtotal` | backend/crates/api/src/fulfillment/reimbursements.rs:168-177 | the summing loop gives the cost that a reimbursement covers |
| `Store.Tables.UpsertReimbursement` | backend/crates/api/src/fulfillment/reimbursements.rs:144-203 | writing the pending row, leaving a settled one alone, with the amounts that `FulfillmentsRules.UpsertWrites` spells out |
| `Store.Tables.CompleteClaimIfDone` | backend/crates/api/src/fulfillment/fulfillments.rs:215-240 | a claim ends complete exactly if it was, or was active when the item was found bought and nothing on it was left to buy; it then holds nothing any more |
| `Store.Tables.ActiveClaim` | backend/crates/api/src/fulfillment/fulfillments.rs:166-175 | any active row found names the one claim that holds the item |
| `Store.Tables.RecordChecks` | backend/crates/api/src/fulfillment/fulfillments.rs:41-164 | a well-formed purchase for an item of a list that is not archived passes exactly if what was bought and not reversed leaves room for it and the reimbursement that is to pay for it is not settled; the key returned is the one of that reimbursement |
| `Store.Tables.RecordFulfillment` | backend/crates/api/src/fulfillment/fulfillments.rs:35-253 | the whole handler: new tables, answer, invariant kept; who is let in and what is written is `FulfillmentsRules.RecordSucceedsIff` and `FulfillmentsRules.RecordWrites` |
| `Store.Tables.ReverseFulfillment` | backend/crates/api/src/fulfillment/fulfillments.rs:255-376 | the whole handler |
| `Store.Tables.MarkDelivered` | backend/crates/api/src/fulfillment/fulfillments.rs:378-423 | the whole handler |
| `Store.Tables.AutoCloseEach` | backend/crates/settlement/src/lib.rs:322-330 | closing complete lists one after the other closes exactly those of the set |
| `Store.Tables.PromoteManually` | backend/crates/settlement/src/lib.rs:364-478 | the manual flips, row by row in any order |
| `Store.Tables.SettleManual` | backend/crates/settlement/src/lib.rs:485-575 | settling by hand |
| `Store.Tables.SettleReimbursement` | backend/crates/api/src/fulfillment/reimbursements.rs:17-138 | the endpoint in front of it, invariant kept; who is let in and what is written is `SettlementRules.SettleSucceedsIff` and `SettlementRules.SettleWrites` |
| `Store.Tables.PayBound` | backend/crates/settlement/src/lib.rs:251-264 | paying what is bound and pending, and telling what was paid |
| `Store.Tables.PromoteByContract` | backend/crates/settlement/src/lib.rs:266-305 | the flips of the contract path, row by row in any order |
| `Store.Tables.SettleViaContract` | backend/crates/settlement/src/lib.rs:238-360 | the whole settlement through a contract |
| `Store.Tables.BoundTotal` | backend/crates/settlement/src/lib.rs:202-220 | the sum over bound rows, which is absent when nothing is bound |
| `Store.Tables.UnbindContract` | backend/crates/settlement/src/lib.rs:754-787 | the whole action, invariant kept |
| `Store.Tables.ContractTerminal` | backend/crates/worker/src/jobs/contracts_common.rs:26-58 | dispatch of a terminal contract, with the effect that `SettlementRules.TerminalPaysOrReleases` spells out |
| `Store.Tables.ValidateLink` | backend/crates/api/src/contracts.rs:316-373 | a link is allowed exactly for the hauler of a pending, unbound reimbursement and an item exchange that the hauler issued to its requester or to anyone |
| `Store.Tables.ConfirmAndBind` | backend/crates/api/src/contracts.rs:378-415 | confirming, binding, refreshing the total, settling a finished contract |
| `Store.Tables.ConfirmSuggestion` | backend/crates/api/src/contracts.rs:206-285 | the whole handler |
| `Store.Tables.ManualLink` | backend/crates/api/src/contracts.rs:520-597 | the whole handler |
| `Store.Tables.RejectSuggestion` | backend/crates/api/src/contracts.rs:433-498 | the whole handler |
| `Store.Tables.Unlink` | backend/crates/api/src/contracts.rs:609-724 | the whole handler |
| `Store.Tables.SetListTip` | backend/crates/api/src/fulfillment/tips.rs:20-84 | the whole handler |
| `Store.Tables.PatchListPayer` | backend/crates/api/src/corps.rs:534-599 | the whole handler |
| `Store.Tables.PatchItem` | backend/crates/api/src/lists/items.rs:168-259 | the whole handler, as far as quantities go |
| `Store.Tables.DeleteItem` | backend/crates/api/src/lists/items.rs:261-312 | the whole handler with its cascades |
| `WalletShares.Split` | backend/crates/settlement/src/lib.rs:697-712 | the loop gives each reimbursement its share minus its total |
| `WalletShares.RoundHalfEven` | backend/crates/settlement/src/lib.rs:709 | the nearest cent, the even one of two equally near |
| `WalletShares.DeltasAddUp` | backend/crates/settlement/src/lib.rs:697-712 | the deltas add up to payout minus total within half a cent per row, that is within half the number of rows, rounded down |
| `WalletShares.BoundIsReached` | backend/crates/settlement/src/lib.rs:697-712 | no smaller bound holds, for any number of rows: this one is reached |
| `WalletShares.DeltaSign` | backend/crates/settlement/src/lib.rs:697-712 | every entry of the split has the sign of payout minus total or is zero; equal sums give zeros only |
| `WalletShares.SharesAreMonotone` | backend/crates/settlement/src/lib.rs:703-708 | a larger reimbursement never gets a smaller share |
| `Polling.Poller.Select` | backend/crates/worker/src/jobs/contracts.rs:86-99 | the slice holds due characters only, the earliest first, unset cursors before all |
| `Polling.Poller.Tick` | backend/crates/worker/src/jobs/contracts.rs:64-137 | one tick picks a slice and advances exactly its cursors, each to one interval after its poll, give or take a tenth of the interval or a second |
| `Polling.JitterIsSmall` | backend/crates/worker/src/jobs/mod.rs:44-51 | the jitter is a tenth of the interval at most, but may be a second |
| `Polling.JitterTakesEveryShift` | backend/crates/worker/src/jobs/mod.rs:44-51 | and every shift within a tenth of the interval is drawn |
| `Polling.SliceIsLeast` | backend/crates/worker/src/jobs/contracts.rs:83-84 | the slice is the least, from one on, that covers the population in the ticks of one interval |
| `Polling.AlwaysAheadIffTwoSeconds` | backend/crates/worker/src/jobs/contracts.rs:313-332 | advancing always moves a cursor past the present if and only if the interval is two seconds or more |
| `Polling.TickShortensQueue` | backend/crates/worker/src/jobs/contracts.rs:86-99 | a tick that passes over a due character shortens the queue before it by the slice, less the polls that may fail |
| `Polling.DueIsPickedInTime` | backend/crates/worker/src/jobs/contracts.rs:83-99 | while fewer polls fail than fit in a slice, every due character is picked within population over the rest of the slice ticks, for all jitters and ties |
| `Polling.WithinOneInterval` | backend/crates/worker/src/jobs/contracts.rs:83-84 | without failures that is at most as many ticks as fit in an interval, for every population |
| `Polling.NobodyStarvesIffFewFail` | backend/crates/worker/src/jobs/contracts.rs:183-190 | there is a bound after which every due character was picked, for each population, if and only if fewer polls fail than fit in a slice |
| `Polling.StarvingRun` | backend/crates/worker/src/jobs/contracts.rs:86-99 | otherwise there is a run of any length in which a due character is never picked |
| `Webhooks.NeverSharedWithinTwelveSeconds` | backend/crates/worker/src/jobs/pending_webhooks.rs:45-66 | with any number of drainers, none of which takes twelve seconds for a row, no row is ever in two hands |
| `Webhooks.ExclusiveIffTwelveSeconds` | backend/crates/worker/src/jobs/pending_webhooks.rs:13-15 | twelve seconds is the exact limit: with more time for each row some run shares one |
| `Webhooks.SlowDrainerShares` | backend/crates/worker/src/jobs/pending_webhooks.rs:13-15 | that run: a full batch in which each row takes the same time, more than twelve seconds and less than allowed |
| `Webhooks.HeldIsNotDue` | backend/crates/worker/src/jobs/pending_webhooks.rs:40-45 | the lease outlasts the batch |
| `Webhooks.NoRowIsLost` | backend/crates/worker/src/jobs/pending_webhooks.rs:90-133 | every queued row is still there with as many failures as attempts, was sent once, was malformed, or failed exactly eight times |
| `Webhooks.BackoffIsNeverCapped` | backend/crates/worker/src/jobs/pending_webhooks.rs:112-113 | the cap of one hour is unreachable |
| `Webhooks.WaitsDouble` | backend/crates/worker/src/jobs/pending_webhooks.rs:108-125 | the first failure waits for two seconds and each further one twice as long; the eighth is the last |
| `Webhooks.Queue.FirstDue` | backend/crates/worker/src/jobs/pending_webhooks.rs:48-54 | the batch holds distinct due rows, those that waited longest, and all if they fit |
| `Webhooks.Queue.LeaseDue` | backend/crates/worker/src/jobs/pending_webhooks.rs:47-66 | leasing moves exactly the batch, by ten minutes, and returns copies of it |
| `Webhooks.Queue.Settle` | backend/crates/worker/src/jobs/pending_webhooks.rs:74-133 | after a dispatch the row is gone if it was sent, malformed or refused for the eighth time, else it waits twice as long as before with one attempt more; no other row changes |
| `Webhooks.Queue.Dispatch` | backend/crates/worker/src/jobs/pending_webhooks.rs:72-135 | after a batch that holds of each of its rows with its own outcome, and no other row changed |
| `TokenKeys.TokenTable.DecryptRow` | backend/crates/auth-tokens/src/store.rs:190-251 | loading gives back what was sealed, and succeeds exactly when the key is known and every complete column opens; a lone column of the access token counts for nothing |
| `TokenKeys.TokenTable.ReencryptStale` | backend/crates/auth-tokens/src/store.rs:322-380 | the loop rewrites every picked row and counts them, or leaves all rows alone |
| `TokenKeys.SealedLoads` | backend/crates/auth-tokens/src/cipher.rs:126-173 | what is sealed under the primary key loads again |
| `TokenKeys.SweepLowersStale` | backend/crates/auth-tokens/src/store.rs:282-381 | a sweep lowers the number of stale rows by exactly what it picked |
| `TokenKeys.SweepKeepsTokens` | backend/crates/auth-tokens/src/store.rs:324-372 | a sweep keeps what every row loads |
| `TokenKeys.SweepFailsIffARowDoesNotLoad` | backend/crates/auth-tokens/src/store.rs:326-334 | one picked row that does not load undoes the sweep, and nothing else does |
| `TokenKeys.RunKeepsTokens` | backend/crates/auth-tokens/src/store.rs:273-281 | over any mix of sweeps and rotations each row loads what was last rotated into it |
| `TokenKeys.StaleAfterRun` | backend/crates/auth-tokens/src/store.rs:273-281 | rotations and contended sweeps never raise the number of stale rows |
| `TokenKeys.SweepsReachZero` | backend/crates/auth-tokens/src/store.rs:278-279 | as many uncontended sweeps as there are batches leave every row under the primary key, whatever happens in between |
| `TokenKeys.RotationStoredIff` | backend/crates/auth-tokens/src/store.rs:144-188 | a rotated token is stored if and only if the write succeeds and its hash differs from the one remembered |
| `TokenKeys.RotationSurvivesIffFirstWriteSucceeds` | backend/crates/auth-tokens/src/store.rs:153-159 | over any run of calls a rotated token ends up stored if and only if the first call that sees it writes it and sees another hash than the call before; no later call makes up for it |
| `MultiBuy.ParseWords` | backend/crates/domain/src/multibuy.rs:131-160 | a line is an item exactly when words are followed by numbers only, to the end, and the first of these is a quantity; the words before it are the name |
| `MultiBuyRoundTrip.SecondColumnIsQty` | backend/crates/domain/src/multibuy.rs:117-129 | of tab-separated columns the first is the name and the second the quantity, whatever follows |
| `MultiBuyRoundTrip.CommaIsIgnored` | backend/crates/domain/src/multibuy.rs:31-45 | commas make no difference to a quantity or to what counts as a number: "1,000" is one thousand |
| `MultiBuyRoundTrip.NamesMeetIffSameLowerCase` | backend/crates/domain/src/multibuy.rs:26-29 | two names meet in one entry exactly when their lower cases agree |
| `Text.DigitsAreFloat` | backend/crates/domain/src/multibuy.rs:37-45 | digits are a number, also with a sign, a fraction or an exponent |
| `Text.OtherCharactersAreNoFloat` | backend/crates/domain/src/multibuy.rs:37-45 | a word with any other character is not, infinities and not-a-number aside |
| `MultiBuy.ParseMultibuy` | backend/crates/domain/src/multibuy.rs:47-115 | the collecting loop gives, per key in first-seen order, first name, clipped total and line numbers |
| `MultiBuyProofs.EveryLineLandsOnce` | backend/crates/domain/src/multibuy.rs:53-104 | every non-blank line lands in exactly one entry or exactly one error |
| `MultiBuyProofs.QtyIsClippedSum` | backend/crates/domain/src/multibuy.rs:81-87 | each quantity is the smaller of the largest 64-bit integer and the sum of all parsed under the key, and positive |
| `MultiBuyProofs.KeysInOrder` | backend/crates/domain/src/multibuy.rs:88-98 | keys come in first-seen order |
| `MultiBuy.KeysAreDistinct` | backend/crates/domain/src/multibuy.rs:81-98 | no key comes twice |
| `MultiBuyProofs.JoinedPastesMerge` | backend/crates/domain/src/multibuy.rs:47-115 | parsing two pastes joined by a line feed merges what each parses to, key by key |
| `MultiBuyRoundTrip.ParsedNameIsName` | backend/crates/domain/src/multibuy.rs:117-160 | a parsed name is trimmed, not empty and free of tabs, line feeds and non-breaking spaces |
| `MultiBuyRoundTrip.RenderedParses` | backend/crates/domain/src/multibuy.rs:26-35 | canonical lines parse to the entries they were written from |
| `MultiBuyRoundTrip.RoundTrip` | backend/crates/domain/src/multibuy.rs:47-129 | for every input: parse, write out, parse again gives the same names and quantities in the same order, without errors |
| `Prices.RefreshOne` | backend/crates/market/src/prices.rs:183-205 | the loop over the orders at a location is the simple fold |
| `Prices.LocationRowMeans` | backend/crates/market/src/prices.rs:183-205 | that fold is the cheapest sell, the dearest buy and the volumes of exactly the orders at the location |
| `Prices.Bucket` | backend/crates/market/src/prices.rs:264-303 | one pass over all orders gives each wanted type the fold of its distinct orders |
| `Prices.RefreshCitadel` | backend/crates/market/src/prices.rs:264-328 | every requested type gets a row, and no other |
| `Prices.RepeatsDoNotMatter` | backend/crates/market/src/prices.rs:276-279 | an order repeated on a later page changes nothing |
| `Prices.CitadelRowMeans` | backend/crates/market/src/prices.rs:284-302 | a row is the cheapest sell, the dearest buy and the volumes of the first order under each id, exact while they fit in 64 bits and clipped above when none is negative, and empty without orders |
| `Matching.ContractTotals` | backend/crates/worker/src/jobs/contracts/match.rs:62-76 | the loop adds up a contract's records by type |
| `Matching.TotalsOfPermutation` | backend/crates/worker/src/jobs/contracts/match.rs:70-73 | totals do not depend on the order of the records |
| `Matching.ScoreMatch` | backend/crates/worker/src/jobs/contracts/match.rs:184-198 | the loops give the score, and none without fulfilments |
| `Matching.CoversTheLesser` | backend/crates/worker/src/jobs/contracts/match.rs:184-198 | of each type the lesser of what is handed over and what was bought is covered, and the score times all that was bought is their sum |
| `Matching.BoughtUnderIsLast` | backend/crates/worker/src/jobs/contracts/match.rs:84-133 | what was bought under a reimbursement is its rows with a positive quantity, the last one of each type |
| `Matching.ScoreIsAShare` | backend/crates/worker/src/jobs/contracts/match.rs:184-198 | a score lies between zero and one, and is one if and only if all that was bought is covered |
| `Matching.ScoreIsMonotone` | backend/crates/worker/src/jobs/contracts/match.rs:191-196 | a contract that hands over more never scores less |
| `Matching.ExactIffSameTypesAndCovered` | backend/crates/worker/src/jobs/contracts/match.rs:196-198 | a match is exact if and only if the types are the same and each quantity is covered |
| `Matching.SuggestedIffHalfCovered` | backend/crates/worker/src/jobs/contracts/match.rs:142-144 | the threshold asks for half of what was bought |
| `Matching.Suggest` | backend/crates/worker/src/jobs/contracts/match.rs:125-152 | exactly the reimbursements covered by half or more are suggested, with their scores |

## Left out

- Transactions that interleave: a claim's status is read before the list is locked, and the
  worker settles without that lock; both are modelled as atomic steps.
- Deleting whole lists, groups, users and corporations with their cascades.
- The reimbursement status `cancelled`, which no code sets.
- `Tables`: creating lists, adding items, changing a list's status, storing polled contracts and
  matcher suggestions are modelled as functions only, as their imperative form is one assignment.
- `Runs.StepKeepsInv`: does not speak about the expected total of a contract, which is refreshed on link and unlink
  only and goes stale when a bound reimbursement changes.
- `Completeness.SettledIffFullAndPaid`: needs one debtor and no accepted patch to what is bought or less, because without them it is false (`Counterexamples.PaidListStaysOpen`, `Counterexamples.PatchLeavesPaidItemOpen`); `Completeness.StepKeepsCompleteIff` says exactly which steps break it.
- `Polling.DueIsPickedInTime`: takes the population, and with it the slice, as fixed during a run.
- `Webhooks.NeverSharedWithinTwelveSeconds`: a dispatch and its record are one step, so a crash between them, after which a webhook is sent again, is not modelled.
- `WalletShares.Split`: shares are exact rationals before they are rounded; the 28 digits of the decimal library are not modelled. Choosing the journal rows that make up the payout is left out.
- `Matching.ScoreMatch`: scores are exact rationals, not 64-bit floats, and the four decimals of the stored score are left out; so is the query that groups fulfilments.
- `MultiBuy.ParseMultibuy`: lower-casing is any function on strings.
- Estimates, webhooks enqueued by handlers, group default tips, type edits of items, contract item syncing, budgets.
- Row-level security, roles, sessions, quotas, routing and the calls to the game's interface.
- AES-GCM itself: the cipher is any function that opens what it sealed. UTF-8 checks of decrypted tokens are left out.
