/** Runs in which the program does not keep a property that holds otherwise. Each is the
    witness behind a condition that the other modules prove to be exact. */
module Counterexamples {
  import opened Domain
  import opened Sums
  import opened Money
  import opened Database
  import opened Fulfillments
  import opened Settlement
  import opened Contracts
  import opened ListEdits
  import opened Invariant
  import opened Runs
  import opened Quantities
  import opened Ledger

  // ── A list with two requesters that never closes ──────────────────────────
  // Requester 1 asks for two of item 10, bought by haulers 3 and 4; requester 2 asks for
  // item 11, bought by hauler 4. Contract 7 pays hauler 3.

  const ANNE: Id := 1
  const BERT: Id := 2
  const HANK: Id := 3
  const GRIT: Id := 4

  const ANNE_OWES_HANK := Key(1, UserPrincipal(ANNE), HANK)
  const ANNE_OWES_GRIT := Key(1, UserPrincipal(ANNE), GRIT)
  const BERT_OWES_GRIT := Key(1, UserPrincipal(BERT), GRIT)

  const ONE_FOR_AN_ISK := Purchase(1, 1.0, true, true, None)

  function Bought(item: Id, hauler: Id): Fulfillment {
    Fulfillment(item, None, hauler, 1, 100, false)
  }

  const OWED := Reimbursement(Pending, 100, 0, 100, None, None)

  function Offer(status: ContractStatus, expected: Option<int>, delta: Option<int>): Contract {
    Contract(ItemExchange, status, Some(HANK), Some(UserPrincipal(HANK)), None, 100, expected, delta)
  }

  /** The tables of the example: what varies along the run are the two items, the
      purchases, the debts and the contract. */
  function Stage(
      fulfilled10: int, status10: ItemStatus, fulfilled11: int, status11: ItemStatus,
      fulfillments: map<nat, Fulfillment>, next: nat,
      debts: map<Key, Reimbursement>, contracts: map<Id, Contract>, suggestions: map<(Id, Key), SuggestionState>)
    : Db
  {
    Db(map[1 := ListRow(ListOpen, 0.0, None, ANNE)],
       map[10 := ItemRow(1, ANNE, 2, fulfilled10, status10), 11 := ItemRow(1, BERT, 1, fulfilled11, status11)],
       map[], map[], fulfillments, next, debts, contracts, suggestions)
  }

  const PURCHASES := map[0 := Bought(10, HANK), 1 := Bought(10, GRIT), 2 := Bought(11, GRIT)]

  const ASKED := Stage(0, Open, 0, Open, map[], 0, map[], map[], map[])
  const FIRST_BOUGHT :=
    Stage(1, Open, 0, Open, map[0 := Bought(10, HANK)], 1, map[ANNE_OWES_HANK := OWED], map[], map[])
  const SECOND_BOUGHT :=
    Stage(2, ItemStatus.Bought, 0, Open, map[0 := Bought(10, HANK), 1 := Bought(10, GRIT)], 2,
          map[ANNE_OWES_HANK := OWED, ANNE_OWES_GRIT := OWED], map[], map[])
  const ALL_BOUGHT :=
    Stage(2, ItemStatus.Bought, 1, ItemStatus.Bought, PURCHASES, 3,
          map[ANNE_OWES_HANK := OWED, ANNE_OWES_GRIT := OWED, BERT_OWES_GRIT := OWED], map[], map[])

  const PAID_BY_ANNE := OWED.(status := Paid, settledBy := Some(ANNE))
  const PAID_BY_BERT := OWED.(status := Paid, settledBy := Some(BERT))

  const GRIT_PAID :=
    Stage(2, Delivered, 1, ItemStatus.Bought, PURCHASES, 3,
          map[ANNE_OWES_HANK := OWED, ANNE_OWES_GRIT := PAID_BY_ANNE, BERT_OWES_GRIT := OWED], map[], map[])
  const HANK_LINKED :=
    Stage(2, Delivered, 1, ItemStatus.Bought, PURCHASES, 3,
          map[ANNE_OWES_HANK := OWED.(contract := Some(7)), ANNE_OWES_GRIT := PAID_BY_ANNE, BERT_OWES_GRIT := OWED],
          map[7 := Offer(Outstanding, Some(100), None)], map[(7, ANNE_OWES_HANK) := Confirmed])
  const HANK_FINISHED :=
    Stage(2, Delivered, 1, ItemStatus.Bought, PURCHASES, 3,
          map[ANNE_OWES_HANK := OWED.(contract := Some(7)), ANNE_OWES_GRIT := PAID_BY_ANNE, BERT_OWES_GRIT := OWED],
          map[7 := Offer(Finished, Some(100), None)], map[(7, ANNE_OWES_HANK) := Confirmed])
  const HANK_PAID :=
    Stage(2, Delivered, 1, ItemStatus.Bought, PURCHASES, 3,
          map[ANNE_OWES_HANK := OWED.(status := Paid, contract := Some(7)), ANNE_OWES_GRIT := PAID_BY_ANNE, BERT_OWES_GRIT := OWED],
          map[7 := Offer(Finished, Some(100), Some(0))], map[(7, ANNE_OWES_HANK) := Confirmed])
  const ALL_PAID :=
    Stage(2, Delivered, 1, Settled, PURCHASES, 3,
          map[ANNE_OWES_HANK := OWED.(status := Paid, contract := Some(7)), ANNE_OWES_GRIT := PAID_BY_ANNE, BERT_OWES_GRIT := PAID_BY_BERT],
          map[7 := Offer(Finished, Some(100), Some(0))], map[(7, ANNE_OWES_HANK) := Confirmed])

  function User(id: Id): Caller {
    Caller(id, false)
  }

  lemma ListIsAsked()
    ensures CreateList(EMPTY_DB, 1, ANNE, 0.0).Ok?
    ensures AddItem(CreateList(EMPTY_DB, 1, ANNE, 0.0).value, User(ANNE), 1, 10, 2).Ok?
    ensures AddItem(AddItem(CreateList(EMPTY_DB, 1, ANNE, 0.0).value, User(ANNE), 1, 10, 2).value, User(BERT), 1, 11, 1)
            == Ok(ASKED)
  {
  }

  lemma AmountsOfOne()
    ensures ToCents(1.0) == 100 && TipOf(100, 0.0) == 0 && TotalOf(100, 0.0) == 100
  {
  }

  lemma FirstIsBought()
    ensures RecordFulfillment(ASKED, User(HANK), 1, 10, ONE_FOR_AN_ISK) == Ok(FIRST_BOUGHT)
  {
    AmountsOfOne();
    var t := RecordFulfillment(ASKED, User(HANK), 1, 10, ONE_FOR_AN_ISK).value;
    SameRows(t.items, FIRST_BOUGHT.items);
    SameRows(t.reimbursements, FIRST_BOUGHT.reimbursements);
    SameRows(t.fulfillments, FIRST_BOUGHT.fulfillments);
  }

  lemma SecondIsBought()
    ensures RecordFulfillment(FIRST_BOUGHT, User(GRIT), 1, 10, ONE_FOR_AN_ISK) == Ok(SECOND_BOUGHT)
  {
    AmountsOfOne();
    var t := RecordFulfillment(FIRST_BOUGHT, User(GRIT), 1, 10, ONE_FOR_AN_ISK).value;
    SameRows(t.items, SECOND_BOUGHT.items);
    SameRows(t.reimbursements, SECOND_BOUGHT.reimbursements);
    SameRows(t.fulfillments, SECOND_BOUGHT.fulfillments);
  }

  lemma AllIsBought()
    ensures RecordFulfillment(SECOND_BOUGHT, User(GRIT), 1, 11, ONE_FOR_AN_ISK) == Ok(ALL_BOUGHT)
  {
    AmountsOfOne();
    var t := RecordFulfillment(SECOND_BOUGHT, User(GRIT), 1, 11, ONE_FOR_AN_ISK).value;
    SameRows(t.items, ALL_BOUGHT.items);
    SameRows(t.reimbursements, ALL_BOUGHT.reimbursements);
    SameRows(t.fulfillments, ALL_BOUGHT.fulfillments);
  }

  /** A list with an item that is not settled stays open. */
  lemma StaysOpen(s: Db, item: Id, lists: set<Id>)
    requires item in s.items && !s.items[item].status.Settled? && s.lists.Keys == {s.items[item].list}
    ensures AutoClose(s, lists) == s
  {
  }

  /** Grit bought one of item 10: handing it over is enough for Anne to pay Grit. */
  lemma GritIsPaid()
    ensures MarkDelivered(ALL_BOUGHT, User(GRIT), 1, 10, true).Ok?
    ensures SettleReimbursement(MarkDelivered(ALL_BOUGHT, User(GRIT), 1, 10, true).value, User(ANNE), ANNE_OWES_GRIT)
            == Ok(GRIT_PAID)
  {
    hide AutoClose;
    var s := MarkDelivered(ALL_BOUGHT, User(GRIT), 1, 10, true).value;
    var paid := s.(reimbursements := GRIT_PAID.reimbursements);
    assert HasLiveBy(paid, 10, HANK) by { assert IsLiveOn(paid.fulfillments[0], 10); }
    SameRows(s.reimbursements[ANNE_OWES_GRIT := PAID_BY_ANNE], GRIT_PAID.reimbursements);
    SameRows(FlipManually(paid, ANNE_OWES_GRIT).items, GRIT_PAID.items);
    StaysOpen(GRIT_PAID, 10, {1});
  }

  lemma HankIsLinked()
    ensures ManualLink(UpsertContract(GRIT_PAID, 7, Offer(Outstanding, None, None)), HANK, true, 7, ANNE_OWES_HANK)
            == Ok(HANK_LINKED)
  {
    var s := UpsertContract(GRIT_PAID, 7, Offer(Outstanding, None, None));
    var t := ManualLink(s, HANK, true, 7, ANNE_OWES_HANK).value;
    assert BoundKeys(t, 7) == {ANNE_OWES_HANK};
    SetSumOfOne(BoundKeys(t, 7), OwedAt(t), ANNE_OWES_HANK);
    SameRows(t.reimbursements, HANK_LINKED.reimbursements);
    SameRows(t.contracts, HANK_LINKED.contracts);
    SameRows(t.suggestions, HANK_LINKED.suggestions);
  }

  lemma HankPromotesNothing()
    ensures PayBound(HANK_FINISHED, 7) == HANK_PAID.(contracts := HANK_FINISHED.contracts)
    ensures FlipByContract(PayBound(HANK_FINISHED, 7), 7) == PayBound(HANK_FINISHED, 7)
  {
    var paid := PayBound(HANK_FINISHED, 7);
    SameRows(paid.reimbursements, HANK_PAID.reimbursements);
    assert HasLiveBy(paid, 10, GRIT) by { assert IsLiveOn(paid.fulfillments[1], 10); }
    assert BERT_OWES_GRIT in paid.reimbursements;
    SameRows(FlipByContract(paid, 7).items, paid.items);
  }

  /** The poller stores the status that it saw before it acts on it. */
  lemma HankIsFinished()
    ensures UpsertContract(HANK_LINKED, 7, Offer(Finished, None, None)) == HANK_FINISHED
  {
    SameRows(UpsertContract(HANK_LINKED, 7, Offer(Finished, None, None)).contracts, HANK_FINISHED.contracts);
  }

  /** All of item 10 is paid for now, but Grit still waits for Bert's money. */
  lemma HankIsPaid()
    ensures ContractTerminal(HANK_FINISHED, 7, Finished) == Ok(HANK_PAID)
  {
    hide AutoClose, FlipByContract, PayBound;
    assert BoundTo(HANK_FINISHED, ANNE_OWES_HANK, 7);
    HankPromotesNothing();
    SameRows(WriteDelta(PayBound(HANK_FINISHED, 7), 7).contracts, HANK_PAID.contracts);
    StaysOpen(HANK_PAID, 10, ListsBound(HANK_FINISHED, 7));
  }

  lemma BertPays()
    ensures MarkDelivered(HANK_PAID, User(GRIT), 1, 11, true).Ok?
    ensures SettleReimbursement(MarkDelivered(HANK_PAID, User(GRIT), 1, 11, true).value, User(BERT), BERT_OWES_GRIT)
            == Ok(ALL_PAID)
  {
    hide AutoClose;
    var s := MarkDelivered(HANK_PAID, User(GRIT), 1, 11, true).value;
    var paid := s.(reimbursements := ALL_PAID.reimbursements);
    assert HasLiveBy(paid, 11, GRIT) by { assert IsLiveOn(paid.fulfillments[2], 11); }
    SameRows(s.reimbursements[BERT_OWES_GRIT := PAID_BY_BERT], ALL_PAID.reimbursements);
    SameRows(FlipManually(paid, BERT_OWES_GRIT).items, ALL_PAID.items);
    StaysOpen(ALL_PAID, 10, {1});
  }

  // ── The run as a whole ────────────────────────────────────────────────────

  lemma RunFrom(s: Db, step: Step, t: Db, rest: seq<Step>)
    requires Apply(s, step) == Ok(t)
    ensures Run(s, [step] + rest) == Run(t, rest)
  {
    assert ([step] + rest)[1..] == rest;
  }

  lemma {:induction false} NoPatchIsAboveBought(s: Db, steps: seq<Step>, l: Id)
    requires forall step | step in steps :: !step.DoPatchItem?
    ensures RunPatchesAboveBought(s, steps, l)
    decreases |steps|
  {
    hide Next;
    if steps != [] {
      NoPatchIsAboveBought(Next(s, steps[0]), steps[1..], l);
    }
  }

  lemma RunOfTwo(s: Db, first: Step, t: Db, second: Step, u: Db, rest: seq<Step>)
    requires Apply(s, first) == Ok(t) && Apply(t, second) == Ok(u)
    ensures Run(s, [first, second] + rest) == Run(u, rest)
  {
    hide Apply;
    RunFrom(t, second, u, rest);
    RunFrom(s, first, t, [second] + rest);
    assert [first, second] + rest == [first] + ([second] + rest);
  }

  function BuyingSteps(): seq<Step> {
    [DoCreateList(1, ANNE, 0.0), DoAddItem(User(ANNE), 1, 10, 2)]
    + ([DoAddItem(User(BERT), 1, 11, 1), DoRecord(User(HANK), 1, 10, ONE_FOR_AN_ISK)]
       + ([DoRecord(User(GRIT), 1, 10, ONE_FOR_AN_ISK), DoRecord(User(GRIT), 1, 11, ONE_FOR_AN_ISK)] + PayingSteps()))
  }

  function PayingSteps(): seq<Step> {
    [DoMarkDelivered(User(GRIT), 1, 10, true), DoSettle(User(ANNE), ANNE_OWES_GRIT)]
    + ([DoUpsertContract(7, Offer(Outstanding, None, None)), DoManualLink(HANK, true, 7, ANNE_OWES_HANK)]
       + FinishingSteps())
  }

  function FinishingSteps(): seq<Step> {
    [DoUpsertContract(7, Offer(Finished, None, None)), DoContractTerminal(7, Finished)]
    + ([DoMarkDelivered(User(GRIT), 1, 11, true), DoSettle(User(BERT), BERT_OWES_GRIT)] + [])
  }

  lemma FinishingRun()
    ensures Run(HANK_LINKED, FinishingSteps()) == ALL_PAID
  {
    hide Run, MarkDelivered, SettleReimbursement, UpsertContract, ContractTerminal;
    HankIsFinished();
    HankIsPaid();
    BertPays();
    var handedOver := MarkDelivered(HANK_PAID, User(GRIT), 1, 11, true).value;
    var last := [DoMarkDelivered(User(GRIT), 1, 11, true), DoSettle(User(BERT), BERT_OWES_GRIT)] + [];
    RunOfTwo(HANK_PAID, DoMarkDelivered(User(GRIT), 1, 11, true), handedOver, DoSettle(User(BERT), BERT_OWES_GRIT), ALL_PAID, []);
    RunOfTwo(HANK_LINKED, DoUpsertContract(7, Offer(Finished, None, None)), HANK_FINISHED,
             DoContractTerminal(7, Finished), HANK_PAID, last);
    NothingMore();
  }

  lemma PayingRun()
    ensures Run(ALL_BOUGHT, PayingSteps()) == ALL_PAID
  {
    hide Run, MarkDelivered, SettleReimbursement, ManualLink, UpsertContract, FinishingSteps;
    GritIsPaid();
    HankIsLinked();
    FinishingRun();
    var delivered := MarkDelivered(ALL_BOUGHT, User(GRIT), 1, 10, true).value;
    var offered := UpsertContract(GRIT_PAID, 7, Offer(Outstanding, None, None));
    RunOfTwo(GRIT_PAID, DoUpsertContract(7, Offer(Outstanding, None, None)), offered,
             DoManualLink(HANK, true, 7, ANNE_OWES_HANK), HANK_LINKED, FinishingSteps());
    RunOfTwo(ALL_BOUGHT, DoMarkDelivered(User(GRIT), 1, 10, true), delivered, DoSettle(User(ANNE), ANNE_OWES_GRIT), GRIT_PAID,
             [DoUpsertContract(7, Offer(Outstanding, None, None)), DoManualLink(HANK, true, 7, ANNE_OWES_HANK)]
             + FinishingSteps());
  }

  lemma NothingMore()
    ensures Run(ALL_PAID, []) == ALL_PAID
  {
  }

  lemma BuyingRun()
    ensures Run(EMPTY_DB, BuyingSteps()) == Run(ALL_BOUGHT, PayingSteps())
  {
    hide Run, CreateList, AddItem, RecordFulfillment, PayingSteps;
    ListIsAsked();
    FirstIsBought();
    SecondIsBought();
    AllIsBought();
    var created := CreateList(EMPTY_DB, 1, ANNE, 0.0).value;
    var one := AddItem(created, User(ANNE), 1, 10, 2).value;
    var last := [DoRecord(User(GRIT), 1, 10, ONE_FOR_AN_ISK), DoRecord(User(GRIT), 1, 11, ONE_FOR_AN_ISK)] + PayingSteps();
    RunOfTwo(FIRST_BOUGHT, DoRecord(User(GRIT), 1, 10, ONE_FOR_AN_ISK), SECOND_BOUGHT,
             DoRecord(User(GRIT), 1, 11, ONE_FOR_AN_ISK), ALL_BOUGHT, PayingSteps());
    RunOfTwo(one, DoAddItem(User(BERT), 1, 11, 1), ASKED, DoRecord(User(HANK), 1, 10, ONE_FOR_AN_ISK), FIRST_BOUGHT, last);
    RunOfTwo(EMPTY_DB, DoCreateList(1, ANNE, 0.0), created, DoAddItem(User(ANNE), 1, 10, 2), one,
             [DoAddItem(User(BERT), 1, 11, 1), DoRecord(User(HANK), 1, 10, ONE_FOR_AN_ISK)] + last);
  }

  /** On a list with two requesters, settling through a contract can leave an item behind:
      it is full and all debts of the list are paid, yet it is not settled and the list
      stays open. No quantity was edited along the run. */
  lemma PaidListStaysOpen()
    ensures RunPatchesAboveBought(EMPTY_DB, BuyingSteps(), 1)
    ensures var s := Run(EMPTY_DB, BuyingSteps());
            && 10 in s.items && 1 in s.lists
            && s.items[10].qtyFulfilled >= s.items[10].qtyRequested
            && FullyPaid(s, 10)
            && (forall k | k in s.reimbursements :: s.reimbursements[k].status.Paid?)
            && s.items[10].status.Delivered? && s.lists[1].status.ListOpen?
  {
    hide Run, RunPatchesAboveBought;
    NoPatchIsAboveBought(EMPTY_DB, BuyingSteps(), 1);
    BuyingRun();
    PayingRun();
  }

  // ── Edits that look at the status only ────────────────────────────────────

  const TWO_OF_THREE :=
    Db(map[1 := ListRow(ListOpen, 0.0, None, ANNE)],
       map[10 := ItemRow(1, ANNE, 3, 2, Open), 11 := ItemRow(1, BERT, 1, 0, Open)],
       map[], map[], map[0 := Fulfillment(10, None, HANK, 2, 100, false)], 1,
       map[ANNE_OWES_HANK := Reimbursement(Pending, 200, 0, 200, None, None)], map[], map[])

  lemma AmountsOfTwo()
    ensures ToCents(1.0) == 100 && TipOf(200, 0.0) == 0 && TotalOf(200, 0.0) == 200
  {
  }

  lemma TwoAreBought()
    ensures PatchItem(ASKED, 1, 10, 3).Ok?
    ensures RecordFulfillment(PatchItem(ASKED, 1, 10, 3).value, User(HANK), 1, 10, ONE_FOR_AN_ISK.(qty := 2)) == Ok(TWO_OF_THREE)
  {
    AmountsOfTwo();
    var t := RecordFulfillment(PatchItem(ASKED, 1, 10, 3).value, User(HANK), 1, 10, ONE_FOR_AN_ISK.(qty := 2)).value;
    SameRows(t.items, TWO_OF_THREE.items);
    SameRows(t.reimbursements, TWO_OF_THREE.reimbursements);
    SameRows(t.fulfillments, TWO_OF_THREE.fulfillments);
  }

  /** The item is open although two of three are bought, so it may be patched down to one:
      then more is bought than requested. */
  lemma PatchCanOverFulfil()
    ensures PatchItem(TWO_OF_THREE, 1, 10, 1).Ok?
    ensures var t := PatchItem(TWO_OF_THREE, 1, 10, 1).value;
            10 in t.items && LiveQty(t, 10) == 2 > t.items[10].qtyRequested
  {
  }

  /** It may be deleted as well: Anne still owes for what Hank bought. */
  lemma DeleteCanUnbalance()
    ensures Balanced(TWO_OF_THREE, 1) && DeleteItem(TWO_OF_THREE, 1, 10).Ok?
    ensures var t := DeleteItem(TWO_OF_THREE, 1, 10).value;
            ANNE_OWES_HANK in t.reimbursements && t.reimbursements[ANNE_OWES_HANK].subtotal == 200
            && CoveredCost(t, ANNE_OWES_HANK) == 0
  {
  }

  // ── A patch that leaves a paid item open ──────────────────────────────────
  // Two of three are bought; a contract pays for them; then Anne asks for two only.

  /** The tables while item 10 is open with two bought: what varies is what is asked and paid. */
  function Short(asked: int, debt: Reimbursement, contracts: map<Id, Contract>, suggestions: map<(Id, Key), SuggestionState>): Db {
    Db(map[1 := ListRow(ListOpen, 0.0, None, ANNE)],
       map[10 := ItemRow(1, ANNE, asked, 2, Open), 11 := ItemRow(1, BERT, 1, 0, Open)],
       map[], map[], map[0 := Fulfillment(10, None, HANK, 2, 100, false)], 1,
       map[ANNE_OWES_HANK := debt], contracts, suggestions)
  }

  const TWO_LINKED :=
    Short(3, Reimbursement(Pending, 200, 0, 200, None, Some(7)), map[7 := Offer(Finished, Some(200), None)],
          map[(7, ANNE_OWES_HANK) := Confirmed])
  const TWO_PAID :=
    Short(3, Reimbursement(Paid, 200, 0, 200, None, Some(7)), map[7 := Offer(Finished, Some(200), Some(-100))],
          map[(7, ANNE_OWES_HANK) := Confirmed])
  const TWO_ASKED :=
    Short(2, Reimbursement(Paid, 200, 0, 200, None, Some(7)), map[7 := Offer(Finished, Some(200), Some(-100))],
          map[(7, ANNE_OWES_HANK) := Confirmed])

  lemma TwoAreBound()
    ensures Bind(UpsertContract(TWO_OF_THREE, 7, Offer(Finished, None, None)), 7, ANNE_OWES_HANK) == TWO_LINKED
  {
    var bound := Bind(UpsertContract(TWO_OF_THREE, 7, Offer(Finished, None, None)), 7, ANNE_OWES_HANK);
    assert BoundKeys(bound, 7) == {ANNE_OWES_HANK};
    SetSumOfOne(BoundKeys(bound, 7), OwedAt(bound), ANNE_OWES_HANK);
    SameRows(bound.contracts, TWO_LINKED.contracts);
    SameRows(bound.suggestions, TWO_LINKED.suggestions);
    SameRows(bound.reimbursements, TWO_LINKED.reimbursements);
  }

  lemma TwoPromoteNothing()
    ensures PayBound(TWO_LINKED, 7) == TWO_PAID.(contracts := TWO_LINKED.contracts)
    ensures FlipByContract(PayBound(TWO_LINKED, 7), 7) == PayBound(TWO_LINKED, 7)
  {
    var paid := PayBound(TWO_LINKED, 7);
    SameRows(paid.reimbursements, TWO_PAID.reimbursements);
    SameRows(FlipByContract(paid, 7).items, paid.items);
  }

  lemma TwoArePaid()
    ensures SettleViaContract(TWO_LINKED, 7) == Ok(TWO_PAID)
  {
    hide AutoClose, FlipByContract, PayBound;
    assert BoundTo(TWO_LINKED, ANNE_OWES_HANK, 7);
    TwoPromoteNothing();
    SameRows(WriteDelta(PayBound(TWO_LINKED, 7), 7).contracts, TWO_PAID.contracts);
    StaysOpen(TWO_PAID, 10, ListsBound(TWO_LINKED, 7));
  }

  lemma TwoAreLinked()
    ensures var offered := UpsertContract(TWO_OF_THREE, 7, Offer(Finished, None, None));
            ManualLink(offered, HANK, true, 7, ANNE_OWES_HANK) == Ok(TWO_PAID)
  {
    hide SettleViaContract, Bind;
    TwoAreBound();
    TwoArePaid();
  }

  lemma TwoAreAsked()
    ensures PatchItem(TWO_PAID, 1, 10, 2) == Ok(TWO_ASKED)
  {
    SameRows(PatchItem(TWO_PAID, 1, 10, 2).value.items, TWO_ASKED.items);
  }

  function PatchingSteps(): seq<Step> {
    [DoCreateList(1, ANNE, 0.0), DoAddItem(User(ANNE), 1, 10, 2)]
    + ([DoAddItem(User(BERT), 1, 11, 1), DoPatchItem(1, 10, 3)]
       + ([DoRecord(User(HANK), 1, 10, ONE_FOR_AN_ISK.(qty := 2)), DoUpsertContract(7, Offer(Finished, None, None))]
          + ([DoManualLink(HANK, true, 7, ANNE_OWES_HANK), DoPatchItem(1, 10, 2)] + [])))
  }

  lemma PatchingRun()
    ensures Run(EMPTY_DB, PatchingSteps()) == TWO_ASKED
  {
    hide Run, CreateList, AddItem, RecordFulfillment, PatchItem, UpsertContract, ManualLink;
    ListIsAsked();
    TwoAreBought();
    TwoAreLinked();
    TwoAreAsked();
    var created := CreateList(EMPTY_DB, 1, ANNE, 0.0).value;
    var one := AddItem(created, User(ANNE), 1, 10, 2).value;
    var three := PatchItem(ASKED, 1, 10, 3).value;
    var offered := UpsertContract(TWO_OF_THREE, 7, Offer(Finished, None, None));
    var last := [DoManualLink(HANK, true, 7, ANNE_OWES_HANK), DoPatchItem(1, 10, 2)] + [];
    var buy := [DoRecord(User(HANK), 1, 10, ONE_FOR_AN_ISK.(qty := 2)), DoUpsertContract(7, Offer(Finished, None, None))];
    RunOfTwo(offered, DoManualLink(HANK, true, 7, ANNE_OWES_HANK), TWO_PAID, DoPatchItem(1, 10, 2), TWO_ASKED, []);
    RunOfTwo(three, buy[0], TWO_OF_THREE, buy[1], offered, last);
    RunOfTwo(one, DoAddItem(User(BERT), 1, 11, 1), ASKED, DoPatchItem(1, 10, 3), three, buy + last);
    RunOfTwo(EMPTY_DB, DoCreateList(1, ANNE, 0.0), created, DoAddItem(User(ANNE), 1, 10, 2), one,
             [DoAddItem(User(BERT), 1, 11, 1), DoPatchItem(1, 10, 3)] + (buy + last));
    NothingMoreAsked();
  }

  lemma NothingMoreAsked()
    ensures Run(TWO_ASKED, []) == TWO_ASKED
  {
  }

  /** On a list with one debtor, lowering the requested quantity to what is bought and paid for
      leaves the item open: it is full and paid, yet not settled. Nothing is over-fulfilled. */
  lemma PatchLeavesPaidItemOpen()
    ensures var s := Run(EMPTY_DB, PatchingSteps());
            && 10 in s.items && s.items[10].qtyFulfilled == s.items[10].qtyRequested
            && FullyPaid(s, 10) && s.items[10].status.Open?
            && forall k, r | k in s.reimbursements && r in s.reimbursements :: k.requester == r.requester
  {
    hide Run;
    PatchingRun();
  }
}
