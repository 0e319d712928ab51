/** The tables as mutable state, with one method per handler or worker action. Each method
    works step by step, as its transaction does, and is proved to have exactly the effect
    of its specification; a refused call leaves every table as it was. */
module Store {
  import opened Domain
  import opened Sums
  import opened Money
  import opened Database
  import opened Recompute
  import opened Claims
  import opened Fulfillments
  import opened Settlement
  import opened Contracts
  import opened ListEdits
  import opened Invariant
  import opened ClaimsProofs
  import opened FulfillmentsProofs
  import opened SettlementProofs
  import opened ContractsProofs
  import opened ListEditsProofs
  import opened ClaimsRules
  import opened FulfillmentsRules
  import opened ContractsRules

  /** A call with answer `r` took the tables from `before` to `after` as `spec` says. */
  ghost predicate Answers(spec: Result<Db>, before: Db, r: Result<()>, after: Db) {
    match spec
    case Ok(t) => r == Ok(()) && after == t
    case Err(e) => r == Err(e) && after == before
  }

  /** Whichever active row of the item is found, it names the claim that holds the item. */
  lemma AnyActiveRowNamesTheHolder(s: Db, p: (Id, Id))
    requires ClaimsExclusive(s) && p in s.claimItems && s.claimItems[p]
    ensures ActiveClaimOf(s, p.1) == Some(p.0)
  {
  }

  lemma WritableClaimExists(s: Db, caller: Caller, claim: Id)
    requires Claims.WritableClaim(s, caller, claim).Ok?
    ensures claim in s.claims
  {
  }

  lemma CompletionKeepsLists(s: Db, claim: Option<Id>, item: Id)
    requires item in s.items
    ensures Fulfillments.CompleteClaimIfDone(s, claim, item).lists == s.lists
  {
  }

  /** Closing complete lists one after the other closes the same lists. */
  lemma AutoCloseOneMore(s: Db, lists: set<Id>, l: Id)
    ensures AutoClose(AutoClose(s, lists), {l}) == AutoClose(s, lists + {l})
  {
  }

  lemma AutoCloseNone(s: Db)
    ensures AutoClose(s, {}) == s
  {
  }

  /** The reimbursements that settling the contract pays. */
  function PendingBound(s: Db, contract: Id): set<Key> {
    set k | k in s.reimbursements && s.reimbursements[k].contract == Some(contract) && s.reimbursements[k].status.Pending?
  }

  lemma NothingSettled(s: Db, contract: Id)
    ensures PendingBound(s, contract) == {} <==> !AnyPendingBound(s, contract)
    ensures PendingBound(s, contract) == {} ==> Settlement.PayBound(s, contract) == s
  {
    if PendingBound(s, contract) == {} {
      forall k | k in s.reimbursements
        ensures !(BoundTo(s, k, contract) && s.reimbursements[k].status.Pending?)
      {
        assert k !in PendingBound(s, contract);
      }
      SameRows(Settlement.PayBound(s, contract).reimbursements, s.reimbursements);
    } else {
      var k :| k in PendingBound(s, contract);
      assert BoundTo(s, k, contract);
    }
  }

  /** The tables that the stages before the delta leave alone. */
  lemma SettledTables(s: Db, contract: Id)
    ensures Settlement.PayBound(s, contract).contracts == s.contracts
    ensures FlipByContract(Settlement.PayBound(s, contract), contract).contracts == s.contracts
    ensures FlipByContract(Settlement.PayBound(s, contract), contract).reimbursements
            == Settlement.PayBound(s, contract).reimbursements
    ensures contract in s.contracts ==>
              WriteDelta(FlipByContract(Settlement.PayBound(s, contract), contract), contract).reimbursements
              == Settlement.PayBound(s, contract).reimbursements
  {
  }

  lemma BoundListsKept(s: Db, t: Db, contract: Id)
    requires t.reimbursements == Settlement.PayBound(s, contract).reimbursements
    ensures ListsBound(t, contract) == ListsBound(s, contract)
  {
  }

  lemma SettleSucceeds(s: Db, contract: Id)
    requires contract in s.contracts
    ensures Settlement.SettleViaContract(s, contract).Ok?
  {
  }

  lemma SetSumOfNone<K>(g: K -> int)
    ensures SetSum({}, g) == 0
  {
  }

  /** The reimbursements of the list that are pending, at another rate. */
  function Retipped(reimbursements: map<Key, Reimbursement>, list: Id, pct: real): map<Key, Reimbursement> {
    map k | k in reimbursements ::
      var r := reimbursements[k];
      if k.list == list && r.status.Pending?
      then r.(tip := TipOf(r.subtotal, pct), total := TotalOf(r.subtotal, pct)) else r
  }

  class Tables {
    var lists: map<Id, ListRow>
    var items: map<Id, ItemRow>
    var claims: map<Id, ClaimRow>
    var claimItems: map<(Id, Id), bool>
    var fulfillments: map<nat, Fulfillment>
    var nextFulfillment: nat
    var reimbursements: map<Key, Reimbursement>
    var contracts: map<Id, Contract>
    var suggestions: map<(Id, Key), SuggestionState>

    function Contents(): Db
      reads this
    {
      Db(lists, items, claims, claimItems, fulfillments, nextFulfillment, reimbursements, contracts, suggestions)
    }

    ghost predicate Valid()
      reads this
    {
      Inv(Contents())
    }

    constructor ()
      ensures Valid() && Contents() == EMPTY_DB
    {
      lists, items, claims, claimItems := map[], map[], map[], map[];
      fulfillments, nextFulfillment := map[], 0;
      reimbursements, contracts, suggestions := map[], map[], map[];
    }

    // ── Recomputing items ───────────────────────────────────────────────────

    method LiveQuantity(item: Id) returns (qty: int)
      ensures qty == LiveQty(Contents(), item)
    {
      qty := 0;
      for n := 0 to nextFulfillment
        invariant qty == Sum(n, QtyAt(fulfillments, item))
      {
        if n in fulfillments && IsLiveOn(fulfillments[n], item) {
          qty := qty + fulfillments[n].qty;
        }
      }
    }

    method RecomputeItem(item: Id, demotion: Demotion)
      requires item in items
      modifies this`items
      ensures Contents() == Recompute.RecomputeItem(old(Contents()), item, demotion)
    {
      hide Sum, HasActiveClaim;
      var row := items[item];
      if row.status.Settled? || (row.status.Delivered? && demotion.Forbid?) {
        assert items[item := row] == items;
        return;
      }
      var qty := LiveQuantity(item);
      var base := Open;
      if qty >= row.qtyRequested {
        base := Bought;
      } else if HasActiveClaim(claimItems, item) {
        base := Claimed;
      }
      if row.status.Delivered? && base.Bought? {
        base := Delivered;
      }
      items := items[item := row.(status := base, qtyFulfilled := qty)];
    }

    method BulkRow(item: Id) returns (row: ItemRow)
      requires item in items
      ensures row == Recompute.BulkRow(Contents(), item)
    {
      hide Sum, HasActiveClaim;
      row := items[item];
      var qty := LiveQuantity(item);
      row := row.(qtyFulfilled := qty);
      if !row.status.Delivered? && !row.status.Settled? {
        if qty >= row.qtyRequested {
          row := row.(status := Bought);
        } else if HasActiveClaim(claimItems, item) {
          row := row.(status := Claimed);
        } else {
          row := row.(status := Open);
        }
      }
    }

    /** The set-based statement: it computes the rows one by one, in an arbitrary order, from
        the tables as they are when it starts. */
    method RecomputeBulk(ids: set<Id>)
      modifies this`items
      ensures Contents() == Recompute.RecomputeBulk(old(Contents()), ids)
    {
      hide Recompute.BulkRow;
      var rows, todo := items, ids;
      while todo != {}
        invariant items == old(items)
        invariant todo <= ids && rows.Keys == items.Keys
        invariant forall i | i in items ::
                    rows[i] == if i in ids && i !in todo then Recompute.BulkRow(Contents(), i) else items[i]
        decreases |todo|
      {
        var i :| i in todo;
        todo := todo - {i};
        if i in items {
          var row := BulkRow(i);
          rows := rows[i := row];
        }
      }
      SameRows(rows, Recompute.RecomputeBulk(Contents(), ids).items);
      items := rows;
    }

    // ── Claims ──────────────────────────────────────────────────────────────

    method ValidateClaimable(list: Id, ids: seq<Id>) returns (r: Result<()>)
      ensures r == Claims.ValidateClaimable(Contents(), list, ids)
    {
      var rows := set i | i in ids && i in items && items[i].list == list;
      assert rows == MatchingItems(Contents(), list, ids);
      if |rows| != |ids| {
        return Err(BadRequest);
      }
      var todo := rows;
      while todo != {}
        invariant todo <= rows
        invariant forall i | i in rows && i !in todo :: items[i].status.Open?
        decreases |todo|
      {
        var i :| i in todo;
        if !items[i].status.Open? {
          return Err(Conflict);
        }
        todo := todo - {i};
      }
      r := Ok(());
    }

    method InsertClaimItems(claim: Id, ids: seq<Id>) returns (r: Result<()>)
      modifies this`items, this`claimItems
      ensures Answers(Claims.InsertClaimItems(old(Contents()), claim, ids), old(Contents()), r, Contents())
    {
      hide Recompute.RecomputeBulk, HasActiveClaim, ActiveRows;
      if exists i | i in ids :: HasActiveClaim(claimItems, i) {
        return Err(Conflict);
      }
      if !Distinct(ids) || exists i | i in ids :: (claim, i) in claimItems {
        return Err(Internal);
      }
      claimItems := claimItems + ActiveRows(claim, ids);
      RecomputeBulk(IdSet(ids));
      r := Ok(());
    }

    /** The trigger keeps the flag of the claim's rows in step with its status. */
    method SetClaimStatus(claim: Id, status: ClaimStatus)
      requires claim in claims
      modifies this`claims, this`claimItems
      ensures Contents() == Claims.SetClaimStatus(old(Contents()), claim, status)
      ensures ClaimsExclusive(old(Contents())) ==> StatusChanged(old(Contents()), Contents(), claim, status)
    {
      hide ClaimsExclusive, StatusChanged, Flagged;
      FlagsFollowStatus(Contents(), claim, status);
      var was := claims[claim].status;
      claims := claims[claim := claims[claim].(status := status)];
      if was.Active? != status.Active? {
        claimItems := Flagged(claimItems, claim, status.Active?);
      }
    }

    method CreateClaim(caller: Caller, list: Id, ids: seq<Id>, newClaim: Id) returns (r: Result<()>)
      requires Valid()
      modifies this
      ensures Answers(Claims.CreateClaim(old(Contents()), caller, list, ids, newClaim), old(Contents()), r, Contents())
      ensures Valid()
    {
      hide Inv, Claims.InsertClaimItems, Claims.ValidateClaimable;
      if list !in lists {
        return Err(NotFound);
      }
      if !lists[list].status.ListOpen? {
        return Err(Conflict);
      }
      if ids == [] {
        return Err(BadRequest);
      }
      r := ValidateClaimable(list, ids);
      if r.Err? {
        return;
      }
      if newClaim in claims {
        return Err(Internal);
      }
      ghost var before := Contents();
      var rollback := claims;
      claims := claims[newClaim := ClaimRow(list, caller.user, Active)];
      r := InsertClaimItems(newClaim, ids);
      if r.Err? {
        claims := rollback;
        assert Contents() == before;
      } else {
        CreateClaimKeepsInv(before, caller, list, ids, newClaim);
      }
    }

    method WritableClaim(caller: Caller, claim: Id) returns (r: Result<ClaimRow>)
      ensures r == Claims.WritableClaim(Contents(), caller, claim)
      ensures r.Ok? <==>
              && claim in claims && claims[claim].status.Active?
              && (caller.owner || caller.user == claims[claim].hauler)
              && claims[claim].list in lists && !lists[claims[claim].list].status.ListArchived?
      ensures r.Ok? ==> r.value == claims[claim]
      ensures Inv(Contents()) ==>
                && (r == Err(NotFound) <==> claim !in claims)
                && (r.Ok? ==> forall p | p in claimItems && p.0 == claim :: claimItems[p])
    {
      if claim !in claims || claims[claim].list !in lists {
        return Err(NotFound);
      }
      var row := claims[claim];
      if lists[row.list].status.ListArchived? {
        return Err(Conflict);
      }
      if caller.user != row.hauler && !caller.owner {
        return Err(Forbidden);
      }
      if !row.status.Active? {
        return Err(Conflict);
      }
      r := Ok(row);
    }

    method AddClaimItems(caller: Caller, claim: Id, ids: seq<Id>) returns (r: Result<()>)
      requires Valid()
      modifies this
      ensures Answers(Claims.AddClaimItems(old(Contents()), caller, claim, ids), old(Contents()), r, Contents())
      ensures Valid()
    {
      hide Inv, Claims.InsertClaimItems, Claims.ValidateClaimable, Claims.WritableClaim;
      var row := WritableClaim(caller, claim);
      if row.Err? {
        return Err(row.error);
      }
      if ids == [] {
        return Err(BadRequest);
      }
      r := ValidateClaimable(row.value.list, ids);
      if r.Err? {
        return;
      }
      ghost var before := Contents();
      r := InsertClaimItems(claim, ids);
      if r.Ok? {
        AddClaimItemsKeepsInv(before, caller, claim, ids);
      }
    }

    method RemoveClaimItem(caller: Caller, claim: Id, item: Id) returns (r: Result<()>)
      requires Valid()
      modifies this
      ensures Answers(Claims.RemoveClaimItem(old(Contents()), caller, claim, item), old(Contents()), r, Contents())
      ensures Valid()
    {
      hide Inv, Claims.WritableClaim, Recompute.RecomputedRow;
      var row := WritableClaim(caller, claim);
      if row.Err? {
        return Err(row.error);
      }
      if (claim, item) !in claimItems {
        return Err(NotFound);
      }
      if item !in items {
        return Err(Internal);
      }
      ghost var before := Contents();
      claimItems := claimItems - {(claim, item)};
      RecomputeItem(item, Forbid);
      r := Ok(());
      RemoveClaimItemKeepsInv(before, caller, claim, item);
    }

    method ReleaseClaim(caller: Caller, claim: Id) returns (r: Result<()>)
      requires Valid()
      modifies this
      ensures Answers(Claims.ReleaseClaim(old(Contents()), caller, claim), old(Contents()), r, Contents())
      ensures Valid()
    {
      hide Inv, Recompute.RecomputeBulk, Claims.SetClaimStatus, Claims.WritableClaim;
      ghost var before := Contents();
      var row := WritableClaim(caller, claim);
      if row.Err? {
        return Err(row.error);
      }
      assert claim in claims by { WritableClaimExists(before, caller, claim); }
      var touched := ItemsOfClaim(Contents(), claim);
      SetClaimStatus(claim, Released);
      RecomputeBulk(touched);
      r := Ok(());
      ReleaseClaimKeepsInv(before, caller, claim);
    }

    // ── Purchases ───────────────────────────────────────────────────────────

    method CoveredSubtotal(k: Key) returns (subtotal: int)
      ensures subtotal == CoveredCost(Contents(), k)
    {
      subtotal := 0;
      for n := 0 to nextFulfillment
        invariant subtotal == Sum(n, CoveredCostAt(Contents(), k))
      {
        if n in fulfillments && Covers(Contents(), k, fulfillments[n]) {
          subtotal := subtotal + fulfillments[n].qty * fulfillments[n].unitPrice;
        }
      }
    }

    method UpsertReimbursement(k: Key)
      requires k.list in lists
      modifies this`reimbursements
      ensures Contents() == Fulfillments.UpsertReimbursement(old(Contents()), k)
    {
      hide CoveredCost, TipOf, TotalOf;
      if k in reimbursements && !reimbursements[k].status.Pending? {
        return;
      }
      var subtotal := CoveredSubtotal(k);
      var pct := lists[k.list].tipPct;
      var row := Reimbursement(Pending, 0, 0, 0, None, None);
      if k in reimbursements {
        row := reimbursements[k];
      }
      row := row.(subtotal := subtotal, tip := TipOf(subtotal, pct), total := TotalOf(subtotal, pct));
      reimbursements := reimbursements[k := row];
    }

    method CompleteClaimIfDone(claim: Option<Id>, item: Id)
      requires item in items
      modifies this`claims, this`claimItems
      ensures Contents() == Fulfillments.CompleteClaimIfDone(old(Contents()), claim, item)
      ensures ClaimsExclusive(old(Contents())) ==> CompletionChecked(old(Contents()), Contents(), claim, item)
    {
      ghost var before := Contents();
      if ClaimsExclusive(before) {
        CompletesIffDone(before, claim, item);
      }
      hide Claims.SetClaimStatus, StatusChanged, CompletionChecked;
      var status := items[item].status;
      if status.Bought? || status.Settled? {
        if claim.Some? {
          var done := AllItemsDone(Contents(), claim.value);
          if done && claim.value in claims && claims[claim.value].status.Active? {
            SetClaimStatus(claim.value, Completed);
          }
        }
      }
    }

    /** The claim that holds the item: any active row tells, as there is at most one. */
    method ActiveClaim(item: Id) returns (holder: Option<Id>)
      requires Valid()
      ensures holder == ActiveClaimOf(Contents(), item)
    {
      hide OwedSide, BindSide, StatusesFit, CacheIsLiveSum;
      if HasActiveClaim(claimItems, item) {
        var p :| p in claimItems && p.1 == item && claimItems[p];
        AnyActiveRowNamesTheHolder(Contents(), p);
        holder := Some(p.0);
      } else {
        holder := None;
      }
    }

    method RecordChecks(caller: Caller, list: Id, item: Id, p: Purchase) returns (r: Result<Key>)
      ensures r == Fulfillments.RecordChecks(Contents(), caller, list, item, p)
      ensures Inv(Contents()) ==> (r.Ok? <==> PurchaseFits(Contents(), caller, list, item, p))
      ensures Inv(Contents()) && r.Ok? ==> r.value == DebtFor(Contents(), item, caller.user)
    {
      if list !in lists {
        return Err(NotFound);
      }
      if lists[list].status.ListArchived? {
        return Err(Conflict);
      }
      if p.qty <= 0 || p.qty > MAX_QTY {
        return Err(BadRequest);
      }
      if p.unitPriceIsk < 0.0 || !p.placeGiven {
        return Err(BadRequest);
      }
      if item !in items || items[item].list != list {
        return Err(NotFound);
      }
      var row := items[item];
      if p.qty + row.qtyFulfilled > row.qtyRequested {
        return Err(Conflict);
      }
      var k := KeyFor(Contents(), list, row.requestedBy, caller.user);
      if k in reimbursements && !reimbursements[k].status.Pending? {
        return Err(Conflict);
      }
      if !p.placeValid {
        return Err(BadRequest);
      }
      r := Ok(k);
    }

    method RecordFulfillment(caller: Caller, list: Id, item: Id, p: Purchase) returns (r: Result<()>)
      requires Valid()
      modifies this
      ensures Answers(Fulfillments.RecordFulfillment(old(Contents()), caller, list, item, p), old(Contents()), r, Contents())
      ensures Valid()
    {
      hide Inv, Fulfillments.CompleteClaimIfDone, Fulfillments.UpsertReimbursement, Recompute.RecomputeItem, ToCents,
           ActiveClaimOf;
      ghost var before := Contents();
      var key := RecordChecks(caller, list, item, p);
      if key.Err? {
        return Err(key.error);
      }
      var holder := ActiveClaim(item);
      if holder.Some? && holder.value in claims && !caller.owner && claims[holder.value].hauler != caller.user {
        return Err(Forbidden);
      }
      if holder.Some? && p.claim.Some? && p.claim != holder {
        return Err(BadRequest);
      }
      Buy(key.value, item, Fulfillment(item, holder, caller.user, p.qty, ToCents(p.unitPriceIsk), false));
      r := Ok(());
      RecordFulfillmentKeepsInv(before, caller, list, item, p);
    }

    /** The writes of a purchase, in the order of the transaction. */
    method Buy(k: Key, item: Id, f: Fulfillment)
      requires item in items && k.list in lists
      modifies this
      ensures Contents() == RecordBought(old(Contents()), k, item, f)
    {
      hide Fulfillments.CompleteClaimIfDone, Fulfillments.UpsertReimbursement, Recompute.RecomputedRow;
      ghost var before := Contents();
      fulfillments := fulfillments[nextFulfillment := f];
      nextFulfillment := nextFulfillment + 1;
      RecomputeItem(item, Forbid);
      ghost var bought := Contents();
      CompleteClaimIfDone(f.claim, item);
      CompletionKeepsLists(bought, f.claim, item);
      UpsertReimbursement(k);
    }

    method ReverseFulfillment(caller: Caller, n: nat) returns (r: Result<()>)
      requires Valid()
      modifies this
      ensures Answers(Fulfillments.ReverseFulfillment(old(Contents()), caller, n), old(Contents()), r, Contents())
      ensures Valid()
    {
      hide Inv, Fulfillments.UpsertReimbursement, Recompute.RecomputedRow;
      ghost var before := Contents();
      if n !in fulfillments || fulfillments[n].item !in items {
        return Err(NotFound);
      }
      var f := fulfillments[n];
      var row := items[f.item];
      if row.list !in lists {
        return Err(NotFound);
      }
      if lists[row.list].status.ListArchived? {
        return Err(Conflict);
      }
      if f.reversed {
        return Err(BadRequest);
      }
      if caller.user != f.hauler && !caller.owner {
        return Err(Forbidden);
      }
      var k := KeyFor(Contents(), row.list, row.requestedBy, f.hauler);
      if k in reimbursements && !reimbursements[k].status.Pending? {
        return Err(Conflict);
      }
      fulfillments := fulfillments[n := f.(reversed := true)];
      RecomputeItem(f.item, Allow);
      UpsertReimbursement(k);
      r := Ok(());
      ReverseFulfillmentKeepsInv(before, caller, n);
    }

    method MarkDelivered(caller: Caller, list: Id, item: Id, lastHauler: bool) returns (r: Result<()>)
      requires Valid()
      modifies this
      ensures Answers(Fulfillments.MarkDelivered(old(Contents()), caller, list, item, lastHauler), old(Contents()), r, Contents())
      ensures Valid()
    {
      hide Inv;
      ghost var before := Contents();
      if list !in lists {
        return Err(NotFound);
      }
      if lists[list].status.ListArchived? {
        return Err(Conflict);
      }
      if item !in items || items[item].list != list {
        return Err(NotFound);
      }
      if !items[item].status.Bought? {
        return Err(BadRequest);
      }
      if !lastHauler && !caller.owner {
        return Err(Forbidden);
      }
      items := items[item := items[item].(status := Delivered)];
      r := Ok(());
      MarkDeliveredKeepsInv(before, caller, list, item, lastHauler);
    }

    // ── Settling ────────────────────────────────────────────────────────────

    method AutoCloseIfComplete(list: Id)
      modifies this`lists
      ensures Contents() == AutoClose(old(Contents()), {list})
    {
      ghost var before := Contents();
      if list in lists && lists[list].status.ListOpen? && AllItemsSettled(Contents(), list) {
        lists := lists[list := lists[list].(status := ListClosed)];
      }
      SameRows(lists, AutoClose(before, {list}).lists);
    }

    method AutoCloseEach(listIds: set<Id>)
      modifies this`lists
      ensures Contents() == AutoClose(old(Contents()), listIds)
    {
      hide AutoClose;
      ghost var before := Contents();
      AutoCloseNone(before);
      var todo := listIds;
      assert listIds - todo == {};
      while todo != {}
        invariant todo <= listIds
        invariant Contents() == AutoClose(before, listIds - todo)
        decreases |todo|
      {
        var l :| l in todo;
        AutoCloseOneMore(before, listIds - todo, l);
        assert listIds - (todo - {l}) == (listIds - todo) + {l};
        AutoCloseIfComplete(l);
        todo := todo - {l};
      }
      assert listIds - {} == listIds;
    }

    method PromoteManually(k: Key)
      modifies this`items
      ensures Contents() == FlipManually(old(Contents()), k)
    {
      hide FlipsManually;
      var rows, todo := items, items.Keys;
      while todo != {}
        invariant items == old(items) && todo <= items.Keys && rows.Keys == items.Keys
        invariant forall i | i in items ::
                    rows[i] == if i !in todo && FlipsManually(Contents(), k, i)
                               then items[i].(status := Settled) else items[i]
        decreases |todo|
      {
        var i :| i in todo;
        todo := todo - {i};
        if FlipsManually(Contents(), k, i) {
          rows := rows[i := items[i].(status := Settled)];
        }
      }
      SameRows(rows, FlipManually(Contents(), k).items);
      items := rows;
    }

    method SettleManual(k: Key, user: Id) returns (r: Result<()>)
      modifies this
      ensures Answers(Settlement.SettleManual(old(Contents()), k, user), old(Contents()), r, Contents())
    {
      hide FlipManually, AutoClose, OwesDelivery;
      if k !in reimbursements {
        return Err(NotFound);
      }
      if !reimbursements[k].status.Pending? {
        return Err(Conflict);
      }
      if exists i | i in items :: OwesDelivery(Contents(), k, i) {
        return Err(Conflict);
      }
      reimbursements := reimbursements[k := reimbursements[k].(status := Paid, settledBy := Some(user))];
      PromoteManually(k);
      AutoCloseIfComplete(k.list);
      r := Ok(());
    }

    method SettleReimbursement(caller: Caller, k: Key) returns (r: Result<()>)
      requires Valid()
      modifies this
      ensures Answers(Settlement.SettleReimbursement(old(Contents()), caller, k), old(Contents()), r, Contents())
      ensures Valid()
    {
      hide Inv, Settlement.SettleManual;
      ghost var before := Contents();
      if k !in reimbursements {
        return Err(NotFound);
      }
      if !reimbursements[k].status.Pending? {
        return Err(Conflict);
      }
      if reimbursements[k].contract.Some? {
        return Err(Conflict);
      }
      if k.requester != UserPrincipal(caller.user) && !caller.owner {
        return Err(Forbidden);
      }
      r := SettleManual(k, caller.user);
      if r.Ok? {
        SettleReimbursementKeepsInv(before, caller, k);
      }
    }

    // ── Settling through a contract ─────────────────────────────────────────

    /** Pays what is bound and pending, and returns which reimbursements it paid. */
    method PayBound(contract: Id) returns (paid: set<Key>)
      modifies this`reimbursements
      ensures Contents() == Settlement.PayBound(old(Contents()), contract)
      ensures paid == PendingBound(old(Contents()), contract)
    {
      paid := PendingBound(Contents(), contract);
      var rows, todo := reimbursements, paid;
      while todo != {}
        invariant reimbursements == old(reimbursements) && todo <= paid && rows.Keys == reimbursements.Keys
        invariant forall k | k in reimbursements ::
                    rows[k] == if k in paid && k !in todo
                               then reimbursements[k].(status := Paid, settledBy := None) else reimbursements[k]
        decreases |todo|
      {
        var k :| k in todo;
        todo := todo - {k};
        rows := rows[k := reimbursements[k].(status := Paid, settledBy := None)];
      }
      SameRows(rows, Settlement.PayBound(Contents(), contract).reimbursements);
      reimbursements := rows;
    }

    method PromoteByContract(contract: Id)
      modifies this`items
      ensures Contents() == FlipByContract(old(Contents()), contract)
    {
      hide FlipsByContract;
      var rows, todo := items, items.Keys;
      while todo != {}
        invariant items == old(items) && todo <= items.Keys && rows.Keys == items.Keys
        invariant forall i | i in items ::
                    rows[i] == if i !in todo && FlipsByContract(Contents(), contract, i)
                               then items[i].(status := Settled) else items[i]
        decreases |todo|
      {
        var i :| i in todo;
        todo := todo - {i};
        if FlipsByContract(Contents(), contract, i) {
          rows := rows[i := items[i].(status := Settled)];
        }
      }
      SameRows(rows, FlipByContract(Contents(), contract).items);
      items := rows;
    }

    method RecordDelta(contract: Id)
      requires contract in contracts
      modifies this`contracts
      ensures Contents() == WriteDelta(old(Contents()), contract)
    {
      var row := contracts[contract];
      if row.expectedTotal.None? {
        contracts := contracts[contract := row.(settlementDelta := None)];
      } else {
        contracts := contracts[contract := row.(settlementDelta := Some(row.price - row.expectedTotal.value))];
      }
    }

    method SettleViaContract(contract: Id) returns (r: Result<()>)
      modifies this
      ensures Answers(Settlement.SettleViaContract(old(Contents()), contract), old(Contents()), r, Contents())
    {
      hide Settlement.PayBound, FlipByContract, AutoClose, AnyPendingBound, PendingBound, ListsBound, OnlyPays, OnlyFlips,
           WriteDelta;
      ghost var before := Contents();
      SettledTables(before, contract);
      if contract !in contracts {
        return Err(NotFound);
      }
      var settled := PayBound(contract);
      NothingSettled(before, contract);
      if settled == {} {
        return Ok(());
      }
      PromoteByContract(contract);
      RecordDelta(contract);
      var listIds := ListsBound(Contents(), contract);
      BoundListsKept(before, Contents(), contract);
      AutoCloseEach(listIds);
      r := Ok(());
    }

    /** The sum over the bound reimbursements, or nothing when there is none. */
    method BoundTotal(contract: Id) returns (total: Option<int>)
      ensures total == ExpectedTotal(Contents(), contract)
    {
      hide SetSum;
      var keys := BoundKeys(Contents(), contract);
      var sum, todo := 0, keys;
      SetSumOfNone(OwedAt(Contents()));
      while todo != {}
        invariant todo <= keys
        invariant sum + SetSum(todo, OwedAt(Contents())) == SetSum(keys, OwedAt(Contents()))
        decreases |todo|
      {
        var k :| k in todo;
        SetSumRemove(todo, OwedAt(Contents()), k);
        sum := sum + reimbursements[k].subtotal + reimbursements[k].tip;
        todo := todo - {k};
      }
      total := if keys == {} then None else Some(sum);
    }

    method RefreshExpectedTotal(contract: Id)
      requires contract in contracts
      modifies this`contracts
      ensures Contents() == Settlement.RefreshExpectedTotal(old(Contents()), contract)
    {
      hide ExpectedTotal;
      var total := BoundTotal(contract);
      contracts := contracts[contract := contracts[contract].(expectedTotal := total)];
    }

    method ReleaseBound(contract: Id)
      modifies this`reimbursements
      ensures Contents() == Settlement.ReleaseBound(old(Contents()), contract)
    {
      reimbursements := map k | k in reimbursements ::
        if reimbursements[k].contract == Some(contract) && reimbursements[k].status.Pending?
        then reimbursements[k].(contract := None) else reimbursements[k];
    }

    method UnbindContract(contract: Id)
      requires Valid()
      modifies this
      ensures Contents() == Settlement.UnbindContract(old(Contents()), contract)
      ensures Valid()
    {
      hide Inv, Settlement.ReleaseBound, SupersedeAll;
      ghost var before := Contents();
      ReleaseTables(before, contract);
      ReleaseBound(contract);
      suggestions := SupersedeAll(suggestions, contract, Proposed);
      if contract in contracts {
        contracts := contracts[contract := contracts[contract].(expectedTotal := None)];
      }
      UnbindContractKeepsInv(before, contract);
    }

    method ContractTerminal(contract: Id, status: ContractStatus) returns (r: Result<()>)
      requires Valid()
      modifies this
      ensures Answers(Settlement.ContractTerminal(old(Contents()), contract, status), old(Contents()), r, Contents())
      ensures Valid()
    {
      hide Inv, Settlement.SettleViaContract, Settlement.UnbindContract;
      ghost var before := Contents();
      r := Ok(());
      if status.IsTerminalSuccess() {
        r := SettleViaContract(contract);
        if r.Ok? {
          SettleViaContractKeepsInv(before, contract);
        }
      } else if status.IsTerminalFailure() {
        UnbindContract(contract);
      }
    }

    // ── Binding ─────────────────────────────────────────────────────────────

    method ValidateLink(user: Id, member: bool, contract: Id, k: Key) returns (r: Result<()>)
      requires contract in contracts && k in reimbursements
      ensures r == Contracts.ValidateLink(Contents(), user, member, contract, k)
      ensures r.Ok? <==> member && user == k.hauler && MayBind(contracts[contract], k, reimbursements[k])
      ensures r.Err? ==> r.error.Forbidden? || r.error.Conflict?
    {
      var c, reimbursement := contracts[contract], reimbursements[k];
      if !c.kind.ItemExchange? {
        return Err(Conflict);
      }
      if !reimbursement.status.Pending? || reimbursement.contract.Some? {
        return Err(Conflict);
      }
      if k.hauler != user {
        return Err(Forbidden);
      }
      if c.issuerUser.Some? && c.issuerUser != Some(user) {
        return Err(Forbidden);
      }
      if c.issuer != Some(UserPrincipal(k.hauler)) {
        return Err(Conflict);
      }
      if c.assignee.Some? && c.assignee.value != k.requester {
        return Err(Conflict);
      }
      if !member {
        return Err(Forbidden);
      }
      r := Ok(());
    }

    /** Marks the suggestion confirmed, which the index may refuse, and finalizes the link. */
    method ConfirmAndBind(contract: Id, k: Key) returns (r: Result<()>)
      requires contract in contracts && k in reimbursements
      modifies this
      ensures Answers(Contracts.ConfirmAndBind(old(Contents()), contract, k), old(Contents()), r, Contents())
    {
      hide Settlement.SettleViaContract, ConfirmedElsewhere, ExpectedTotal;
      if ConfirmedElsewhere(Contents(), contract, k) {
        return Err(Conflict);
      }
      ghost var before := Contents();
      var finished := contracts[contract].status.IsTerminalSuccess();
      suggestions := suggestions[(contract, k) := Confirmed];
      reimbursements := reimbursements[k := reimbursements[k].(contract := Some(contract))];
      RefreshExpectedTotal(contract);
      assert Contents() == Bind(before, contract, k);
      r := Ok(());
      if finished {
        SettleSucceeds(Contents(), contract);
        r := SettleViaContract(contract);
      }
    }

    method ConfirmSuggestion(user: Id, member: bool, contract: Id, k: Key) returns (r: Result<()>)
      requires Valid()
      modifies this
      ensures Answers(Contracts.ConfirmSuggestion(old(Contents()), user, member, contract, k), old(Contents()), r, Contents())
      ensures Valid()
    {
      hide Inv, Contracts.ConfirmAndBind, Contracts.ValidateLink;
      ghost var before := Contents();
      if (contract, k) !in suggestions || contract !in contracts || k !in reimbursements {
        return Err(NotFound);
      }
      if !suggestions[(contract, k)].Proposed? {
        return Err(Conflict);
      }
      r := ValidateLink(user, member, contract, k);
      if r.Ok? {
        r := ConfirmAndBind(contract, k);
        if r.Ok? {
          ConfirmSuggestionKeepsInv(before, user, member, contract, k);
        }
      }
    }

    method ManualLink(user: Id, member: bool, contract: Id, k: Key) returns (r: Result<()>)
      requires Valid()
      modifies this
      ensures Answers(Contracts.ManualLink(old(Contents()), user, member, contract, k), old(Contents()), r, Contents())
      ensures Valid()
    {
      hide Inv, Contracts.ConfirmAndBind, Contracts.ValidateLink;
      ghost var before := Contents();
      if contract !in contracts || k !in reimbursements {
        return Err(NotFound);
      }
      r := ValidateLink(user, member, contract, k);
      if r.Ok? {
        r := ConfirmAndBind(contract, k);
        if r.Ok? {
          ManualLinkKeepsInv(before, user, member, contract, k);
        }
      }
    }

    method RejectSuggestion(user: Id, member: bool, contract: Id, k: Key) returns (r: Result<()>)
      requires Valid()
      modifies this
      ensures Answers(Contracts.RejectSuggestion(old(Contents()), user, member, contract, k), old(Contents()), r, Contents())
      ensures Valid()
    {
      hide Inv;
      ghost var before := Contents();
      if (contract, k) !in suggestions || contract !in contracts {
        return Err(NotFound);
      }
      if !suggestions[(contract, k)].Proposed? {
        return Err(Conflict);
      }
      var issuer := contracts[contract].issuerUser;
      var mayReject := if issuer.Some? then issuer.value == user else k.hauler == user;
      if !mayReject || !member {
        return Err(Forbidden);
      }
      suggestions := suggestions[(contract, k) := Rejected];
      r := Ok(());
      RejectKeepsInv(before, user, member, contract, k);
    }

    method Unlink(contract: Id, allowed: bool, insideGroups: bool) returns (r: Result<()>)
      requires Valid()
      modifies this
      ensures Answers(Contracts.Unlink(old(Contents()), contract, allowed, insideGroups), old(Contents()), r, Contents())
      ensures Valid()
    {
      hide Inv, Settlement.ReleaseBound, SupersedeAll, ExpectedTotal;
      ghost var before := Contents();
      if contract !in contracts {
        return Err(NotFound);
      }
      if !allowed || !insideGroups {
        return Err(Forbidden);
      }
      if contracts[contract].status.IsTerminalSuccess() {
        return Err(Conflict);
      }
      ReleaseTables(before, contract);
      ReleaseBound(contract);
      suggestions := SupersedeAll(suggestions, contract, Confirmed);
      RefreshExpectedTotal(contract);
      r := Ok(());
      UnlinkKeepsInv(before, contract, allowed, insideGroups);
    }

    // ── Edits ───────────────────────────────────────────────────────────────

    method RetipPending(list: Id, pct: real)
      modifies this`reimbursements
      ensures Contents() == old(Contents()).(reimbursements := Retipped(old(reimbursements), list, pct))
    {
      hide TipOf, TotalOf;
      var rows, todo := reimbursements, reimbursements.Keys;
      while todo != {}
        invariant reimbursements == old(reimbursements)
        invariant todo <= reimbursements.Keys && rows.Keys == reimbursements.Keys
        invariant forall k | k in reimbursements ::
                    rows[k] == if k in todo then reimbursements[k] else Retipped(reimbursements, list, pct)[k]
        decreases |todo|
      {
        var k :| k in todo;
        todo := todo - {k};
        var row := reimbursements[k];
        if k.list == list && row.status.Pending? {
          rows := rows[k := row.(tip := TipOf(row.subtotal, pct), total := TotalOf(row.subtotal, pct))];
        }
      }
      SameRows(rows, Retipped(reimbursements, list, pct));
      reimbursements := rows;
    }

    method SetListTip(caller: Caller, list: Id, pct: real) returns (r: Result<()>)
      requires Valid()
      modifies this
      ensures Answers(ListEdits.SetListTip(old(Contents()), caller, list, pct), old(Contents()), r, Contents())
      ensures Valid()
    {
      hide Inv, StoredTipPct, TipOf, TotalOf, HasLiveFulfillment;
      ghost var before := Contents();
      if list !in lists {
        return Err(NotFound);
      }
      if lists[list].status.ListArchived? {
        return Err(Conflict);
      }
      if pct < 0.0 || pct > 1.0 {
        return Err(BadRequest);
      }
      if caller.user != lists[list].createdBy && !caller.owner {
        return Err(Forbidden);
      }
      if !caller.owner && HasLiveFulfillment(Contents(), list) {
        return Err(Forbidden);
      }
      lists := lists[list := lists[list].(tipPct := StoredTipPct(pct))];
      RetipPending(list, pct);
      r := Ok(());
      SetListTipKeepsInv(before, caller, list, pct);
    }

    method PatchListPayer(caller: Caller, list: Id, payer: Option<Id>, corpLinked: bool) returns (r: Result<()>)
      requires Valid()
      modifies this
      ensures Answers(ListEdits.PatchListPayer(old(Contents()), caller, list, payer, corpLinked), old(Contents()), r, Contents())
      ensures Valid()
    {
      hide Inv;
      ghost var before := Contents();
      if list !in lists || !caller.owner {
        return Err(Forbidden);
      }
      if exists k | k in reimbursements :: k.list == list {
        return Err(Conflict);
      }
      if payer.Some? && !corpLinked {
        return Err(NotFound);
      }
      lists := lists[list := lists[list].(payerCorp := payer)];
      r := Ok(());
      PatchListPayerKeepsInv(before, caller, list, payer, corpLinked);
    }

    method PatchItem(list: Id, item: Id, qty: int) returns (r: Result<()>)
      requires Valid()
      modifies this
      ensures Answers(ListEdits.PatchItem(old(Contents()), list, item, qty), old(Contents()), r, Contents())
      ensures Valid()
    {
      hide Inv;
      ghost var before := Contents();
      if list !in lists {
        return Err(NotFound);
      }
      if lists[list].status.ListArchived? {
        return Err(Conflict);
      }
      if qty <= 0 {
        return Err(BadRequest);
      }
      if item !in items || items[item].list != list {
        return Err(NotFound);
      }
      if !items[item].status.Open? {
        return Err(Conflict);
      }
      items := items[item := items[item].(qtyRequested := qty)];
      r := Ok(());
      PatchItemKeepsInv(before, list, item, qty);
    }

    /** The row goes, and with it whatever refers to it. */
    method DeleteCascade(item: Id)
      modifies this`items, this`claimItems, this`fulfillments
      ensures ItemDeleted(old(Contents()), Contents(), item)
      ensures Contents() == old(Contents()).(items := old(items) - {item},
                                             claimItems := claimItems, fulfillments := fulfillments)
    {
      items := items - {item};
      claimItems := map p | p in claimItems && p.1 != item :: claimItems[p];
      fulfillments := map n | n in fulfillments && fulfillments[n].item != item :: fulfillments[n];
    }

    method DeleteItem(list: Id, item: Id) returns (r: Result<()>)
      requires Valid()
      modifies this
      ensures Answers(ListEdits.DeleteItem(old(Contents()), list, item), old(Contents()), r, Contents())
      ensures Valid()
    {
      hide Inv;
      ghost var before := Contents();
      if list !in lists {
        return Err(NotFound);
      }
      if lists[list].status.ListArchived? {
        return Err(Conflict);
      }
      if item !in items || items[item].list != list {
        return Err(NotFound);
      }
      if !items[item].status.Open? {
        return Err(Conflict);
      }
      DeleteCascade(item);
      r := Ok(());
      DeleteItemKeepsInv(before, list, item);
    }
  }
}
