/** Creating, extending, shrinking and releasing claims. */
module Claims {
  import opened Domain
  import opened Database
  import opened Recompute

  function MatchingItems(s: Db, list: Id, ids: seq<Id>): set<Id> {
    set i | i in ids && i in s.items && s.items[i].list == list
  }

  /** Every identifier must name a distinct item of the list, and each must be open. */
  function ValidateClaimable(s: Db, list: Id, ids: seq<Id>): Result<()> {
    if |MatchingItems(s, list, ids)| != |ids| then Err(BadRequest)
    else if exists i | i in MatchingItems(s, list, ids) :: !s.items[i].status.Open? then Err(Conflict)
    else Ok(())
  }

  predicate Distinct(ids: seq<Id>) {
    forall j, k | 0 <= j < k < |ids| :: ids[j] != ids[k]
  }

  function ActiveRows(claim: Id, ids: seq<Id>): map<(Id, Id), bool> {
    var pairs := set i | i in ids :: (claim, i);
    map p | p in pairs :: true
  }

  /** Inserting claim items runs into the one-active-claim index when an item is
      already actively claimed, and into the primary key on a repeated pair. */
  function InsertClaimItems(s: Db, claim: Id, ids: seq<Id>): Result<Db> {
    if exists i | i in ids :: HasActiveClaim(s.claimItems, i) then Err(Conflict)
    else if !Distinct(ids) || exists i | i in ids :: (claim, i) in s.claimItems then Err(Internal)
    else
      var inserted := s.(claimItems := s.claimItems + ActiveRows(claim, ids));
      Ok(RecomputeBulk(inserted, IdSet(ids)))
  }

  function Flagged(claimItems: map<(Id, Id), bool>, claim: Id, active: bool): map<(Id, Id), bool> {
    map p | p in claimItems :: if p.0 == claim then active else claimItems[p]
  }

  /** Changing a claim's status fires the trigger that keeps `active` in step with it. */
  function SetClaimStatus(s: Db, claim: Id, status: ClaimStatus): Db
    requires claim in s.claims
  {
    s.(claims := s.claims[claim := s.claims[claim].(status := status)],
       claimItems := if s.claims[claim].status.Active? == status.Active? then s.claimItems
                     else Flagged(s.claimItems, claim, status.Active?))
  }

  function CreateClaim(s: Db, caller: Caller, list: Id, ids: seq<Id>, newClaim: Id): Result<Db> {
    if list !in s.lists then Err(NotFound)
    else if !s.lists[list].status.ListOpen? then Err(Conflict)
    else if ids == [] then Err(BadRequest)
    else
      match ValidateClaimable(s, list, ids)
      case Err(e) => Err(e)
      case Ok(_) =>
        if newClaim in s.claims then Err(Internal) else
          InsertClaimItems(s.(claims := s.claims[newClaim := ClaimRow(list, caller.user, Active)]), newClaim, ids)
  }

  /** The checks that precede every change to an existing claim. */
  function WritableClaim(s: Db, caller: Caller, claim: Id): Result<ClaimRow> {
    if claim !in s.claims || s.claims[claim].list !in s.lists then Err(NotFound)
    else if s.lists[s.claims[claim].list].status.ListArchived? then Err(Conflict)
    else if caller.user != s.claims[claim].hauler && !caller.owner then Err(Forbidden)
    else if !s.claims[claim].status.Active? then Err(Conflict)
    else Ok(s.claims[claim])
  }

  function AddClaimItems(s: Db, caller: Caller, claim: Id, ids: seq<Id>): Result<Db> {
    match WritableClaim(s, caller, claim)
    case Err(e) => Err(e)
    case Ok(row) =>
      if ids == [] then Err(BadRequest) else
        match ValidateClaimable(s, row.list, ids)
        case Err(e) => Err(e)
        case Ok(_) => InsertClaimItems(s, claim, ids)
  }

  function RemoveClaimItem(s: Db, caller: Caller, claim: Id, item: Id): Result<Db> {
    match WritableClaim(s, caller, claim)
    case Err(e) => Err(e)
    case Ok(_) =>
      if (claim, item) !in s.claimItems then Err(NotFound)
      else if item !in s.items then Err(Internal)
      else Ok(RecomputeItem(s.(claimItems := s.claimItems - {(claim, item)}), item, Forbid))
  }

  function ItemsOfClaim(s: Db, claim: Id): set<Id> {
    set p | p in s.claimItems && p.0 == claim :: p.1
  }

  function ReleaseClaim(s: Db, caller: Caller, claim: Id): Result<Db> {
    match WritableClaim(s, caller, claim)
    case Err(e) => Err(e)
    case Ok(_) => Ok(RecomputeBulk(SetClaimStatus(s, claim, Released), ItemsOfClaim(s, claim)))
  }
}
