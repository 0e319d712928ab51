/** The vocabulary shared by every module: identifiers, statuses and results. */
module Domain {
  /** Row identifiers. The program uses UUIDs; only their distinctness matters. */
  type Id = nat

  datatype Option<+T> = None | Some(value: T)

  /** The error classes that the handlers answer with. */
  datatype Error = NotFound | BadRequest | Forbidden | Conflict | Internal

  datatype Result<+T> = Ok(value: T) | Err(error: Error)

  datatype ListStatus = ListOpen | ListClosed | ListArchived

  datatype ItemStatus = Open | Claimed | Bought | Delivered | Settled {
    /** The statuses that promise that the item is fully bought. */
    predicate Fulfilled() {
      Bought? || Delivered? || Settled?
    }
  }

  datatype ClaimStatus = Active | Released | Completed

  datatype ReimbursementStatus = Pending | Paid

  datatype SuggestionState = Proposed | Confirmed | Rejected | Superseded

  datatype ContractType = ItemExchange | Auction | Courier | Unknown

  datatype ContractStatus =
    | Outstanding
    | InProgress
    | FinishedIssuer
    | FinishedContractor
    | Finished
    | Cancelled
    | RejectedByAssignee
    | Failed
    | Deleted
    | Reversed
  {
    predicate IsTerminalSuccess() {
      Finished? || FinishedIssuer? || FinishedContractor?
    }

    predicate IsTerminalFailure() {
      Cancelled? || RejectedByAssignee? || Failed? || Deleted? || Reversed?
    }
  }

  /** Who owes or is owed: a user, or a corporation that pays for a list. */
  datatype Principal = UserPrincipal(user: Id) | CorpPrincipal(corp: Id)

  /** The caller of a handler. Membership of the list's group is already checked. */
  datatype Caller = Caller(user: Id, owner: bool)
}
