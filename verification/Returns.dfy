/** The human commands of `services/returns.py`, and each of them run as one transaction. */
module Returns {
  import opened Domain
  import opened Tables
  import opened CaseStore
  import opened Refunds

  datatype Operation =
    | Authorize
    | Receive
    | Inspect
    | Reject
    | ApproveRefundOf(amount: int)
    | RetryFailed
    | MarkReconciled
    | Close

  datatype Command = Command(c: CaseId, expected: int, op: Operation)

  /** What a route answers: the case, and for an approval whether a second one is required. */
  datatype Response = CaseResponse(view: CaseRow) | ApprovalResponse(view: CaseRow, secondApprovalRequired: bool)

  /** The role gate each service checks before it reads the case. */
  predicate GatePasses(context: Context, op: Operation) {
    match op
    case Authorize => HasRole(context, {CustomerService})
    case Receive | Inspect => HasRole(context, {Warehouse})
    case Reject => true
    case ApproveRefundOf(_) | RetryFailed | MarkReconciled | Close => HasRole(context, {Finance})
  }

  function EligibilityApproval(context: Context, c: CaseId): Approval {
    Approval(context.org, c, Eligibility, Approved, context.user, None)
  }

  /** `reject_case` once the case has been read. */
  function RejectCase(db: Db, context: Context, c: CaseId, expected: int, snap: CaseRow): Result<Db> {
    if context.role !in {CustomerService, Finance, Admin} then Err(PermissionDenied)
    else if snap.status !in {Requested, Inspected} then Err(Conflict)
    else CasTransition(db, c, snap, Rejected, Some(context), false, expected, None, ReturnRejected)
  }

  /** `authorize_case` once the case has been read. */
  function AuthorizeCase(db: Db, context: Context, c: CaseId, expected: int, snap: CaseRow): Result<Db> {
    var db1 :- CasTransition(db, c, snap, Authorized, Some(context), false, expected, None, ReturnAuthorized);
    InsertApproval(db1, EligibilityApproval(context, c))
  }

  function Move(db: Db, context: Context, cmd: Command, snap: CaseRow, target: ReturnStatus, action: Action)
    : Result<Db>
  {
    CasTransition(db, cmd.c, snap, target, Some(context), false, cmd.expected, None, action)
  }

  /** The writing half of a command that has read `snap` and, for an approval, `approvals`, or for a
      retry the attempt `seen`. */
  function Commit(settings: Settings, db: Db, context: Context, cmd: Command, snap: CaseRow,
                  approvals: seq<Approval>, seen: Option<Attempt>, now: Time, e: EventId): Result<(Db, bool)>
  {
    if !GatePasses(context, cmd.op) then Err(PermissionDenied)
    else if cmd.op.ApproveRefundOf? then
      ApproveRefund(settings, db, context, cmd.c, cmd.expected, cmd.op.amount, snap, approvals, now, e)
    else
      var db1 :- CommitPlain(db, context, cmd, snap, seen, now, e);
      Ok((db1, false))
  }

  function CommitPlain(db: Db, context: Context, cmd: Command, snap: CaseRow, seen: Option<Attempt>,
                       now: Time, e: EventId): Result<Db>
    requires !cmd.op.ApproveRefundOf?
  {
    match cmd.op
    case Authorize => AuthorizeCase(db, context, cmd.c, cmd.expected, snap)
    case Receive => Move(db, context, cmd, snap, Received, ReturnReceived)
    case Inspect => Move(db, context, cmd, snap, Inspected, ReturnInspected)
    case Reject => RejectCase(db, context, cmd.c, cmd.expected, snap)
    case RetryFailed => RetryFailedRefund(db, context, cmd.c, cmd.expected, snap, seen, now, e)
    case MarkReconciled => Move(db, context, cmd, snap, Reconciled, ReturnReconciled)
    case Close => Move(db, context, cmd, snap, Closed, ReturnClosed)
  }

  /** `get_case`: a case of another organization does not exist. */
  predicate Visible(db: Db, context: Context, c: CaseId) {
    c in db.cases && db.cases[c].org == context.org
  }

  /** A command whose reads of the case and of the approvals are current; `seen` is the attempt it has
      read, perhaps earlier. */
  function ExecOn(settings: Settings, db: Db, context: Context, cmd: Command, seen: Option<Attempt>,
                  now: Time, e: EventId): Result<(Db, bool)>
  {
    if !GatePasses(context, cmd.op) then Err(PermissionDenied)
    else if !Visible(db, context, cmd.c) then Err(NotFound)
    else Commit(settings, db, context, cmd, db.cases[cmd.c], RefundApprovals(db.approvals, cmd.c), seen, now, e)
  }

  /** A command run alone, from its reads to its commit. */
  function Exec(settings: Settings, db: Db, context: Context, cmd: Command, now: Time, e: EventId)
    : Result<(Db, bool)>
  {
    ExecOn(settings, db, context, cmd, AttemptOf(db, context, cmd.c), now, e)
  }
}
